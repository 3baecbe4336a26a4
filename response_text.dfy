/** `format_response_text` of the chat front end: collapse whitespace runs into single spaces,
    put a space after punctuation that is directly followed by a non-space character, and drop
    whitespace that follows a dollar sign. */
module ResponseText {
  import opened Strings

  /** The characters of `s` that are not whitespace, in order. */
  function NonSpace(s: string): string
  {
    if s == "" then "" else (if IsSpace(s[0]) then "" else [s[0]]) + NonSpace(s[1..])
  }

  lemma {:induction false} NonSpaceAppend(a: string, b: string)
    ensures NonSpace(a + b) == NonSpace(a) + NonSpace(b)
  {
    if a == "" {
      assert a + b == b;
    } else {
      assert (a + b)[0] == a[0];
      assert (a + b)[1..] == a[1..] + b;
      NonSpaceAppend(a[1..], b);
    }
  }

  lemma {:induction false} NonSpaceOfSpaces(s: string)
    requires AllSpace(s)
    ensures NonSpace(s) == ""
  {
    if s != "" {
      NonSpaceOfSpaces(s[1..]);
    }
  }

  /** No character of `w` is whitespace. */
  predicate NoSpace(w: string)
  {
    forall i :: 0 <= i < |w| ==> !IsSpace(w[i])
  }

  lemma {:induction false} NonSpaceOfNoSpace(w: string)
    requires NoSpace(w)
    ensures NonSpace(w) == w
  {
    if w != "" {
      NonSpaceOfNoSpace(w[1..]);
    }
  }

  /** Skipping leading whitespace loses no other character. */
  lemma NonSpaceTrimStart(s: string)
    ensures NonSpace(TrimStart(s)) == NonSpace(s)
  {
    var t := TrimStart(s);
    var p := s[..|s| - |t|];
    assert s == p + t;
    assert AllSpace(p) by {
      if !AllSpace(p) {
        var i :| 0 <= i < |p| && !IsSpace(p[i]);
        TrimStartFrom(s, i);
        assert false;
      }
    }
    NonSpaceAppend(p, t);
    NonSpaceOfSpaces(p);
  }

  /** `TrimStart` stops at the first non-whitespace character. */
  lemma {:induction false} TrimStartFrom(s: string, i: int)
    requires 0 <= i < |s| && !IsSpace(s[i])
    ensures |TrimStart(s)| >= |s| - i
  {
    if i > 0 && IsSpace(s[0]) {
      TrimStartFrom(s[1..], i - 1);
      assert TrimStart(s) == TrimStart(s[1..]);
    } else {
      assert !IsSpace(s[0]);
      assert TrimStart(s) == s;
    }
  }

  /** Spaces only between words: every whitespace character is a plain space, no two are
      adjacent, and the text does not end in one. */
  ghost predicate InnerSpaced(t: string)
  {
    && (forall i :: 0 <= i < |t| && IsSpace(t[i]) ==> t[i] == ' ')
    && (forall i, j :: 0 <= i && j == i + 1 && j < |t| && IsSpace(t[i]) ==> !IsSpace(t[j]))
    && (t != "" ==> !IsSpace(t[|t| - 1]))
  }

  /** No leading or trailing whitespace, and the only whitespace is single spaces. */
  ghost predicate Normalized(t: string)
  {
    InnerSpaced(t) && (t != "" ==> !IsSpace(t[0]))
  }

  lemma NoSpaceIsInnerSpaced(w: string)
    requires NoSpace(w)
    ensures InnerSpaced(w)
  {
  }

  /** Text spaced between words, followed by more such text, is still spaced between words: the
      first part cannot end in a space. */
  lemma InnerSpacedAppend(a: string, b: string)
    requires InnerSpaced(a) && InnerSpaced(b)
    ensures InnerSpaced(a + b)
  {
    var t := a + b;
    forall i, j | 0 <= i && j == i + 1 && j < |t| && IsSpace(t[i])
      ensures !IsSpace(t[j])
    {
      if j < |a| {
        assert t[i] == a[i] && t[j] == a[j];
      } else if i >= |a| {
        assert t[i] == b[i - |a|] && t[j] == b[j - |a|];
      } else {
        assert false;
      }
    }
    if b == "" {
      assert t == a;
    } else {
      assert t[|t| - 1] == b[|b| - 1];
    }
  }

  /** A single space in front of text that starts with a non-space character. */
  lemma SpaceBefore(b: string)
    requires InnerSpaced(b) && b != "" && !IsSpace(b[0])
    ensures InnerSpaced(" " + b)
  {
    var t := " " + b;
    forall i, j | 0 <= i && j == i + 1 && j < |t| && IsSpace(t[i])
      ensures !IsSpace(t[j])
    {
      assert t[j] == b[j - 1];
      if i > 0 {
        assert t[i] == b[i - 1];
      }
    }
    assert t[|t| - 1] == b[|b| - 1];
  }

  lemma InnerSpacedSuffix(s: string, k: int)
    requires InnerSpaced(s) && 0 <= k <= |s|
    ensures InnerSpaced(s[k..])
  {
    var t := s[k..];
    forall i, j | 0 <= i && j == i + 1 && j < |t| && IsSpace(t[i])
      ensures !IsSpace(t[j])
    {
      assert t[i] == s[k + i] && t[j] == s[k + j];
    }
    if t != "" {
      assert t[|t| - 1] == s[|s| - 1];
    }
  }

  /** In text spaced between words, a whitespace character is a plain space with a non-space
      character after it. */
  lemma SpaceInside(s: string, i: int)
    requires InnerSpaced(s) && 0 <= i < |s| && IsSpace(s[i])
    ensures s[i] == ' ' && i + 1 < |s| && !IsSpace(s[i + 1])
  {
  }

  /** The leading run of non-whitespace characters. */
  function Word(s: string): (w: string)
    ensures |w| <= |s|
    ensures s != "" && !IsSpace(s[0]) ==> w != ""
  {
    if s == "" || IsSpace(s[0]) then "" else [s[0]] + Word(s[1..])
  }

  /** The word is a prefix of the text and holds no whitespace. */
  lemma {:induction false} WordIsPrefix(s: string)
    ensures Word(s) == s[..|Word(s)|] && NoSpace(Word(s))
  {
    if s != "" && !IsSpace(s[0]) {
      WordIsPrefix(s[1..]);
    }
  }

  /** The word ends at the text's end or at a whitespace character. */
  lemma {:induction false} WordStopsAtSpace(s: string)
    requires |Word(s)| < |s|
    ensures IsSpace(s[|Word(s)|])
  {
    if !IsSpace(s[0]) {
      WordStopsAtSpace(s[1..]);
    }
  }

  predicate IsWord(w: string)
  {
    w != "" && NoSpace(w)
  }

  predicate AllWords(words: seq<string>)
  {
    forall k :: 0 <= k < |words| ==> IsWord(words[k])
  }

  /** `s.split()`: the maximal runs of non-whitespace characters, in order. */
  function Split(s: string): seq<string>
    decreases |s|
  {
    if s == "" then []
    else if IsSpace(s[0]) then Split(s[1..])
    else [Word(s)] + Split(s[|Word(s)|..])
  }

  /** One step of `Split` at a whitespace character. */
  lemma SplitAtSpace(s: string)
    requires s != "" && IsSpace(s[0])
    ensures Split(s) == Split(s[1..])
  {
  }

  /** One step of `Split` at the start of a word. */
  lemma SplitAtWord(s: string)
    requires s != "" && !IsSpace(s[0])
    ensures Split(s) == [Word(s)] + Split(s[|Word(s)|..])
  {
  }

  lemma AllWordsCons(w: string, rest: seq<string>)
    requires IsWord(w) && AllWords(rest)
    ensures AllWords([w] + rest)
  {
  }

  /** Splitting yields non-empty words without whitespace. */
  lemma {:induction false} SplitYieldsWords(s: string)
    ensures AllWords(Split(s))
    decreases |s|
  {
    if s != "" {
      if IsSpace(s[0]) {
        SplitAtSpace(s);
        SplitYieldsWords(s[1..]);
      } else {
        var w := Word(s);
        WordIsPrefix(s);
        SplitAtWord(s);
        SplitYieldsWords(s[|w|..]);
        AllWordsCons(w, Split(s[|w|..]));
      }
    }
  }

  function Concat(words: seq<string>): string
  {
    if words == [] then "" else words[0] + Concat(words[1..])
  }

  lemma ConcatCons(w: string, words: seq<string>)
    ensures Concat([w] + words) == w + Concat(words)
  {
    assert ([w] + words)[1..] == words;
  }

  lemma JoinCons(w: string, words: seq<string>)
    requires words != []
    ensures Join([w] + words, " ") == w + " " + Join(words, " ")
  {
    assert ([w] + words)[1..] == words;
  }

  /** Splitting keeps every non-whitespace character, in order. */
  lemma {:induction false} SplitKeepsText(s: string)
    ensures Concat(Split(s)) == NonSpace(s)
    decreases |s|
  {
    if s != "" {
      if IsSpace(s[0]) {
        SplitAtSpace(s);
        SplitKeepsText(s[1..]);
        assert s == [s[0]] + s[1..];
        NonSpaceCons(s[0], s[1..]);
      } else {
        var w := Word(s);
        var rest := s[|w|..];
        WordIsPrefix(s);
        SplitAtWord(s);
        SplitKeepsText(rest);
        assert s == w + rest;
        NonSpaceAppend(w, rest);
        NonSpaceOfNoSpace(w);
        ConcatCons(w, Split(rest));
      }
    }
  }

  /** Joining words with single spaces keeps exactly their characters. */
  lemma {:induction false} JoinKeepsText(words: seq<string>)
    requires AllWords(words)
    ensures NonSpace(Join(words, " ")) == Concat(words)
  {
    if |words| == 1 {
      NonSpaceOfNoSpace(words[0]);
    } else if |words| > 1 {
      var rest := Join(words[1..], " ");
      assert AllWords(words[1..]) by {
        assert forall k :: 0 <= k < |words[1..]| ==> words[1..][k] == words[k + 1];
      }
      NonSpaceAppend(words[0] + " ", rest);
      NonSpaceAppend(words[0], " ");
      NonSpaceOfNoSpace(words[0]);
      JoinKeepsText(words[1..]);
    }
  }

  /** Joining words with single spaces gives normalized text. */
  lemma {:induction false} JoinIsNormalized(words: seq<string>)
    requires AllWords(words)
    ensures Normalized(Join(words, " "))
    ensures words != [] ==> Join(words, " ") != "" && !IsSpace(Join(words, " ")[0])
  {
    if words != [] {
      var w := words[0];
      assert IsWord(w);
      NoSpaceIsInnerSpaced(w);
      if |words| > 1 {
        var rest := Join(words[1..], " ");
        assert AllWords(words[1..]) by {
          assert forall k :: 0 <= k < |words[1..]| ==> words[1..][k] == words[k + 1];
        }
        JoinIsNormalized(words[1..]);
        SpaceBefore(rest);
        InnerSpacedAppend(w, " " + rest);
        assert w + " " + rest == w + (" " + rest);
      }
    }
  }

  /** A word followed by the end of the text or by whitespace is the text's first word. */
  lemma {:induction false} WordOfWord(w: string, x: string)
    requires NoSpace(w) && (x == "" || IsSpace(x[0]))
    ensures Word(w + x) == w
  {
    if w == "" {
      assert w + x == x;
    } else {
      assert (w + x)[1..] == w[1..] + x;
      WordOfWord(w[1..], x);
    }
  }

  /** Splitting words joined with single spaces gives the words back. */
  lemma {:induction false} SplitJoin(words: seq<string>)
    requires AllWords(words)
    ensures Split(Join(words, " ")) == words
  {
    if |words| == 1 {
      var w := words[0];
      assert IsWord(w);
      WordOfWord(w, "");
      assert w + "" == w;
      SplitAtWord(w);
      assert w[|w|..] == "";
    } else if |words| > 1 {
      var w := words[0];
      var rest := Join(words[1..], " ");
      assert IsWord(w);
      assert AllWords(words[1..]) by {
        assert forall k :: 0 <= k < |words[1..]| ==> words[1..][k] == words[k + 1];
      }
      SplitJoin(words[1..]);
      var t := w + (" " + rest);
      assert Join(words, " ") == t;
      WordOfWord(w, " " + rest);
      SplitAtWord(t);
      assert t[|w|..] == " " + rest;
      SplitAtSpace(" " + rest);
      assert (" " + rest)[1..] == rest;
      assert words == [w] + words[1..];
    }
  }

  /** `' '.join(text.split())`: the same words, separated by single spaces. */
  function Collapse(s: string): (r: string)
    ensures Normalized(r)
    ensures Split(r) == Split(s)
    ensures NonSpace(r) == NonSpace(s)
  {
    var words := Split(s);
    SplitYieldsWords(s);
    JoinIsNormalized(words);
    JoinKeepsText(words);
    SplitKeepsText(s);
    SplitJoin(words);
    Join(words, " ")
  }

  /** After the first word of normalized text come one space and more normalized text. */
  lemma NormalizedAfterWord(s: string, w: string)
    requires Normalized(s) && w == Word(s) && |w| < |s|
    ensures s == w + " " + s[|w| + 1..]
    ensures s[|w|..] != "" && IsSpace(s[|w|..][0]) && s[|w|..][1..] == s[|w| + 1..]
    ensures Normalized(s[|w| + 1..]) && s[|w| + 1..] != ""
  {
    WordIsPrefix(s);
    WordStopsAtSpace(s);
    SpaceInside(s, |w|);
    var rest := s[|w| + 1..];
    InnerSpacedSuffix(s, |w| + 1);
    assert s == w + " " + rest;
  }

  /** Collapsing leaves normalized text alone, so collapsing twice is collapsing once. */
  lemma {:induction false} CollapseFixesNormalized(s: string)
    requires Normalized(s)
    ensures Join(Split(s), " ") == s
    ensures s != "" ==> Split(s) != []
    decreases |s|
  {
    if s != "" {
      var w := Word(s);
      SplitAtWord(s);
      if |w| < |s| {
        NormalizedAfterWord(s, w);
        var rest := s[|w| + 1..];
        SplitAtSpace(s[|w|..]);
        CollapseFixesNormalized(rest);
        JoinCons(w, Split(rest));
      } else {
        WordIsPrefix(s);
        assert s[|w|..] == "";
        assert Split(s) == [w];
      }
    }
  }

  lemma CollapseIdempotent(s: string)
    ensures Collapse(Collapse(s)) == Collapse(s)
  {
    CollapseFixesNormalized(Collapse(s));
  }

  /** The characters the regular expression class `[.,!?]` matches. */
  predicate IsPunctuation(c: char)
  {
    c == '.' || c == ',' || c == '!' || c == '?'
  }

  /** `re.sub(r'([.,!?])(\S)', r'\1 \2', s)`: matches are found left to right without overlap,
      so the character after an inserted space is not itself examined as punctuation. */
  function SpacePunctuation(s: string): (r: string)
    ensures s != "" ==> r != "" && r[0] == s[0]
  {
    if |s| < 2 then s
    else if IsPunctuation(s[0]) && !IsSpace(s[1]) then [s[0], ' ', s[1]] + SpacePunctuation(s[2..])
    else [s[0]] + SpacePunctuation(s[1..])
  }

  lemma NonSpaceCons(c: char, x: string)
    ensures NonSpace([c] + x) == (if IsSpace(c) then "" else [c]) + NonSpace(x)
  {
    assert ([c] + x)[1..] == x;
  }

  /** One step of `SpacePunctuation` at a punctuation mark followed by a non-space character. */
  lemma SpacePunctuationAtMark(s: string)
    requires |s| >= 2 && IsPunctuation(s[0]) && !IsSpace(s[1])
    ensures SpacePunctuation(s) == [s[0]] + (" " + ([s[1]] + SpacePunctuation(s[2..])))
  {
    assert [s[0], ' ', s[1]] + SpacePunctuation(s[2..])
        == [s[0]] + (" " + ([s[1]] + SpacePunctuation(s[2..])));
  }

  /** One step of `SpacePunctuation` anywhere else. */
  lemma SpacePunctuationElsewhere(s: string)
    requires |s| >= 2 && !(IsPunctuation(s[0]) && !IsSpace(s[1]))
    ensures SpacePunctuation(s) == [s[0]] + SpacePunctuation(s[1..])
  {
  }

  /** Inserting those spaces keeps every non-whitespace character, in order. */
  lemma {:induction false} SpacePunctuationText(s: string)
    ensures NonSpace(SpacePunctuation(s)) == NonSpace(s)
  {
    if |s| >= 2 {
      assert s == [s[0]] + s[1..];
      NonSpaceCons(s[0], s[1..]);
      if IsPunctuation(s[0]) && !IsSpace(s[1]) {
        SpacePunctuationAtMark(s);
        var rest := SpacePunctuation(s[2..]);
        SpacePunctuationText(s[2..]);
        assert s[1..] == [s[1]] + s[2..];
        NonSpaceCons(s[1], s[2..]);
        NonSpaceCons(s[1], rest);
        NonSpaceCons(' ', [s[1]] + rest);
        NonSpaceCons(s[0], " " + ([s[1]] + rest));
      } else {
        SpacePunctuationElsewhere(s);
        SpacePunctuationText(s[1..]);
        NonSpaceCons(s[0], SpacePunctuation(s[1..]));
      }
    }
  }

  /** Every punctuation mark directly followed by a non-whitespace character is the second
      character of a match: a mark and a space come before it. */
  ghost predicate MarksSpaced(t: string)
  {
    forall i, j :: 0 <= i && j == i + 1 && j < |t| && IsPunctuation(t[i]) && !IsSpace(t[j]) ==>
      i >= 2 && t[i - 1] == ' ' && IsPunctuation(t[i - 2])
  }

  /** After the substitution, a mark is directly followed by a non-whitespace character only
      where it was the character a match consumed after another mark: matches do not overlap,
      and every other mark is followed by whitespace or ends the text. */
  lemma {:induction false} SpacePunctuationSpacesMarks(s: string)
    ensures MarksSpaced(SpacePunctuation(s))
  {
    var t := SpacePunctuation(s);
    if |s| >= 2 {
      if IsPunctuation(s[0]) && !IsSpace(s[1]) {
        var rest := SpacePunctuation(s[2..]);
        SpacePunctuationSpacesMarks(s[2..]);
        assert t == [s[0], ' ', s[1]] + rest;
        forall i, j | 0 <= i && j == i + 1 && j < |t| && IsPunctuation(t[i]) && !IsSpace(t[j])
          ensures i >= 2 && t[i - 1] == ' ' && IsPunctuation(t[i - 2])
        {
          if i >= 3 {
            assert t[i] == rest[i - 3] && t[j] == rest[j - 3];
            assert t[i - 1] == rest[i - 4] && t[i - 2] == rest[i - 5];
          }
        }
      } else {
        var rest := SpacePunctuation(s[1..]);
        SpacePunctuationSpacesMarks(s[1..]);
        assert t == [s[0]] + rest;
        forall i, j | 0 <= i && j == i + 1 && j < |t| && IsPunctuation(t[i]) && !IsSpace(t[j])
          ensures i >= 2 && t[i - 1] == ' ' && IsPunctuation(t[i - 2])
        {
          assert t[j] == rest[j - 1];
          if i >= 1 {
            assert t[i] == rest[i - 1];
            assert t[i - 1] == rest[i - 2] && t[i - 2] == rest[i - 3];
          }
        }
      }
    }
  }

  /** Text without punctuation marks is left alone. */
  lemma {:induction false} SpacePunctuationNoMark(s: string)
    requires forall i :: 0 <= i < |s| ==> !IsPunctuation(s[i])
    ensures SpacePunctuation(s) == s
  {
    if |s| >= 2 {
      SpacePunctuationNoMark(s[1..]);
      assert s == [s[0]] + s[1..];
    }
  }

  /** No match spans a whitespace character: the substitution works on either side of it
      separately and keeps the character itself. */
  lemma SpacePunctuationAtSpace(a: string, c: char, b: string)
    requires IsSpace(c)
    ensures SpacePunctuation(a + [c] + b) == SpacePunctuation(a) + [c] + SpacePunctuation(b)
  {
    assert a + [c] + b == a + ([c] + b);
    SpacePunctuationBeforeSpace(a, [c] + b);
    SpaceFirst(c, b);
  }

  lemma SpaceFirst(c: char, b: string)
    requires IsSpace(c)
    ensures SpacePunctuation([c] + b) == [c] + SpacePunctuation(b)
  {
    assert ([c] + b)[1..] == b;
    if b != "" {
      SpacePunctuationElsewhere([c] + b);
    }
  }

  /** Text that starts with whitespace cannot complete a match begun before it. */
  lemma {:induction false} SpacePunctuationBeforeSpace(a: string, b: string)
    requires b != "" && IsSpace(b[0])
    ensures SpacePunctuation(a + b) == SpacePunctuation(a) + SpacePunctuation(b)
    decreases |a|
  {
    if a == "" {
      assert a + b == b;
    } else if |a| == 1 {
      BeforeSpaceSingle(a[0], b);
    } else if IsPunctuation(a[0]) && !IsSpace(a[1]) {
      SpacePunctuationBeforeSpace(a[2..], b);
      BeforeSpaceAfterMatch(a, b);
    } else {
      SpacePunctuationBeforeSpace(a[1..], b);
      BeforeSpaceAfterCopy(a, b);
    }
  }

  lemma BeforeSpaceSingle(h: char, b: string)
    requires b != "" && IsSpace(b[0])
    ensures SpacePunctuation([h] + b) == [h] + SpacePunctuation(b)
  {
    var t := [h] + b;
    assert t[0] == h && t[1] == b[0] && t[1..] == b;
    SpacePunctuationElsewhere(t);
  }

  lemma BeforeSpaceAfterMatch(a: string, b: string)
    requires |a| >= 2 && IsPunctuation(a[0]) && !IsSpace(a[1])
    requires SpacePunctuation(a[2..] + b) == SpacePunctuation(a[2..]) + SpacePunctuation(b)
    ensures SpacePunctuation(a + b) == SpacePunctuation(a) + SpacePunctuation(b)
  {
    MatchBeforeAppend(a, b);
  }

  lemma BeforeSpaceAfterCopy(a: string, b: string)
    requires |a| >= 2 && !(IsPunctuation(a[0]) && !IsSpace(a[1]))
    requires SpacePunctuation(a[1..] + b) == SpacePunctuation(a[1..]) + SpacePunctuation(b)
    ensures SpacePunctuation(a + b) == SpacePunctuation(a) + SpacePunctuation(b)
  {
    CopyBeforeAppend(a, b);
    SpacePunctuationElsewhere(a);
  }

  /** A match at the start of `a` is a match at the start of `a + b`. */
  lemma MatchBeforeAppend(a: string, b: string)
    requires |a| >= 2 && IsPunctuation(a[0]) && !IsSpace(a[1])
    ensures SpacePunctuation(a + b) == [a[0], ' ', a[1]] + SpacePunctuation(a[2..] + b)
  {
    var t := a + b;
    assert t[0] == a[0] && t[1] == a[1] && t[2..] == a[2..] + b;
  }

  /** A copied first character of `a` is copied at the start of `a + b`. */
  lemma CopyBeforeAppend(a: string, b: string)
    requires |a| >= 2 && !(IsPunctuation(a[0]) && !IsSpace(a[1]))
    ensures SpacePunctuation(a + b) == [a[0]] + SpacePunctuation(a[1..] + b)
  {
    var t := a + b;
    assert t[0] == a[0] && t[1] == a[1] && t[1..] == a[1..] + b;
  }

  /** Matches never overlap: of two marks in a row, the first gets a space after it and the
      second is consumed by that match, so it gets none even when a non-space character follows;
      matching resumes after it. */
  lemma SpacePunctuationNoOverlap(m: char, n: char, b: string)
    requires IsPunctuation(m) && IsPunctuation(n)
    ensures SpacePunctuation([m, n] + b) == [m, ' ', n] + SpacePunctuation(b)
  {
    assert ([m, n] + b)[2..] == b;
  }

  /** Skipping leading whitespace before or after the substitution gives the same text: leading
      whitespace is never part of a match. */
  lemma {:induction false} TrimStartSpacePunctuation(u: string)
    ensures TrimStart(SpacePunctuation(u)) == SpacePunctuation(TrimStart(u))
  {
    if u != "" && IsSpace(u[0]) {
      assert !IsPunctuation(u[0]);
      if |u| >= 2 {
        SpacePunctuationElsewhere(u);
        TrimStartSpacePunctuation(u[1..]);
        assert ([u[0]] + SpacePunctuation(u[1..]))[1..] == SpacePunctuation(u[1..]);
      }
    }
  }

  /** A character in front of text spaced between words, where a whitespace character must be a
      plain space followed by a non-space character. */
  lemma InnerSpacedCons(c: char, rest: string)
    requires InnerSpaced(rest)
    requires IsSpace(c) ==> c == ' ' && rest != "" && !IsSpace(rest[0])
    ensures InnerSpaced([c] + rest)
  {
    if IsSpace(c) {
      SpaceBefore(rest);
      assert [c] + rest == " " + rest;
    } else {
      NoSpaceIsInnerSpaced([c]);
      InnerSpacedAppend([c], rest);
    }
  }

  /** Inserting those spaces keeps the text spaced between words. */
  lemma {:induction false} SpacePunctuationSpacing(s: string)
    requires InnerSpaced(s)
    ensures InnerSpaced(SpacePunctuation(s))
  {
    if |s| >= 2 {
      InnerSpacedSuffix(s, 1);
      if IsPunctuation(s[0]) && !IsSpace(s[1]) {
        SpacePunctuationAtMark(s);
        var rest := SpacePunctuation(s[2..]);
        InnerSpacedSuffix(s, 2);
        SpacePunctuationSpacing(s[2..]);
        InnerSpacedCons(s[1], rest);
        InnerSpacedCons(' ', [s[1]] + rest);
        InnerSpacedCons(s[0], " " + ([s[1]] + rest));
      } else {
        SpacePunctuationElsewhere(s);
        var rest := SpacePunctuation(s[1..]);
        SpacePunctuationSpacing(s[1..]);
        if IsSpace(s[0]) {
          SpaceInside(s, 0);
        }
        InnerSpacedCons(s[0], rest);
      }
    }
  }

  /** No dollar sign is directly followed by whitespace. */
  ghost predicate DollarsTight(t: string)
  {
    forall i, j :: 0 <= i && j == i + 1 && j < |t| && t[i] == '$' ==> !IsSpace(t[j])
  }

  /** `re.sub(r'(\$)(\s+)', r'\1', s)`: every whitespace run after a dollar sign is removed. */
  function StripAfterDollar(s: string): (r: string)
    ensures s != "" ==> r != "" && r[0] == s[0]
    decreases |s|
  {
    if s == "" then ""
    else if s[0] == '$' then "$" + StripAfterDollar(TrimStart(s[1..]))
    else [s[0]] + StripAfterDollar(s[1..])
  }

  /** What `StripAfterDollar` continues with after the first character. */
  function DollarTail(s: string): (r: string)
    requires s != ""
    ensures |r| < |s|
  {
    if s[0] == '$' then TrimStart(s[1..]) else s[1..]
  }

  lemma StripAfterDollarUnfold(s: string)
    requires s != ""
    ensures StripAfterDollar(s) == [s[0]] + StripAfterDollar(DollarTail(s))
  {
  }

  /** A character in front of text, where a dollar sign is followed by a non-space character. */
  lemma DollarsTightCons(c: char, rest: string)
    requires DollarsTight(rest)
    requires c == '$' && rest != "" ==> !IsSpace(rest[0])
    ensures DollarsTight([c] + rest)
  {
    var t := [c] + rest;
    forall i, j | 0 <= i && j == i + 1 && j < |t| && t[i] == '$'
      ensures !IsSpace(t[j])
    {
      assert t[j] == rest[j - 1];
      if i > 0 {
        assert t[i] == rest[i - 1];
      }
    }
  }

  /** Dropping whitespace after dollar signs leaves none there. */
  lemma {:induction false} StripAfterDollarTight(s: string)
    ensures DollarsTight(StripAfterDollar(s))
    decreases |s|
  {
    if s != "" {
      StripAfterDollarUnfold(s);
      StripAfterDollarTight(DollarTail(s));
      DollarsTightCons(s[0], StripAfterDollar(DollarTail(s)));
    }
  }

  /** Dropping whitespace after dollar signs keeps every other character, in order. */
  lemma {:induction false} StripAfterDollarText(s: string)
    ensures NonSpace(StripAfterDollar(s)) == NonSpace(s)
    decreases |s|
  {
    if s != "" {
      StripAfterDollarUnfold(s);
      StripAfterDollarText(DollarTail(s));
      NonSpaceCons(s[0], StripAfterDollar(DollarTail(s)));
      assert s == [s[0]] + s[1..];
      NonSpaceCons(s[0], s[1..]);
      if s[0] == '$' {
        NonSpaceTrimStart(s[1..]);
      }
    }
  }

  /** Dropping whitespace after dollar signs keeps the text spaced between words. */
  lemma {:induction false} StripAfterDollarSpacing(s: string)
    requires InnerSpaced(s)
    ensures InnerSpaced(StripAfterDollar(s))
    decreases |s|
  {
    if s != "" {
      var tail := DollarTail(s);
      StripAfterDollarUnfold(s);
      InnerSpacedSuffix(s, 1);
      InnerSpacedSuffix(s[1..], |s[1..]| - |tail|);
      StripAfterDollarSpacing(tail);
      if IsSpace(s[0]) {
        SpaceInside(s, 0);
      }
      InnerSpacedCons(s[0], StripAfterDollar(tail));
    }
  }

  /** Skipping leading whitespace distributes over text that ends in a non-space character. */
  lemma {:induction false} TrimStartAppend(x: string, b: string)
    requires x != "" && !IsSpace(x[|x| - 1])
    ensures TrimStart(x + b) == TrimStart(x) + b
  {
    assert (x + b)[0] == x[0];
    if IsSpace(x[0]) {
      assert (x + b)[1..] == x[1..] + b;
      TrimStartAppend(x[1..], b);
    }
  }

  /** The dollar substitution works piece by piece: text ending in a character that is neither a
      dollar sign nor whitespace can be cut off, so whitespace that does not follow a dollar
      sign (through a whitespace run) is kept. */
  lemma {:induction false} StripAfterDollarAppend(a: string, b: string)
    requires a != "" ==> a[|a| - 1] != '$' && !IsSpace(a[|a| - 1])
    ensures StripAfterDollar(a + b) == StripAfterDollar(a) + StripAfterDollar(b)
    decreases |a|
  {
    if a == "" {
      assert a + b == b;
    } else {
      DollarTailAppend(a, b);
      StripAfterDollarUnfold(a + b);
      StripAfterDollarUnfold(a);
      StripAfterDollarAppend(DollarTail(a), b);
    }
  }

  /** Where `StripAfterDollar` continues, for text ending in neither a dollar sign nor whitespace. */
  lemma DollarTailAppend(a: string, b: string)
    requires a != "" && a[|a| - 1] != '$' && !IsSpace(a[|a| - 1])
    ensures (a + b)[0] == a[0] && DollarTail(a + b) == DollarTail(a) + b
    ensures var t := DollarTail(a); t != "" ==> t[|t| - 1] == a[|a| - 1]
  {
    assert (a + b)[1..] == a[1..] + b;
    if a[0] == '$' {
      TrimStartAppend(a[1..], b);
    }
  }

  /** A character other than `$` is copied and the substitution goes on after it. */
  lemma StripCons(c: char, x: string)
    requires c != '$'
    ensures StripAfterDollar([c] + x) == [c] + StripAfterDollar(x)
  {
    StripAfterDollarUnfold([c] + x);
    assert ([c] + x)[1..] == x;
  }

  /** A dollar sign is copied and the whitespace after it dropped. */
  lemma StripDollarCons(x: string)
    ensures StripAfterDollar(['$'] + x) == ['$'] + StripAfterDollar(TrimStart(x))
  {
    StripAfterDollarUnfold(['$'] + x);
    assert (['$'] + x)[1..] == x;
  }

  /** A match of the punctuation rule followed by text whose marks are spaced. */
  lemma MarksSpacedAfterMatch(m: char, c: char, x: string)
    requires IsPunctuation(m) && !IsSpace(c) && MarksSpaced(x)
    ensures MarksSpaced([m, ' ', c] + x)
  {
    var t := [m, ' ', c] + x;
    forall i, j | 0 <= i && j == i + 1 && j < |t| && IsPunctuation(t[i]) && !IsSpace(t[j])
      ensures i >= 2 && t[i - 1] == ' ' && IsPunctuation(t[i - 2])
    {
      if i >= 3 {
        assert t[i] == x[i - 3] && t[j] == x[j - 3];
        assert t[i - 1] == x[i - 4] && t[i - 2] == x[i - 5];
      }
    }
  }

  /** A character in front of text whose marks are spaced, where a mark must be followed by
      whitespace. */
  lemma MarksSpacedCons(c: char, x: string)
    requires MarksSpaced(x)
    requires IsPunctuation(c) && x != "" ==> IsSpace(x[0])
    ensures MarksSpaced([c] + x)
  {
    var t := [c] + x;
    forall i, j | 0 <= i && j == i + 1 && j < |t| && IsPunctuation(t[i]) && !IsSpace(t[j])
      ensures i >= 2 && t[i - 1] == ' ' && IsPunctuation(t[i - 2])
    {
      assert t[j] == x[j - 1];
      if i >= 1 {
        assert t[i] == x[i - 1];
        assert t[i - 1] == x[i - 2] && t[i - 2] == x[i - 3];
      }
    }
  }

  /** Both substitutions in turn, at a match of the punctuation rule: the dollar rule copies the
      match and goes on with the rest, after the whitespace it drops when the match ends in `$`. */
  lemma StripAtMatch(s: string)
    requires |s| >= 2 && IsPunctuation(s[0]) && !IsSpace(s[1])
    ensures var u := if s[1] == '$' then TrimStart(s[2..]) else s[2..];
            StripAfterDollar(SpacePunctuation(s)) == [s[0], ' ', s[1]] + StripAfterDollar(SpacePunctuation(u))
  {
    var rest := SpacePunctuation(s[2..]);
    var u := if s[1] == '$' then TrimStart(s[2..]) else s[2..];
    SpacePunctuationAtMark(s);
    StripCons(s[0], " " + ([s[1]] + rest));
    StripCons(' ', [s[1]] + rest);
    if s[1] == '$' {
      StripDollarCons(rest);
      TrimStartSpacePunctuation(s[2..]);
    } else {
      StripCons(s[1], rest);
    }
    ThreeCons(s[0], ' ', s[1], StripAfterDollar(SpacePunctuation(u)));
  }

  lemma ThreeCons(a: char, b: char, c: char, x: string)
    ensures [a] + ([b] + ([c] + x)) == [a, b, c] + x
  {
  }

  /** Both substitutions in turn, where the punctuation rule copies the first character. */
  lemma StripAtCopy(s: string)
    requires |s| >= 2 && !(IsPunctuation(s[0]) && !IsSpace(s[1]))
    ensures var u := if s[0] == '$' then TrimStart(s[1..]) else s[1..];
            StripAfterDollar(SpacePunctuation(s)) == [s[0]] + StripAfterDollar(SpacePunctuation(u))
  {
    var rest := SpacePunctuation(s[1..]);
    SpacePunctuationElsewhere(s);
    if s[0] == '$' {
      StripDollarCons(rest);
      TrimStartSpacePunctuation(s[1..]);
    } else {
      StripCons(s[0], rest);
    }
  }

  /** The dollar rule keeps what the punctuation rule established: it drops whitespace only
      after a `$`, never after a mark or inside a match. */
  lemma {:induction false} StripKeepsMarksSpaced(s: string)
    ensures MarksSpaced(StripAfterDollar(SpacePunctuation(s)))
    decreases |s|
  {
    if |s| < 2 {
      if s != "" {
        StripAfterDollarUnfold(s);
        assert DollarTail(s) == "";
      }
    } else if IsPunctuation(s[0]) && !IsSpace(s[1]) {
      var u := if s[1] == '$' then TrimStart(s[2..]) else s[2..];
      StripAtMatch(s);
      StripKeepsMarksSpaced(u);
      MarksSpacedAfterMatch(s[0], s[1], StripAfterDollar(SpacePunctuation(u)));
    } else {
      var u := if s[0] == '$' then TrimStart(s[1..]) else s[1..];
      StripAtCopy(s);
      StripKeepsMarksSpaced(u);
      MarksSpacedCons(s[0], StripAfterDollar(SpacePunctuation(u)));
    }
  }

  /** Text without `$` keeps none through a change that keeps its non-whitespace characters. */
  lemma NoDollarKept(s: string, t: string)
    requires NonSpace(t) == NonSpace(s) && '$' !in s
    ensures '$' !in t
  {
    if '$' in t {
      var i :| 0 <= i < |t| && t[i] == '$';
      InNonSpace(t, i);
      FromNonSpace(s, '$');
    }
  }

  /** Without a dollar sign in the input there is none to strip after: formatting is collapsing
      the whitespace and then spacing the punctuation. */
  lemma DollarFreeFormat(text: string)
    ensures var spaced := SpacePunctuation(Collapse(text));
            '$' !in text ==> StripAfterDollar(spaced) == spaced
  {
    if '$' !in text {
      var collapsed := Collapse(text);
      var spaced := SpacePunctuation(collapsed);
      NoDollarKept(text, collapsed);
      SpacePunctuationText(collapsed);
      NoDollarKept(collapsed, spaced);
      StripAfterDollarNoDollar(spaced);
    }
  }

  /** `format_response_text`: the result is normalized text with no whitespace after a dollar
      sign, made of exactly the non-whitespace characters of the input, in order, in which a mark
      is followed by a non-whitespace character only inside a match. Without a dollar sign it is
      the collapsed text with its punctuation spaced. */
  function FormatResponseText(text: string): (r: string)
    ensures Normalized(r) && DollarsTight(r)
    ensures NonSpace(r) == NonSpace(text)
    ensures MarksSpaced(r)
    ensures '$' !in text ==> r == SpacePunctuation(Collapse(text))
  {
    var collapsed := Collapse(text);
    var spaced := SpacePunctuation(collapsed);
    StripKeepsMarksSpaced(collapsed);
    DollarFreeFormat(text);
    SpacePunctuationText(collapsed);
    SpacePunctuationSpacing(collapsed);
    StripAfterDollarTight(spaced);
    StripAfterDollarText(spaced);
    StripAfterDollarSpacing(spaced);
    StripAfterDollar(spaced)
  }
  /** Each word with the punctuation rule applied to it alone. */
  function SpaceEach(words: seq<string>): seq<string>
  {
    seq(|words|, i requires 0 <= i < |words| => SpacePunctuation(words[i]))
  }

  /** On words joined by single spaces, the punctuation rule works word by word and keeps the
      spaces between them. */
  lemma {:induction false} SpacePunctuationJoin(words: seq<string>)
    ensures SpacePunctuation(Join(words, " ")) == Join(SpaceEach(words), " ")
  {
    if |words| >= 2 {
      var rest := words[1..];
      SpacePunctuationJoin(rest);
      SpacePunctuationAtSpace(words[0], ' ', Join(rest, " "));
      assert SpaceEach(words)[1..] == SpaceEach(rest);
    }
  }

  /** Formatting text without `$` gives the input's words, each with its punctuation spaced,
      joined by single spaces: no whitespace between words is lost or added. */
  lemma DollarFreeWords(text: string)
    requires '$' !in text
    ensures FormatResponseText(text) == Join(SpaceEach(Split(text)), " ")
  {
    SpacePunctuationJoin(Split(text));
  }


  /** Text without a dollar sign is left alone. */
  lemma {:induction false} StripAfterDollarNoDollar(s: string)
    requires forall i :: 0 <= i < |s| ==> s[i] != '$'
    ensures StripAfterDollar(s) == s
  {
    if s != "" {
      StripAfterDollarUnfold(s);
      StripAfterDollarNoDollar(s[1..]);
      assert s == [s[0]] + s[1..];
    }
  }

  /** No dollar sign and no punctuation mark. */
  predicate Plain(s: string)
  {
    forall i :: 0 <= i < |s| ==> s[i] != '$' && !IsPunctuation(s[i])
  }

  /** A non-whitespace character of `s` is among `NonSpace(s)`. */
  lemma {:induction false} InNonSpace(s: string, i: int)
    requires 0 <= i < |s| && !IsSpace(s[i])
    ensures s[i] in NonSpace(s)
  {
    if i > 0 {
      InNonSpace(s[1..], i - 1);
    }
  }

  /** Every character of `NonSpace(s)` comes from `s`. */
  lemma {:induction false} FromNonSpace(s: string, c: char)
    requires c in NonSpace(s)
    ensures c in s
  {
    if s != "" && c != s[0] {
      FromNonSpace(s[1..], c);
    }
  }

  /** Collapsing plain text gives plain text: it adds only plain spaces. */
  lemma CollapsePlain(s: string)
    requires Plain(s)
    ensures Plain(Collapse(s))
  {
    var r := Collapse(s);
    forall i | 0 <= i < |r|
      ensures r[i] != '$' && !IsPunctuation(r[i])
    {
      if !IsSpace(r[i]) {
        InNonSpace(r, i);
        FromNonSpace(s, r[i]);
      }
    }
  }

  /** On text without dollar signs and punctuation, formatting only collapses whitespace: the
      result is the input's words joined by single spaces, and splitting it again gives the
      input's words. */
  lemma FormatPlainText(text: string)
    requires Plain(text)
    ensures FormatResponseText(text) == Join(Split(text), " ")
    ensures Split(FormatResponseText(text)) == Split(text)
  {
    var r := Collapse(text);
    CollapsePlain(text);
    SpacePunctuationNoMark(r);
    StripAfterDollarNoDollar(r);
  }

  lemma CollapseExample()
    ensures Collapse("a.,b") == "a.,b"
  {
    var s := "a.,b";
    assert NoSpace(s);
    NoSpaceIsInnerSpaced(s);
    CollapseFixesNormalized(s);
  }

  lemma SpacePunctuationExample()
    ensures SpacePunctuation("a.,b") == "a. ,b"
  {
    var s := "a.,b";
    SpacePunctuationElsewhere(s);
    SpacePunctuationAtMark(s[1..]);
    assert s[1..][2..] == "b";
  }

  /** Matches do not overlap: in `a.,b` only the full stop gets a space after it. */
  lemma PunctuationExample()
    ensures FormatResponseText("a.,b") == "a. ,b"
  {
    CollapseExample();
    SpacePunctuationExample();
    StripAfterDollarNoDollar("a. ,b");
  }
}
