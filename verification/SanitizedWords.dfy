/** Sanitizing a text keeps its words: what blanks separate, but for the hyphens and the
    letter case of marker words.
 */
module SanitizedWords {
  import opened Text

  /** A character as words are compared: in lower case, and no hyphen. */
  function Letter(c: char): string {
    if c == '-' then "" else [Lower(c)]
  }

  predicate Starts(s: string) {
    s != "" && IsSolid(s[0])
  }

  /** The words, in order; spaces and control characters separate them. */
  function Words(s: string): (r: seq<string>)
    ensures Starts(s) ==> r != []
  {
    if s == "" then []
    else if !IsSolid(s[0]) then Words(s[1..])
    else
      var rest := Words(s[1..]);
      if Starts(s[1..]) then [Letter(s[0]) + rest[0]] + rest[1..] else [Letter(s[0])] + rest
  }

  predicate SameWords(s: string, t: string) {
    Words(s) == Words(t) && (Starts(s) <==> Starts(t))
  }

  lemma SameFront(c: char, s: string, t: string)
    requires SameWords(s, t)
    ensures SameWords([c] + s, [c] + t)
  {
    assert ([c] + s)[1..] == s && ([c] + t)[1..] == t;
  }

  lemma GapInFront(c: char, s: string)
    requires !IsSolid(c)
    ensures Words([c] + s) == Words(s) && !Starts([c] + s)
  {
    assert ([c] + s)[1..] == s;
  }

  function Letters(a: string): string {
    if a == "" then "" else Letter(a[0]) + Letters(a[1..])
  }

  /** Letters before a list of words: a longer first one, or one more. */
  function Before(letters: string, words: seq<string>, join: bool): seq<string>
    requires join ==> words != []
  {
    if join then [letters + words[0]] + words[1..] else [letters] + words
  }

  lemma BeforeTwice(a: string, b: string, words: seq<string>, join: bool)
    requires join ==> words != []
    ensures Before(a, Before(b, words, join), true) == Before(a + b, words, join)
  {
    if join {
      assert a + (b + words[0]) == a + b + words[0];
    }
  }

  lemma OneInFront(c: char, s: string)
    requires IsSolid(c)
    ensures Starts([c] + s) && Words([c] + s) == Before(Letter(c), Words(s), Starts(s))
  {
    assert ([c] + s)[1..] == s;
  }

  /** A run of solid characters before a text. */
  lemma {:induction false} RunInFront(a: string, s: string)
    requires a != "" && forall i :: 0 <= i < |a| ==> IsSolid(a[i])
    ensures Starts(a + s) && Words(a + s) == Before(Letters(a), Words(s), Starts(s))
  {
    OneInFront(a[0], a[1..] + s);
    assert a + s == [a[0]] + (a[1..] + s);
    if |a| > 1 {
      RunInFront(a[1..], s);
      BeforeTwice(Letter(a[0]), Letters(a[1..]), Words(s), Starts(s));
    } else {
      assert a[1..] + s == s;
      assert Letters(a) == Letter(a[0]);
    }
  }

  lemma {:induction false} SkippingKeepsWords(s: string)
    ensures Words(SkipControls(s)) == Words(s)
  {
    if s != "" && IsControl(s[0]) {
      SkippingKeepsWords(s[1..]);
    }
  }

  lemma {:induction false} FlatteningKeepsWords(s: string)
    ensures SameWords(FlattenControls(s), s)
    decreases |s|
  {
    if s != "" {
      assert s == [s[0]] + s[1..];
      if IsControl(s[0]) {
        var rest := FlattenControls(SkipControls(s[1..]));
        FlatteningKeepsWords(SkipControls(s[1..]));
        SkippingKeepsWords(s[1..]);
        assert " " == [' '];
        GapInFront(' ', rest);
        GapInFront(s[0], s[1..]);
      } else {
        FlatteningKeepsWords(s[1..]);
        SameFront(s[0], FlattenControls(s[1..]), s[1..]);
      }
    }
  }

  lemma {:induction false} LettersOfTwo(a: string, b: string)
    ensures Letters(a + b) == Letters(a) + Letters(b)
  {
    if a == "" {
      assert a + b == b;
    } else {
      assert (a + b)[0] == a[0] && (a + b)[1..] == a[1..] + b;
      LettersOfTwo(a[1..], b);
    }
  }

  lemma {:induction false} LettersInAnyCase(a: string, b: string)
    requires |a| == |b| && forall i :: 0 <= i < |a| ==> Lower(a[i]) == Lower(b[i]) && (a[i] == '-' <==> b[i] == '-')
    ensures Letters(a) == Letters(b)
  {
    if a != "" {
      LettersInAnyCase(a[1..], b[1..]);
    }
  }

  lemma LoweredLetters(a: string)
    requires '-' !in a
    ensures Letters(LowerAll(a)) == Letters(a)
  {
    forall i | 0 <= i < |a| ensures Lower(LowerAll(a)[i]) == Lower(a[i]) && LowerAll(a)[i] != '-' {
      assert a[i] in a;
    }
    LettersInAnyCase(LowerAll(a), a);
  }

  lemma FirstFour(w: string, word: string)
    requires IsMarker(word) && |w| == |word| && Begins(w, word)
    ensures '-' !in w && Letters(w[..4]) == Letters("bmac")
  {
    MarkerSpelling(word);
    forall i | 0 <= i < |w| ensures w[i] != '-' && Lower(w[i]) == word[i] {
      assert word[i] in word;
    }
    var bmac := word[..4];
    assert forall i :: 0 <= i < 4 ==> Lower(bmac[i]) == bmac[i] && bmac[i] in word;
    LettersInAnyCase(w[..4], bmac);
  }

  lemma MarkerSpelling(word: string)
    requires IsMarker(word)
    ensures |word| >= 4 && word[..4] == "bmac" && '-' !in word
    ensures forall i :: 0 <= i < 4 ==> Lower(word[i]) == word[i]
  {
    if word == EVENT {
      assert '-' !in EVENT;
    } else if word == CLEAR {
      assert '-' !in CLEAR;
    }
  }

  /** A marker word and its broken form have the same letters. */
  lemma BrokenLetters(w: string, word: string)
    requires IsMarker(word) && |w| == |word| && Begins(w, word)
    ensures Letters("bmac" + ['-'] + LowerAll(w[4..])) == Letters(w)
  {
    FirstFour(w, word);
    LoweredLetters(w[4..]);
    LettersOfTwo(w[..4], w[4..]);
    assert w == w[..4] + w[4..];
    LettersOfTwo("bmac" + ['-'], LowerAll(w[4..]));
    LettersOfTwo("bmac", ['-']);
    assert ['-'][1..] == "";
    assert Letters("bmac" + ['-']) == Letters("bmac");
  }

  lemma MarkerAt(s: string) returns (word: string)
    requires MarkerLength(s) > 0
    ensures IsMarker(word) && |word| == MarkerLength(s) && Begins(s[..|word|], word)
  {
    word := if Begins(s, EVENT) then EVENT else if Begins(s, CLEAR) then CLEAR else if Begins(s, P1) then P1 else P2;
    BeginsAlone(s, word);
  }

  lemma BeginsAlone(s: string, word: string)
    requires Begins(s, word)
    ensures Begins(s[..|word|], word)
  {
    assert forall i :: 0 <= i < |word| ==> s[..|word|][i] == s[i];
  }

  /** A broken marker word before a text that has the same words. */
  lemma BrokenInFront(w: string, word: string, s: string, rest: string)
    requires IsMarker(word) && |w| == |word| && Begins(w, word) && SameWords(rest, s)
    requires forall i :: 0 <= i < |w| ==> IsSolid(w[i]) && IsSolid(Lower(w[i]))
    ensures SameWords("bmac" + ['-'] + LowerAll(w[4..]) + rest, w + s)
  {
    MarkerSpelling(word);
    BrokenLetters(w, word);
    BrokenWordIsSolid(w);
    RunInFront("bmac" + ['-'] + LowerAll(w[4..]), rest);
    RunInFront(w, s);
  }

  lemma BreakingAt(s: string, n: nat)
    requires s != "" && n == MarkerLength(s) > 0
    ensures BreakMarkers(s) == "bmac" + ['-'] + LowerAll(s[..n][4..]) + BreakMarkers(s[n..])
  {
    assert s[..n][4..] == s[4..n];
    var front, middle, rest := "bmac" + ['-'], LowerAll(s[4..n]), BreakMarkers(s[n..]);
    assert front + (middle + rest) == front + middle + rest;
  }

  lemma CutAt(s: string, n: nat)
    requires n <= |s|
    ensures s[..n] + s[n..] == s
  {
  }

  lemma {:induction false} BreakingKeepsWords(s: string)
    ensures SameWords(BreakMarkers(s), s)
    decreases |s|
  {
    if s != "" {
      var n := MarkerLength(s);
      if n > 0 {
        var w, rest := s[..n], BreakMarkers(s[n..]);
        BreakingKeepsWords(s[n..]);
        MarkersAreSolid(s);
        var word := MarkerAt(s);
        BrokenInFront(w, word, s[n..], rest);
        BreakingAt(s, n);
        CutAt(s, n);
      } else {
        BreakingKeepsWords(s[1..]);
        SameFront(s[0], BreakMarkers(s[1..]), s[1..]);
        assert s == [s[0]] + s[1..];
      }
    }
  }

  lemma {:induction false} CollapsingKeepsWords(s: string)
    ensures SameWords(CollapseSpaces(s), s)
  {
    if |s| >= 2 {
      CollapsingKeepsWords(s[1..]);
      assert s == [s[0]] + s[1..];
      if s[0] == ' ' && s[1] == ' ' {
        GapInFront(' ', s[1..]);
      } else {
        SameFront(s[0], CollapseSpaces(s[1..]), s[1..]);
      }
    }
  }

  lemma {:induction false} StrippingLeftKeepsWords(s: string)
    ensures Words(StripLeft(s)) == Words(s)
  {
    if s != "" && IsSpace(s[0]) {
      StrippingLeftKeepsWords(s[1..]);
    }
  }

  lemma {:induction false} GapBehind(s: string, c: char)
    requires !IsSolid(c)
    ensures Words(s + [c]) == Words(s)
  {
    if s == "" {
      assert s + [c] == [c] && [c][1..] == "";
    } else {
      assert (s + [c])[0] == s[0] && (s + [c])[1..] == s[1..] + [c];
      GapBehind(s[1..], c);
    }
  }

  lemma {:induction false} StrippingRightKeepsWords(s: string)
    ensures Words(StripRight(s)) == Words(s)
  {
    if s != "" && IsSpace(s[|s| - 1]) {
      StrippingRightKeepsWords(s[..|s| - 1]);
      GapBehind(s[..|s| - 1], s[|s| - 1]);
      assert s == s[..|s| - 1] + [s[|s| - 1]];
    }
  }

  lemma TidyingKeepsWords(s: string)
    ensures Words(Tidy(s)) == Words(s)
  {
    var a := FlattenControls(s);
    var b := BreakMarkers(a);
    var c := CollapseSpaces(b);
    FlatteningKeepsWords(s);
    BreakingKeepsWords(a);
    CollapsingKeepsWords(b);
    StrippingLeftKeepsWords(c);
    StrippingRightKeepsWords(StripLeft(c));
  }

  /** The tidy text has the same words. It is the result if it has at most 300
      characters; of a longer one the words of its first 297 are left, and dots. */
  lemma SanitizingKeepsTheWords(s: string)
    ensures Words(Tidy(s)) == Words(s)
    ensures |Tidy(s)| <= 300 ==> Sanitize(s) == Tidy(s)
    ensures |Tidy(s)| > 300 ==> exists kept :: Sanitize(s) == kept + "..." && Words(kept) == Words(Tidy(s)[..297])
  {
    TidyingKeepsWords(s);
    if |Tidy(s)| > 300 {
      StrippingRightKeepsWords(Tidy(s)[..297]);
    }
  }
}
