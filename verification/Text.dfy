/** Message sanitizing in the monitor agent
    (scripts/host_runtime/app_ha_monitor.py, sanitize and its token pattern).

    Mail filters act on plain marker words, so no name or message may spell one.
    Strings are sequences of Unicode characters, as in Python.
 */
module Text {

  const MESSAGE_LIMIT := 300
  const EVENT := "bmacevent"
  const CLEAR := "bmacclear"
  const P1 := "bmacp1"
  const P2 := "bmacp2"

  // Marker words --------------------------------------------------------------

  /** Case folding of the letters that occur in marker words. */
  function Lower(c: char): char {
    if 'A' <= c <= 'Z' then (c as int + 32) as char else c
  }

  function LowerAll(s: string): (r: string)
    ensures |r| == |s| && forall i :: 0 <= i < |s| ==> r[i] == Lower(s[i])
  {
    seq(|s|, i requires 0 <= i < |s| => Lower(s[i]))
  }

  /** The word begins s, in any letter case. */
  predicate Begins(s: string, word: string) {
    |word| <= |s| && forall i :: 0 <= i < |word| ==> Lower(s[i]) == word[i]
  }

  /** The length of the marker word that begins s, or 0. */
  function MarkerLength(s: string): (n: nat)
    ensures n <= |s| && (n == 0 || n >= |P1|)
  {
    if Begins(s, EVENT) then |EVENT|
    else if Begins(s, CLEAR) then |CLEAR|
    else if Begins(s, P1) then |P1|
    else if Begins(s, P2) then |P2|
    else 0
  }

  predicate IsMarker(word: string) {
    word == EVENT || word == CLEAR || word == P1 || word == P2
  }

  /** No marker word occurs anywhere in s, in any letter case. */
  ghost predicate MarkerFree(s: string) {
    forall i, w :: 0 <= i <= |s| && IsMarker(w) ==> !Begins(s[i..], w)
  }

  /** The same, character by character. */
  predicate Unmarked(s: string) {
    s == "" || (MarkerLength(s) == 0 && Unmarked(s[1..]))
  }

  lemma {:induction false} UnmarkedMeans(s: string)
    ensures Unmarked(s) <==> MarkerFree(s)
  {
    if s != "" {
      UnmarkedMeans(s[1..]);
      forall i, w | 1 <= i <= |s| ensures Begins(s[i..], w) <==> Begins(s[1..][i - 1..], w) {
        assert s[i..] == s[1..][i - 1..];
      }
      assert s[0..] == s;
      if Unmarked(s) {
        forall i, w | 0 <= i <= |s| && IsMarker(w) ensures !Begins(s[i..], w) {
        }
      } else if MarkerLength(s) > 0 {
        var w :| IsMarker(w) && Begins(s, w);
        assert Begins(s[0..], w);
      } else {
        var i, w :| 0 <= i <= |s[1..]| && IsMarker(w) && Begins(s[1..][i..], w);
        assert Begins(s[i + 1..], w) && i + 1 <= |s|;
      }
    }
  }

  /** No marker word contains a character of this kind. */
  predicate Separates(c: char) {
    Lower(c) !in "bmacevntlrp12"
  }

  lemma MarkerLetters(w: string)
    requires IsMarker(w)
    ensures |w| >= |P1| && w[0] == 'b' && w[1] == 'm'
    ensures forall k :: 1 <= k < |w| ==> w[k] != 'b'
    ensures forall k :: 0 <= k < |w| ==> w[k] in "bmacevntlrp12" && w[k] != ' '
  {
  }

  lemma WordStopsAt(a: string, c: char, b: string, w: string)
    requires forall k :: 0 <= k < |w| ==> w[k] != Lower(c)
    ensures Begins(a + [c] + b, w) <==> Begins(a, w)
  {
    var s := a + [c] + b;
    assert s[|a|] == c && forall i :: 0 <= i < |a| ==> s[i] == a[i];
    if |a| < |w| {
      assert w[|a|] != Lower(c);
    }
  }

  /** A word that begins a text does not reach past a separator. */
  lemma MarkersStopAt(a: string, c: char, b: string)
    requires Separates(c)
    ensures MarkerLength(a + [c] + b) == MarkerLength(a)
  {
    forall w | IsMarker(w) ensures Begins(a + [c] + b, w) <==> Begins(a, w) {
      MarkerLetters(w);
      WordStopsAt(a, c, b, w);
    }
  }

  lemma {:induction false} UnmarkedJoin(a: string, c: char, b: string)
    requires Unmarked(a) && Unmarked(b) && Separates(c)
    ensures Unmarked(a + [c] + b)
  {
    var s := a + [c] + b;
    MarkersStopAt(a, c, b);
    if a == "" {
      assert s[1..] == b;
    } else {
      UnmarkedJoin(a[1..], c, b);
      assert s[1..] == a[1..] + [c] + b;
    }
  }

  lemma {:induction false} UnmarkedSuffix(s: string, i: nat)
    requires i <= |s| && Unmarked(s)
    ensures Unmarked(s[i..])
  {
    if i > 0 {
      UnmarkedSuffix(s[1..], i - 1);
      assert s[1..][i - 1..] == s[i..];
    }
  }

  lemma {:induction false} UnmarkedPrefix(s: string, j: nat)
    requires j <= |s| && Unmarked(s)
    ensures Unmarked(s[..j])
  {
    if j > 0 {
      UnmarkedPrefix(s[1..], j - 1);
      assert s[..j][1..] == s[1..][..j - 1];
      assert forall w :: Begins(s[..j], w) ==> Begins(s, w);
    }
  }

  lemma {:induction false} ShortIsUnmarked(s: string)
    requires |s| < |P1|
    ensures Unmarked(s)
  {
    if s != "" {
      ShortIsUnmarked(s[1..]);
    }
  }

  /** A text without the letter every marker word begins with. */
  lemma {:induction false} NoBIsUnmarked(g: string, s: string)
    requires Unmarked(s) && forall i :: 0 <= i < |g| ==> Lower(g[i]) != 'b'
    ensures Unmarked(g + s)
  {
    if g == "" {
      assert g + s == s;
    } else {
      NoBIsUnmarked(g[1..], s);
      assert (g + s)[1..] == g[1..] + s;
      assert Lower((g + s)[0]) != 'b';
    }
  }

  // Sanitizing ----------------------------------------------------------------

  predicate IsControl(c: char) {
    c as int < 0x20 || c as int == 0x7F
  }

  function SkipControls(s: string): (r: string)
    ensures |r| <= |s|
  {
    if s != "" && IsControl(s[0]) then SkipControls(s[1..]) else s
  }

  /** Each run of control characters becomes one space. */
  function FlattenControls(s: string): string
    decreases |s|
  {
    if s == "" then ""
    else if IsControl(s[0]) then " " + FlattenControls(SkipControls(s[1..]))
    else [s[0]] + FlattenControls(s[1..])
  }

  /** Each marker word gets a hyphen after its first four letters. */
  function BreakMarkers(s: string): string
    decreases |s|
  {
    if s == "" then "" else
      var n := MarkerLength(s);
      if n > 0 then "bmac" + ['-'] + (LowerAll(s[4..n]) + BreakMarkers(s[n..]))
      else [s[0]] + BreakMarkers(s[1..])
  }

  /** Each run of spaces becomes one. */
  function CollapseSpaces(s: string): string {
    if |s| < 2 then s
    else if s[0] == ' ' && s[1] == ' ' then CollapseSpaces(s[1..])
    else [s[0]] + CollapseSpaces(s[1..])
  }

  /** What Python's str.strip removes. */
  predicate IsSpace(c: char) {
    var n := c as int;
    || 0x09 <= n <= 0x0D || 0x1C <= n <= 0x20 || n == 0x85 || n == 0xA0 || n == 0x1680
    || 0x2000 <= n <= 0x200A || n == 0x2028 || n == 0x2029 || n == 0x202F || n == 0x205F || n == 0x3000
  }

  function StripLeft(s: string): string {
    if s != "" && IsSpace(s[0]) then StripLeft(s[1..]) else s
  }

  function StripRight(s: string): string {
    if s != "" && IsSpace(s[|s| - 1]) then StripRight(s[..|s| - 1]) else s
  }

  function Truncate(s: string): string {
    if |s| > MESSAGE_LIMIT then StripRight(s[..MESSAGE_LIMIT - 3]) + "..." else s
  }

  /** What sanitize makes of a text before it is cut to its length. */
  function Tidy(s: string): string {
    StripRight(StripLeft(CollapseSpaces(BreakMarkers(FlattenControls(s)))))
  }

  function Sanitize(s: string): string {
    Truncate(Tidy(s))
  }

  // What a sanitized text is ----------------------------------------------------

  predicate NoControls(s: string) {
    forall i :: 0 <= i < |s| ==> !IsControl(s[i])
  }

  predicate NoDoubleSpace(s: string) {
    forall i :: 0 <= i < |s| - 1 ==> !(s[i] == ' ' && s[i + 1] == ' ')
  }

  predicate Stripped(s: string) {
    s == "" || (!IsSpace(s[0]) && !IsSpace(s[|s| - 1]))
  }

  /** A bounded text without controls, marker words, edge spaces or double spaces. */
  ghost predicate Clean(s: string) {
    NoControls(s) && MarkerFree(s) && NoDoubleSpace(s) && Stripped(s) && |s| <= MESSAGE_LIMIT
  }

  /** Sanitize always gives a clean text, and leaves exactly the clean texts alone;
      so it is idempotent. What it gives is one line exactly unless U+0085, U+2028 or
      U+2029 stands between two solid characters of the part that it keeps. */
  lemma SanitizeCleans(s: string)
    ensures Clean(Sanitize(s))
    ensures Clean(s) <==> Sanitize(s) == s
    ensures Sanitize(Sanitize(s)) == Sanitize(s)
    ensures OneLine(Sanitize(s)) <==> !Splits(KeptPart(s))
  {
    OneLineIff(s);
    SanitizeIsClean(s);
    CleanIsLeftAlone(Sanitize(s));
    if Clean(s) {
      CleanIsLeftAlone(s);
    }
  }

  lemma SanitizeIsClean(s: string)
    ensures Clean(Sanitize(s))
  {
    TidyIsBounded(s);
    TruncatedIsClean(Tidy(s));
  }

  predicate Bounded(s: string) {
    NoControls(s) && Unmarked(s) && NoDoubleSpace(s)
  }

  lemma SliceIsBounded(s: string, i: nat, j: nat)
    requires i <= j <= |s| && Bounded(s)
    ensures Bounded(s[i..j])
  {
    UnmarkedPrefix(s, j);
    UnmarkedSuffix(s[..j], i);
    assert s[..j][i..] == s[i..j];
  }

  lemma StrippingKeeps(c: string)
    requires Bounded(c)
    ensures Bounded(StripRight(StripLeft(c))) && Stripped(StripRight(StripLeft(c)))
  {
    var d := StripLeft(c);
    StripLeftIsSuffix(c);
    SliceIsBounded(c, |c| - |d|, |c|);
    assert c[|c| - |d|..|c|] == d;
    var e := StripRight(d);
    StripRightIsPrefix(d);
    SliceIsBounded(d, 0, |e|);
    assert d[0..|e|] == e;
  }

  lemma TruncatedIsClean(e: string)
    requires Bounded(e) && Stripped(e)
    ensures Clean(Truncate(e))
  {
    UnmarkedMeans(Truncate(e));
    if |e| > MESSAGE_LIMIT {
      var cut := e[..MESSAGE_LIMIT - 3];
      var f := StripRight(cut);
      StripRightIsPrefix(cut);
      SliceIsBounded(e, 0, |f|);
      assert e[0..|f|] == f;
      DottedIsBounded(f);
    }
  }

  lemma DottedIsBounded(f: string)
    requires Bounded(f)
    ensures Bounded(f + "...")
  {
    assert f + "..." == f + ['.'] + "..";
    ShortIsUnmarked("..");
    UnmarkedJoin(f, '.', "..");
  }

  lemma CleanIsLeftAlone(s: string)
    requires Clean(s)
    ensures Sanitize(s) == s
  {
    UnmarkedMeans(s);
    WithoutControls(s);
    WithoutMarkers(s);
    WithoutDoubleSpaces(s);
  }

  lemma {:induction false} SkipIsSuffix(s: string)
    ensures |SkipControls(s)| <= |s| && SkipControls(s) == s[|s| - |SkipControls(s)|..]
  {
    if s != "" && IsControl(s[0]) {
      SkipIsSuffix(s[1..]);
    }
  }

  lemma {:induction false} FlattenedHasNoControls(s: string)
    ensures NoControls(FlattenControls(s))
    decreases |s|
  {
    if s != "" {
      if IsControl(s[0]) {
        FlattenedHasNoControls(SkipControls(s[1..]));
      } else {
        FlattenedHasNoControls(s[1..]);
      }
    }
  }

  lemma NoControlsJoin(a: string, b: string)
    requires NoControls(a) && NoControls(b)
    ensures NoControls(a + b)
  {
  }

  lemma BrokenWordHasNoControls(w: string, rest: string)
    requires NoControls(w) && NoControls(rest)
    ensures NoControls("bmac" + ['-'] + (LowerAll(w) + rest))
  {
    NoControlsJoin(LowerAll(w), rest);
    NoControlsJoin("bmac" + ['-'], LowerAll(w) + rest);
  }

  lemma {:induction false} BreakingAddsNoControls(s: string)
    requires NoControls(s)
    ensures NoControls(BreakMarkers(s))
    decreases |s|
  {
    if s != "" {
      var n := MarkerLength(s);
      if n > 0 {
        assert NoControls(s[n..]) && NoControls(s[4..n]);
        BreakingAddsNoControls(s[n..]);
        BrokenWordHasNoControls(s[4..n], BreakMarkers(s[n..]));
      } else {
        BreakingAddsNoControls(s[1..]);
        NoControlsJoin([s[0]], BreakMarkers(s[1..]));
      }
    }
  }

  /** The length of s up to the first character that folds to stop. */
  function UpTo(s: string, stop: char): (n: nat)
    ensures n <= |s|
  {
    if s == "" || Lower(s[0]) == stop then 0 else 1 + UpTo(s[1..], stop)
  }

  lemma {:induction false} UpToPassesOthers(s: string, stop: char, n: nat)
    requires n <= |s| && forall k :: 0 <= k < n ==> Lower(s[k]) != stop
    ensures n <= UpTo(s, stop)
  {
    if n > 0 {
      UpToPassesOthers(s[1..], stop, n - 1);
    }
  }

  /** The rewritten text is the text itself up to the first stop. */
  predicate SameUpTo(rewritten: string, s: string, stop: char) {
    var n := UpTo(rewritten, stop);
    n <= |s| && rewritten[..n] == s[..n]
  }

  lemma SameUpToExtends(c: char, rewritten: string, s: string, stop: char)
    requires SameUpTo(rewritten, s, stop)
    ensures SameUpTo([c] + rewritten, [c] + s, stop)
  {
    assert ([c] + rewritten)[1..] == rewritten;
    var n := UpTo(rewritten, stop);
    if Lower(c) != stop {
      assert ([c] + rewritten)[..n + 1] == [c] + rewritten[..n] == [c] + s[..n] == ([c] + s)[..n + 1];
    }
  }

  lemma NoNewWord(c: char, rest: string, tail: string, stop: char, w: string)
    requires SameUpTo(rest, tail, stop)
    requires forall k :: 1 <= k < |w| ==> w[k] != stop
    requires w != "" && !Begins([c] + tail, w)
    ensures !Begins([c] + rest, w)
  {
    var r, s := [c] + rest, [c] + tail;
    if Begins(r, w) {
      var m := |w| - 1;
      assert forall k :: 0 <= k < m ==> rest[k] == r[k + 1];
      UpToPassesOthers(rest, stop, m);
      var n := UpTo(rest, stop);
      forall k | 0 <= k < |w| ensures r[k] == s[k] {
        if k > 0 {
          assert r[k] == rest[..n][k - 1] == tail[..n][k - 1] == s[k];
        }
      }
      assert Begins(s, w);
    }
  }

  /** A character in front of a rewritten rest makes no marker word, when the rest
      is as it was up to a character that only begins or never occurs in one. */
  lemma NoNewMarker(s: string, rest: string, stop: char)
    requires s != "" && MarkerLength(s) == 0 && (stop == 'b' || stop == ' ')
    requires SameUpTo(rest, s[1..], stop)
    ensures MarkerLength([s[0]] + rest) == 0
  {
    assert s == [s[0]] + s[1..];
    forall w | IsMarker(w) ensures !Begins([s[0]] + rest, w) {
      MarkerLetters(w);
      NoNewWord(s[0], rest, s[1..], stop, w);
    }
  }

  lemma {:induction false} SameUpToB(s: string)
    ensures SameUpTo(BreakMarkers(s), s, 'b')
  {
    if s != "" {
      if MarkerLength(s) == 0 {
        SameUpToB(s[1..]);
        SameUpToExtends(s[0], BreakMarkers(s[1..]), s[1..], 'b');
        assert s == [s[0]] + s[1..];
      } else {
        assert BreakMarkers(s)[0] == 'b';
      }
    }
  }

  lemma {:induction false} BrokenIsUnmarked(s: string)
    ensures Unmarked(BreakMarkers(s))
    decreases |s|
  {
    if s != "" {
      var n := MarkerLength(s);
      if n > 0 {
        BrokenIsUnmarked(s[n..]);
        NoBIsUnmarked(LowerAll(s[4..n]), BreakMarkers(s[n..]));
        ShortIsUnmarked("bmac");
        UnmarkedJoin("bmac", '-', LowerAll(s[4..n]) + BreakMarkers(s[n..]));
      } else {
        BrokenIsUnmarked(s[1..]);
        SameUpToB(s[1..]);
        NoNewMarker(s, BreakMarkers(s[1..]), 'b');
        assert BreakMarkers(s)[1..] == BreakMarkers(s[1..]);
      }
    }
  }

  lemma {:induction false} CollapseKeepsHead(s: string)
    ensures s != "" ==> CollapseSpaces(s) != "" && CollapseSpaces(s)[0] == s[0]
  {
    if |s| >= 2 && s[0] == ' ' && s[1] == ' ' {
      CollapseKeepsHead(s[1..]);
    }
  }

  lemma {:induction false} SameUpToSpace(s: string)
    ensures SameUpTo(CollapseSpaces(s), s, ' ')
  {
    if |s| >= 2 {
      CollapseKeepsHead(s);
      if s[0] != ' ' {
        SameUpToSpace(s[1..]);
        SameUpToExtends(s[0], CollapseSpaces(s[1..]), s[1..], ' ');
        assert s == [s[0]] + s[1..];
      }
    } else {
      assert s[..UpTo(s, ' ')] == s[..UpTo(s, ' ')];
    }
  }

  lemma {:induction false} CollapsingKeeps(s: string)
    requires Unmarked(s) && NoControls(s)
    ensures Bounded(CollapseSpaces(s))
  {
    if |s| >= 2 {
      CollapsingKeeps(s[1..]);
      CollapseKeepsHead(s[1..]);
      if !(s[0] == ' ' && s[1] == ' ') {
        SameUpToSpace(s[1..]);
        NoNewMarker(s, CollapseSpaces(s[1..]), ' ');
        assert CollapseSpaces(s)[1..] == CollapseSpaces(s[1..]);
      }
    }
  }

  lemma {:induction false} StripLeftIsSuffix(s: string)
    ensures |StripLeft(s)| <= |s| && StripLeft(s) == s[|s| - |StripLeft(s)|..]
    ensures StripLeft(s) != "" ==> !IsSpace(StripLeft(s)[0])
  {
    if s != "" && IsSpace(s[0]) {
      StripLeftIsSuffix(s[1..]);
    }
  }

  lemma {:induction false} StripRightIsPrefix(s: string)
    ensures StripRight(s) <= s
    ensures StripRight(s) != "" ==> !IsSpace(StripRight(s)[|StripRight(s)| - 1])
    ensures s != "" && !IsSpace(s[0]) ==> StripRight(s) != ""
  {
    if s != "" && IsSpace(s[|s| - 1]) {
      StripRightIsPrefix(s[..|s| - 1]);
    }
  }

  lemma {:induction false} WithoutControls(s: string)
    requires NoControls(s)
    ensures FlattenControls(s) == s
  {
    if s != "" {
      WithoutControls(s[1..]);
    }
  }

  lemma {:induction false} WithoutMarkers(s: string)
    requires Unmarked(s)
    ensures BreakMarkers(s) == s
  {
    if s != "" {
      WithoutMarkers(s[1..]);
    }
  }

  lemma {:induction false} WithoutDoubleSpaces(s: string)
    requires NoDoubleSpace(s)
    ensures CollapseSpaces(s) == s
  {
    if |s| >= 2 {
      assert NoDoubleSpace(s[1..]) by {
        forall i | 0 <= i < |s| - 2 ensures !(s[1..][i] == ' ' && s[1..][i + 1] == ' ') {
          assert !(s[i + 1] == ' ' && s[i + 2] == ' ');
        }
      }
      WithoutDoubleSpaces(s[1..]);
    }
  }

  // One line -----------------------------------------------------------------------

  /** Where Python's str.splitlines ends a line. */
  predicate IsBreak(c: char) {
    var n := c as int;
    0x0A <= n <= 0x0D || 0x1C <= n <= 0x1E || n == 0x85 || n == 0x2028 || n == 0x2029
  }

  predicate OneLine(s: string) {
    forall i :: 0 <= i < |s| ==> !IsBreak(s[i])
  }

  /** The line breaks that are no control characters below a space. */
  predicate IsWide(c: char) {
    IsBreak(c) && !IsControl(c)
  }

  predicate IsSolid(c: char) {
    !IsSpace(c) && !IsControl(c)
  }

  /** U+0085, U+2028 or U+2029 stands between two characters that are neither spaces
      nor controls. */
  ghost predicate Splits(s: string) {
    exists i, j, k :: 0 <= i < j < k < |s| && IsSolid(s[i]) && IsWide(s[j]) && IsSolid(s[k])
  }

  /** The same from the left: a solid character; one after a break; one on each side. */
  predicate HasSolid(s: string) {
    s != "" && (IsSolid(s[0]) || HasSolid(s[1..]))
  }

  predicate BreakThenSolid(s: string) {
    s != "" && ((IsWide(s[0]) && HasSolid(s[1..])) || BreakThenSolid(s[1..]))
  }

  predicate BreakBetween(s: string) {
    s != "" && ((IsSolid(s[0]) && BreakThenSolid(s[1..])) || BreakBetween(s[1..]))
  }

  lemma {:induction false} HasSolidMeans(s: string)
    ensures HasSolid(s) <==> exists k :: 0 <= k < |s| && IsSolid(s[k])
  {
    if s != "" {
      HasSolidMeans(s[1..]);
      if k :| 0 <= k < |s| && IsSolid(s[k]) {
        assert k > 0 ==> IsSolid(s[1..][k - 1]);
      }
    }
  }

  lemma {:induction false} BreakThenSolidMeans(s: string)
    ensures BreakThenSolid(s) <==> exists j, k :: 0 <= j < k < |s| && IsWide(s[j]) && IsSolid(s[k])
  {
    if s != "" {
      BreakThenSolidMeans(s[1..]);
      HasSolidMeans(s[1..]);
      if j, k :| 0 <= j < k < |s| && IsWide(s[j]) && IsSolid(s[k]) {
        assert IsSolid(s[1..][k - 1]) && (j > 0 ==> IsWide(s[1..][j - 1]));
      }
      if IsWide(s[0]) && HasSolid(s[1..]) {
        var k :| 0 <= k < |s[1..]| && IsSolid(s[1..][k]);
        assert IsSolid(s[k + 1]);
      } else if BreakThenSolid(s[1..]) {
        var j, k :| 0 <= j < k < |s[1..]| && IsWide(s[1..][j]) && IsSolid(s[1..][k]);
        assert IsWide(s[j + 1]) && IsSolid(s[k + 1]);
      }
    }
  }

  lemma RestSplits(s: string)
    requires s != "" && Splits(s[1..])
    ensures Splits(s)
  {
    var i, j, k :| 0 <= i < j < k < |s[1..]| && IsSolid(s[1..][i]) && IsWide(s[1..][j]) && IsSolid(s[1..][k]);
    assert IsSolid(s[i + 1]) && IsWide(s[j + 1]) && IsSolid(s[k + 1]);
  }

  lemma HeadSplits(s: string)
    requires s != "" && IsSolid(s[0]) && BreakThenSolid(s[1..])
    ensures Splits(s)
  {
    BreakThenSolidMeans(s[1..]);
    var j, k :| 0 <= j < k < |s[1..]| && IsWide(s[1..][j]) && IsSolid(s[1..][k]);
    assert IsSolid(s[0]) && IsWide(s[j + 1]) && IsSolid(s[k + 1]);
  }

  lemma {:induction false} BreakBetweenSplits(s: string)
    requires BreakBetween(s)
    ensures Splits(s)
  {
    if IsSolid(s[0]) && BreakThenSolid(s[1..]) {
      HeadSplits(s);
    } else {
      BreakBetweenSplits(s[1..]);
      RestSplits(s);
    }
  }

  lemma {:induction false} SplitsMeansBreakBetween(s: string, i: nat, j: nat, k: nat)
    requires i < j < k < |s| && IsSolid(s[i]) && IsWide(s[j]) && IsSolid(s[k])
    ensures BreakBetween(s)
  {
    if i == 0 {
      BreakThenSolidMeans(s[1..]);
      assert IsWide(s[1..][j - 1]) && IsSolid(s[1..][k - 1]);
    } else {
      SplitsMeansBreakBetween(s[1..], i - 1, j - 1, k - 1);
    }
  }

  lemma BreakBetweenMeans(s: string)
    ensures BreakBetween(s) <==> Splits(s)
  {
    if BreakBetween(s) {
      BreakBetweenSplits(s);
    }
    if i, j, k :| 0 <= i < j < k < |s| && IsSolid(s[i]) && IsWide(s[j]) && IsSolid(s[k]) {
      SplitsMeansBreakBetween(s, i, j, k);
    }
  }

  /** Both texts have solid characters, and breaks among them, alike. */
  predicate SameBreaks(s: string, t: string) {
    HasSolid(s) == HasSolid(t) && BreakThenSolid(s) == BreakThenSolid(t) && BreakBetween(s) == BreakBetween(t)
  }

  predicate IsBlank(c: char) {
    !IsSolid(c) && !IsWide(c)
  }

  lemma SameHead(c: char, s: string, t: string)
    requires SameBreaks(s, t)
    ensures SameBreaks([c] + s, [c] + t)
  {
    assert ([c] + s)[1..] == s && ([c] + t)[1..] == t;
  }

  lemma BlankHead(c: char, s: string)
    requires IsBlank(c)
    ensures SameBreaks([c] + s, s)
  {
    assert ([c] + s)[1..] == s;
  }

  /** A run of solid characters counts as one. */
  lemma {:induction false} SolidRun(a: string, s: string)
    requires a != "" && forall i :: 0 <= i < |a| ==> IsSolid(a[i])
    ensures HasSolid(a + s) && BreakThenSolid(a + s) == BreakThenSolid(s)
    ensures BreakBetween(a + s) == (BreakThenSolid(s) || BreakBetween(s))
  {
    assert (a + s)[0] == a[0] && (a + s)[1..] == a[1..] + s;
    if |a| > 1 {
      SolidRun(a[1..], s);
    } else {
      assert a[1..] + s == s;
    }
  }

  lemma {:induction false} SkippingKeepsBreaks(s: string)
    ensures SameBreaks(SkipControls(s), s)
  {
    if s != "" && IsControl(s[0]) {
      SkippingKeepsBreaks(s[1..]);
      BlankHead(s[0], s[1..]);
      assert s == [s[0]] + s[1..];
    }
  }

  lemma {:induction false} FlatteningKeepsBreaks(s: string)
    ensures SameBreaks(FlattenControls(s), s)
    decreases |s|
  {
    if s != "" {
      assert s == [s[0]] + s[1..];
      if IsControl(s[0]) {
        FlatteningKeepsBreaks(SkipControls(s[1..]));
        SkippingKeepsBreaks(s[1..]);
        BlankHead(' ', FlattenControls(SkipControls(s[1..])));
        BlankHead(s[0], s[1..]);
      } else {
        FlatteningKeepsBreaks(s[1..]);
        SameHead(s[0], FlattenControls(s[1..]), s[1..]);
      }
    }
  }

  lemma LettersAreSolid(c: char, letter: char)
    requires Lower(c) == letter && letter in "bmacevntlrp12"
    ensures IsSolid(c) && IsSolid(Lower(c))
  {
    assert '0' <= letter <= 'z';
  }

  lemma WordIsSolid(s: string, w: string)
    requires IsMarker(w) && Begins(s, w)
    ensures forall i :: 0 <= i < |w| ==> IsSolid(s[i]) && IsSolid(Lower(s[i]))
  {
    MarkerLetters(w);
    forall i | 0 <= i < |w| ensures IsSolid(s[i]) && IsSolid(Lower(s[i])) {
      assert Lower(s[i]) == w[i];
      LettersAreSolid(s[i], w[i]);
    }
  }

  lemma MarkersAreSolid(s: string)
    requires MarkerLength(s) > 0
    ensures forall i :: 0 <= i < MarkerLength(s) ==> IsSolid(s[i]) && IsSolid(Lower(s[i]))
  {
    var w :| IsMarker(w) && |w| == MarkerLength(s) && Begins(s, w);
    WordIsSolid(s, w);
  }

  lemma BrokenWordIsSolid(w: string)
    requires |w| >= 4 && forall i :: 0 <= i < |w| ==> IsSolid(Lower(w[i]))
    ensures var word := "bmac" + ['-'] + LowerAll(w[4..]); forall i :: 0 <= i < |word| ==> IsSolid(word[i])
  {
    assert forall i :: 0 <= i < |w[4..]| ==> IsSolid(LowerAll(w[4..])[i]);
    assert forall c :: c in "bmac-" ==> IsSolid(c);
  }

  /** A marker word and its broken form are runs of solid characters. */
  lemma BrokenWordKeepsBreaks(w: string, s: string, rest: string)
    requires |w| >= 4 && SameBreaks(rest, s)
    requires forall i :: 0 <= i < |w| ==> IsSolid(w[i]) && IsSolid(Lower(w[i]))
    ensures SameBreaks("bmac" + ['-'] + LowerAll(w[4..]) + rest, w + s)
  {
    BrokenWordIsSolid(w);
    SolidRun("bmac" + ['-'] + LowerAll(w[4..]), rest);
    SolidRun(w, s);
  }

  lemma {:induction false} BreakingKeepsBreaks(s: string)
    ensures SameBreaks(BreakMarkers(s), s)
    decreases |s|
  {
    if s != "" {
      var n := MarkerLength(s);
      if n > 0 {
        var rest := BreakMarkers(s[n..]);
        BreakingKeepsBreaks(s[n..]);
        MarkersAreSolid(s);
        BrokenWordKeepsBreaks(s[..n], s[n..], rest);
        assert s[..n][4..] == s[4..n] && s == s[..n] + s[n..];
        assert BreakMarkers(s) == "bmac" + ['-'] + LowerAll(s[4..n]) + rest;
      } else {
        BreakingKeepsBreaks(s[1..]);
        SameHead(s[0], BreakMarkers(s[1..]), s[1..]);
        assert s == [s[0]] + s[1..];
      }
    }
  }

  lemma {:induction false} CollapsingKeepsBreaks(s: string)
    ensures SameBreaks(CollapseSpaces(s), s)
  {
    if |s| >= 2 {
      CollapsingKeepsBreaks(s[1..]);
      assert s == [s[0]] + s[1..];
      if s[0] == ' ' && s[1] == ' ' {
        BlankHead(' ', s[1..]);
      } else {
        SameHead(s[0], CollapseSpaces(s[1..]), s[1..]);
      }
    }
  }

  lemma {:induction false} BlanksInFront(a: string, t: string)
    requires forall i :: 0 <= i < |a| ==> !IsSolid(a[i])
    ensures BreakBetween(a + t) == BreakBetween(t)
  {
    if a == "" {
      assert a + t == t;
    } else {
      BlanksInFront(a[1..], t);
      assert (a + t)[0] == a[0] && (a + t)[1..] == a[1..] + t;
    }
  }

  lemma {:induction false} BlanksAfter(t: string, b: string)
    requires forall i :: 0 <= i < |b| ==> !IsSolid(b[i])
    ensures HasSolid(t + b) == HasSolid(t) && BreakThenSolid(t + b) == BreakThenSolid(t)
    ensures BreakBetween(t + b) == BreakBetween(t)
  {
    if t == "" {
      assert t + b == b;
      NothingSolid(b);
    } else {
      BlanksAfter(t[1..], b);
      assert (t + b)[0] == t[0] && (t + b)[1..] == t[1..] + b;
    }
  }

  lemma {:induction false} NothingSolid(b: string)
    requires forall i :: 0 <= i < |b| ==> !IsSolid(b[i])
    ensures !HasSolid(b) && !BreakThenSolid(b) && !BreakBetween(b)
  {
    if b != "" {
      NothingSolid(b[1..]);
    }
  }

  lemma {:induction false} StrippingLeftKeepsBreaks(s: string)
    ensures BreakBetween(StripLeft(s)) == BreakBetween(s)
  {
    if s != "" && IsSpace(s[0]) {
      StrippingLeftKeepsBreaks(s[1..]);
      BlanksInFront([s[0]], s[1..]);
      assert s == [s[0]] + s[1..];
    }
  }

  lemma {:induction false} StrippingRightKeepsBreaks(s: string)
    ensures BreakBetween(StripRight(s)) == BreakBetween(s)
  {
    if s != "" && IsSpace(s[|s| - 1]) {
      StrippingRightKeepsBreaks(s[..|s| - 1]);
      BlanksAfter(s[..|s| - 1], [s[|s| - 1]]);
      assert s == s[..|s| - 1] + [s[|s| - 1]];
    }
  }

  /** A text without controls and edge spaces is one line exactly when no break
      stands inside it. */
  lemma StrippedIsOneLineIff(s: string)
    requires NoControls(s) && Stripped(s)
    ensures !OneLine(s) <==> Splits(s)
  {
    if i :| 0 <= i < |s| && IsBreak(s[i]) {
      assert IsWide(s[i]) && IsSpace(s[i]);
      assert IsSolid(s[0]) && IsSolid(s[|s| - 1]);
    }
  }

  lemma TidySplits(s: string)
    ensures Splits(Tidy(s)) <==> Splits(s)
  {
    var a := FlattenControls(s);
    var b := BreakMarkers(a);
    var c := CollapseSpaces(b);
    FlatteningKeepsBreaks(s);
    BreakingKeepsBreaks(a);
    CollapsingKeepsBreaks(b);
    BreakBetweenMeans(s);
    StrippingLeftKeepsBreaks(c);
    StrippingRightKeepsBreaks(StripLeft(c));
    BreakBetweenMeans(Tidy(s));
  }

  lemma TidyIsBounded(s: string)
    ensures Bounded(Tidy(s)) && Stripped(Tidy(s))
  {
    var a := FlattenControls(s);
    FlattenedHasNoControls(s);
    BrokenIsUnmarked(a);
    BreakingAddsNoControls(a);
    CollapsingKeeps(BreakMarkers(a));
    StrippingKeeps(CollapseSpaces(BreakMarkers(a)));
  }

  /** A tidy text's beginning, stripped, is one line exactly when it has no break
      between solid characters. */
  lemma KeptIsOneLineIff(v: string, n: nat)
    requires NoControls(v) && Stripped(v) && 0 < n <= |v|
    ensures !OneLine(StripRight(v[..n])) <==> Splits(v[..n])
  {
    var cut := v[..n];
    var f := StripRight(cut);
    StripRightIsPrefix(cut);
    StrippingRightKeepsBreaks(cut);
    BreakBetweenMeans(cut);
    BreakBetweenMeans(f);
    assert f[0] == v[0];
    StrippedIsOneLineIff(f);
  }

  /** The text itself, or what is kept of the tidy text if that is cut. */
  function KeptPart(s: string): string {
    if |Tidy(s)| <= MESSAGE_LIMIT then s else Tidy(s)[..MESSAGE_LIMIT - 3]
  }

  lemma OneLineIff(s: string)
    ensures OneLine(Sanitize(s)) <==> !Splits(KeptPart(s))
  {
    var v := Tidy(s);
    TidyIsBounded(s);
    TidySplits(s);
    if |v| <= MESSAGE_LIMIT {
      StrippedIsOneLineIff(v);
    } else {
      KeptIsOneLineIff(v, MESSAGE_LIMIT - 3);
      DotsAreOneLine(StripRight(v[..MESSAGE_LIMIT - 3]));
    }
  }

  lemma DotsAreOneLine(f: string)
    ensures OneLine(f + "...") <==> OneLine(f)
  {
    assert forall i :: 0 <= i < |f| ==> (f + "...")[i] == f[i];
  }

  /** So a text without such a break between solid characters always becomes one line,
      and one line stays one. */
  lemma OneLineStays(s: string)
    ensures !Splits(s) ==> OneLine(Sanitize(s))
    ensures OneLine(s) ==> OneLine(Sanitize(s))
  {
    OneLineIff(s);
    TidySplits(s);
    if |Tidy(s)| > MESSAGE_LIMIT && Splits(Tidy(s)[..MESSAGE_LIMIT - 3]) {
      PrefixSplits(Tidy(s), MESSAGE_LIMIT - 3);
    }
  }

  lemma PrefixSplits(v: string, n: nat)
    requires n <= |v| && Splits(v[..n])
    ensures Splits(v)
  {
    var i, j, k :| 0 <= i < j < k < n && IsSolid(v[..n][i]) && IsWide(v[..n][j]) && IsSolid(v[..n][k]);
    assert IsSolid(v[i]) && IsWide(v[j]) && IsSolid(v[k]);
  }

  /** For example, the three line breaks stay between two letters. */
  lemma SomeLineBreaksStay(c: char)
    requires c as int in {0x85, 0x2028, 0x2029}
    ensures Sanitize(['a', c, 'b']) == ['a', c, 'b'] && !OneLine(['a', c, 'b'])
  {
    var s := ['a', c, 'b'];
    ShortIsUnmarked(s);
    UnmarkedMeans(s);
    assert IsBreak(s[1]);
    assert NoControls(s) && NoDoubleSpace(s) && Stripped(s);
    SanitizeCleans(s);
  }

  // Joining texts ----------------------------------------------------------------

  lemma MarkerFreeJoin(a: string, c: char, b: string)
    requires MarkerFree(a) && MarkerFree(b) && Separates(c)
    ensures MarkerFree(a + [c] + b)
  {
    UnmarkedMeans(a);
    UnmarkedMeans(b);
    UnmarkedJoin(a, c, b);
    UnmarkedMeans(a + [c] + b);
  }

  lemma MarkerFreePrefix(s: string, j: nat)
    requires j <= |s| && MarkerFree(s)
    ensures MarkerFree(s[..j])
  {
    UnmarkedMeans(s);
    UnmarkedPrefix(s, j);
    UnmarkedMeans(s[..j]);
  }

  /** Every marker word begins with a b. */
  predicate NoB(s: string) {
    'b' !in s && 'B' !in s
  }

  lemma NoBJoin(a: string, b: string)
    requires NoB(a) && NoB(b)
    ensures NoB(a + b)
  {
  }

  lemma NoBInFront(a: string, s: string)
    requires NoB(a) && MarkerFree(s)
    ensures MarkerFree(a + s)
  {
    assert forall i :: 0 <= i < |a| ==> a[i] in a;
    UnmarkedMeans(s);
    NoBIsUnmarked(a, s);
    UnmarkedMeans(a + s);
  }

  lemma WithoutB(s: string)
    requires NoB(s)
    ensures MarkerFree(s)
  {
    UnmarkedMeans("");
    NoBInFront(s, "");
    assert s + "" == s;
  }

  function Spaces(n: nat): (r: string)
    ensures |r| == n && forall i :: 0 <= i < n ==> r[i] == ' '
  {
    seq(n, i => ' ')
  }

  // Numbers -------------------------------------------------------------------

  const DIGITS := "0123456789"

  predicate Digits(s: string) {
    forall i :: 0 <= i < |s| ==> s[i] in DIGITS
  }

  function Decimal(n: nat): (r: string)
    ensures r != "" && forall i :: 0 <= i < |r| ==> r[i] in DIGITS
  {
    if n < 10 then [DIGITS[n]] else Decimal(n / 10) + [DIGITS[n % 10]]
  }

  lemma FiveMoreDigits(n: nat)
    ensures |Decimal(n)| <= |Decimal(n / 100000)| + 5
  {
    var a := n / 10;
    var b := a / 10;
    var c := b / 10;
    var d := c / 10;
    assert d / 10 == n / 100000;
    assert |Decimal(n)| <= |Decimal(a)| + 1;
    assert |Decimal(a)| <= |Decimal(b)| + 1;
    assert |Decimal(b)| <= |Decimal(c)| + 1;
    assert |Decimal(c)| <= |Decimal(d)| + 1;
    assert |Decimal(d)| <= |Decimal(d / 10)| + 1;
  }

  lemma SizesAreShort(n: nat)
    requires n < 0x1_0000_0000_0000_0000
    ensures |Decimal(n)| <= 21
  {
    FiveMoreDigits(n);
    FiveMoreDigits(n / 100000);
    FiveMoreDigits(n / 100000 / 100000);
    FiveMoreDigits(n / 100000 / 100000 / 100000);
  }

  function ValueOf(s: string): nat
    requires forall i :: 0 <= i < |s| ==> s[i] in DIGITS
  {
    if s == "" then 0 else 10 * ValueOf(s[..|s| - 1]) + (s[|s| - 1] as int - '0' as int)
  }

  /** Decimal numerals read back, so they are distinct for distinct numbers. */
  lemma {:induction false} DecimalReadsBack(n: nat)
    ensures ValueOf(Decimal(n)) == n
  {
    if n >= 10 {
      DecimalReadsBack(n / 10);
      assert Decimal(n)[..|Decimal(n)| - 1] == Decimal(n / 10);
    } else {
      assert ValueOf("") == 0;
      assert [DIGITS[n]][..0] == "";
    }
  }
}
