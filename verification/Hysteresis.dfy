/** A two-threshold switch: it opens after a run of failures and closes after a
    run of passes.

    Two machines of the repository count this way: the monitor agent's debounce
    counters, one pair for each problem key, and the egress health service. This
    module gives the meaning both must have, stated on the whole history of
    observations, and the counting form that both are proved equal to.
 */
module Hysteresis {

  /** One observation. Vanish is a key that a working check stopped reporting. */
  datatype Obs = Fail | Pass | Vanish

  /** The n observations from position i on are all o. */
  ghost predicate Run(h: seq<Obs>, i: int, n: int, o: Obs) {
    0 <= i && i + n <= |h| && forall k :: i <= k < i + n ==> h[k] == o
  }

  /** Nothing from position i on closes the switch. */
  ghost predicate NotClearedFrom(h: seq<Obs>, i: nat, clearAfter: nat) {
    && (forall k :: i <= k < |h| ==> h[k] != Vanish)
    && (forall j :: i <= j ==> !Run(h, j, clearAfter, Pass))
  }

  /** The history meaning: some run of failAfter consecutive failures has not
      been followed by clearAfter consecutive passes, nor by a disappearance. */
  ghost predicate OpenByHistory(h: seq<Obs>, failAfter: nat, clearAfter: nat) {
    exists i :: 0 <= i && Run(h, i, failAfter, Fail) && NotClearedFrom(h, i + failAfter, clearAfter)
  }

  /** The length of the run of o that ends the history. */
  function Trailing(h: seq<Obs>, o: Obs): nat {
    if h != [] && h[|h| - 1] == o then 1 + Trailing(h[..|h| - 1], o) else 0
  }

  /** The counting form, one observation at a time. */
  predicate Open(h: seq<Obs>, failAfter: nat, clearAfter: nat) {
    if h == [] then false else
      var before := Open(h[..|h| - 1], failAfter, clearAfter);
      match h[|h| - 1]
      case Fail => before || Trailing(h, Fail) >= failAfter
      case Pass => before && Trailing(h, Pass) < clearAfter
      case Vanish => false
  }

  lemma {:induction false} TrailingIsTheLongestRun(h: seq<Obs>, o: Obs, n: nat)
    ensures n <= Trailing(h, o) <==> Run(h, |h| - n, n, o)
  {
    if h != [] && n > 0 {
      var p := h[..|h| - 1];
      TrailingIsTheLongestRun(p, o, n - 1);
      if h[|h| - 1] == o && Run(p, |p| - (n - 1), n - 1, o) {
        assert forall k :: |h| - n <= k < |p| ==> h[k] == p[k];
      }
      if Run(h, |h| - n, n, o) {
        assert h[|h| - 1] == o;
        assert forall k :: |h| - n <= k < |p| ==> p[k] == h[k];
      }
    }
  }

  /** The counters mean the history. */
  lemma {:induction false} OpenIsOpenByHistory(h: seq<Obs>, failAfter: nat, clearAfter: nat)
    requires failAfter >= 1 && clearAfter >= 1
    ensures Open(h, failAfter, clearAfter) <==> OpenByHistory(h, failAfter, clearAfter)
  {
    if h != [] {
      var p := h[..|h| - 1];
      OpenIsOpenByHistory(p, failAfter, clearAfter);
      TrailingIsTheLongestRun(h, Fail, failAfter);
      TrailingIsTheLongestRun(h, Pass, clearAfter);
      if Open(h, failAfter, clearAfter) {
        HistoryHasWitness(h, p, failAfter, clearAfter);
      }
      if OpenByHistory(h, failAfter, clearAfter) {
        var i :| 0 <= i && Run(h, i, failAfter, Fail) && NotClearedFrom(h, i + failAfter, clearAfter);
        WitnessMeansOpen(h, p, i, failAfter, clearAfter);
      }
    }
  }

  lemma HistoryHasWitness(h: seq<Obs>, p: seq<Obs>, failAfter: nat, clearAfter: nat)
    requires failAfter >= 1 && clearAfter >= 1
    requires h != [] && p == h[..|h| - 1]
    requires h[|h| - 1] != Vanish
    requires OpenByHistory(p, failAfter, clearAfter) || Run(h, |h| - failAfter, failAfter, Fail)
    requires !Run(h, |h| - clearAfter, clearAfter, Pass)
    ensures OpenByHistory(h, failAfter, clearAfter)
  {
    if Run(h, |h| - failAfter, failAfter, Fail) {
      assert NotClearedFrom(h, |h| - failAfter + failAfter, clearAfter);
    } else {
      var i :| 0 <= i && Run(p, i, failAfter, Fail) && NotClearedFrom(p, i + failAfter, clearAfter);
      assert Run(h, i, failAfter, Fail);
      forall j | i + failAfter <= j ensures !Run(h, j, clearAfter, Pass) {
        if Run(h, j, clearAfter, Pass) && j + clearAfter < |h| {
          assert Run(p, j, clearAfter, Pass);
        }
      }
      assert NotClearedFrom(h, i + failAfter, clearAfter);
    }
  }

  lemma WitnessMeansOpen(h: seq<Obs>, p: seq<Obs>, i: nat, failAfter: nat, clearAfter: nat)
    requires failAfter >= 1 && clearAfter >= 1
    requires h != [] && p == h[..|h| - 1]
    requires Run(h, i, failAfter, Fail) && NotClearedFrom(h, i + failAfter, clearAfter)
    ensures h[|h| - 1] != Vanish
    ensures !Run(h, |h| - clearAfter, clearAfter, Pass)
    ensures OpenByHistory(p, failAfter, clearAfter) || Run(h, |h| - failAfter, failAfter, Fail)
  {
    assert h[i + failAfter - 1] == Fail;
    if i + failAfter < |h| {
      assert Run(p, i, failAfter, Fail);
      forall j | i + failAfter <= j ensures !Run(p, j, clearAfter, Pass) {
        if Run(p, j, clearAfter, Pass) {
          assert Run(h, j, clearAfter, Pass);
        }
      }
      assert NotClearedFrom(p, i + failAfter, clearAfter);
    }
  }

  /** What one more observation does to the counters. */
  lemma OneMore(h: seq<Obs>, o: Obs, failAfter: nat, clearAfter: nat)
    ensures Trailing(h + [o], Fail) == if o == Fail then Trailing(h, Fail) + 1 else 0
    ensures Trailing(h + [o], Pass) == if o == Pass then Trailing(h, Pass) + 1 else 0
    ensures Open(h + [o], failAfter, clearAfter) ==
            match o
            case Fail => Open(h, failAfter, clearAfter) || Trailing(h, Fail) + 1 >= failAfter
            case Pass => Open(h, failAfter, clearAfter) && Trailing(h, Pass) + 1 < clearAfter
            case Vanish => false
  {
    assert (h + [o])[..|h|] == h;
  }
}
