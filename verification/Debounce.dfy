/** The agent's debounce counters mean the history of what checks reported.

    For one problem key, every check run adds observations: what the check found,
    or that it stopped reporting the key. The counters and the open problems are
    proved to be exactly the two-threshold switch of `Hysteresis` on that history,
    over whole runs in which the process may die and fall back to its saved state.
 */
module Debounce {
  import opened Common
  import opened Text
  import opened PulseBody
  import opened Agent
  import Ledger
  import H = Hysteresis

  // One key -------------------------------------------------------------------------

  /** A key's problem and counters are those of its history. */
  ghost predicate HoldsHistory(s: State, key: string, h: seq<H.Obs>, failAfter: nat, clearAfter: nat) {
    && (key in s.problems <==> H.Open(h, failAfter, clearAfter))
    && (key in s.problems ==> CountersOf(s, key).passes == H.Trailing(h, H.Pass))
    && (key !in s.problems ==> CountersOf(s, key).fails == H.Trailing(h, H.Fail))
  }

  /** Nothing about the key's debouncing changed. */
  predicate SameFor(s: State, s': State, key: string) {
    (key in s.problems <==> key in s'.problems) && CountersOf(s, key) == CountersOf(s', key)
  }

  function ObsOf(verdict: Verdict): seq<H.Obs> {
    match verdict
    case Ok => [H.Pass]
    case Failing => [H.Fail]
    case Hold => []
  }

  /** What a list of findings observes of one key. */
  function Observed(findings: seq<Finding>, key: string): seq<H.Obs> {
    if findings == [] then [] else
      var f := findings[|findings| - 1];
      Observed(findings[..|findings| - 1], key) + if f.key == key then ObsOf(f.verdict) else []
  }

  /** The findings about the key that count use these thresholds. */
  ghost predicate Steady(findings: seq<Finding>, key: string, th: Thresholds, failAfter: nat, clearAfter: nat) {
    forall f :: f in findings && f.key == key && f.verdict != Hold ==>
          ThresholdsFor(f.kind, th) == (failAfter, clearAfter)
  }

  lemma OpenedOther(s: State, f: Finding, key: string, now: real)
    requires f.key != key
    ensures SameFor(s, Opened(s, f, now), key)
  {
  }

  lemma StillFailingOther(s: State, f: Finding, key: string)
    requires f.key != key && f.key in s.problems
    ensures SameFor(s, StillFailing(s, f), key)
  {
  }

  lemma ClearedOther(s: State, k: string, key: string, now: real)
    requires k != key && k in s.problems
    ensures SameFor(s, Cleared(s, k, now), key)
  {
  }

  lemma TrackOther(s: State, f: Finding, key: string, now: real, th: Thresholds)
    requires f.key != key || f.verdict == Hold
    ensures SameFor(s, Track(s, f, now, th), key)
  {
    if f.verdict != Hold {
      var counted := s.(debounce := s.debounce[f.key := Count(CountersOf(s, f.key), f.verdict)]);
      assert SameFor(s, counted, key);
      if f.key in s.problems {
        StillFailingOther(counted, f, key);
        ClearedOther(counted, f.key, key, now);
      } else {
        OpenedOther(counted, f, key, now);
      }
    }
  }

  lemma TrackCounts(s: State, f: Finding, now: real, th: Thresholds, h: seq<H.Obs>, failAfter: nat, clearAfter: nat)
    requires HoldsHistory(s, f.key, h, failAfter, clearAfter)
    requires f.verdict != Hold ==> ThresholdsFor(f.kind, th) == (failAfter, clearAfter)
    ensures HoldsHistory(Track(s, f, now, th), f.key, h + ObsOf(f.verdict), failAfter, clearAfter)
  {
    match f.verdict
    case Ok => H.OneMore(h, H.Pass, failAfter, clearAfter);
    case Failing => H.OneMore(h, H.Fail, failAfter, clearAfter);
    case Hold => assert h + [] == h;
  }

  lemma {:induction false} TrackAllCounts(s: State, findings: seq<Finding>, key: string, now: real, th: Thresholds,
                                          h: seq<H.Obs>, failAfter: nat, clearAfter: nat)
    requires HoldsHistory(s, key, h, failAfter, clearAfter)
    requires Steady(findings, key, th, failAfter, clearAfter)
    ensures HoldsHistory(TrackAll(s, findings, now, th), key, h + Observed(findings, key), failAfter, clearAfter)
  {
    if findings == [] {
      assert h + [] == h;
    } else {
      var init := findings[..|findings| - 1];
      var f := findings[|findings| - 1];
      TrackAllCounts(s, init, key, now, th, h, failAfter, clearAfter);
      var before := h + Observed(init, key);
      if f.key == key {
        TrackCounts(TrackAll(s, init, now, th), f, now, th, before, failAfter, clearAfter);
        assert h + Observed(findings, key) == before + ObsOf(f.verdict);
      } else {
        TrackOther(TrackAll(s, init, now, th), f, key, now, th);
        assert h + Observed(findings, key) == before;
      }
    }
  }

  lemma {:induction false} TrackAllSplits(s: State, a: seq<Finding>, b: seq<Finding>, now: real, th: Thresholds)
    ensures TrackAll(s, a + b, now, th) == TrackAll(TrackAll(s, a, now, th), b, now, th)
  {
    if b == [] {
      assert a + b == a;
    } else {
      TrackAllSplits(s, a, b[..|b| - 1], now, th);
      assert (a + b)[..|a + b| - 1] == a + b[..|b| - 1];
    }
  }

  // Keys that a check stopped reporting -----------------------------------------------

  /** What the check's silence observes: the key is gone, when the check owns it. */
  function Silence(check: Check, findings: seq<Finding>, key: string): seq<H.Obs> {
    if Owns(check, key) && key !in KeysOf(findings) then [H.Vanish] else []
  }

  lemma ForgetCounts(s: State, check: Check, seen: set<string>, key: string, h: seq<H.Obs>, failAfter: nat,
                     clearAfter: nat)
    requires HoldsHistory(s, key, h, failAfter, clearAfter)
    ensures key in s.problems || !(Owns(check, key) && key !in seen) ==> SameFor(s, Forget(s, check, seen), key)
    ensures key !in s.problems && Owns(check, key) && key !in seen ==>
            HoldsHistory(Forget(s, check, seen), key, h + [H.Vanish], failAfter, clearAfter)
  {
    H.OneMore(h, H.Vanish, failAfter, clearAfter);
  }

  /** A finding that says a key is gone closes it, whatever the key's thresholds. */
  lemma GoneCloses(s: State, f: Finding, now: real, th: Thresholds, h: seq<H.Obs>, failAfter: nat, clearAfter: nat)
    requires f.verdict == Ok && f.kind == Once
    ensures HoldsHistory(Track(s, f, now, th), f.key, h + [H.Vanish], failAfter, clearAfter)
  {
    H.OneMore(h, H.Vanish, failAfter, clearAfter);
  }

  lemma {:induction false} VanishedCounts(s: State, check: Check, seen: set<string>, order: seq<string>, key: string,
                                          now: real, th: Thresholds, h: seq<H.Obs>, failAfter: nat, clearAfter: nat)
    ensures var r := TrackAll(s, Vanished(check, seen, order), now, th);
            if key in order && Owns(check, key) && key !in seen
            then HoldsHistory(r, key, h + [H.Vanish], failAfter, clearAfter)
            else SameFor(s, r, key)
  {
    if order != [] {
      var init := order[..|order| - 1];
      var last := order[|order| - 1];
      assert order == init + [last];
      VanishedCounts(s, check, seen, init, key, now, th, h, failAfter, clearAfter);
      if Owns(check, last) && last !in seen {
        var f := Finding(last, Ok, Low, "no longer present", Once);
        var before := TrackAll(s, Vanished(check, seen, init), now, th);
        TrackAllSplits(s, Vanished(check, seen, init), [f], now, th);
        assert TrackAll(before, [f], now, th) == Track(before, f, now, th) by {
          assert [f][..0] == [];
        }
        if last == key {
          GoneCloses(before, f, now, th, h, failAfter, clearAfter);
        } else {
          TrackOther(before, f, key, now, th);
        }
      }
    }
  }

  // One check run -----------------------------------------------------------------------

  /** What one check run observes of a key. */
  function RunObserves(check: Check, findings: seq<Finding>, error: Option<string>, key: string): seq<H.Obs> {
    (if error.Some? then [] else Observed(findings, key) + Silence(check, findings, key))
    + Observed([ErrorFinding(check, error)], key)
  }

  lemma {:induction false} NotSeenNotObserved(findings: seq<Finding>, key: string)
    requires key !in KeysOf(findings)
    ensures Observed(findings, key) == []
  {
    if findings != [] {
      var f := findings[|findings| - 1];
      assert f.key in KeysOf(findings);
      forall k | k in KeysOf(findings[..|findings| - 1]) ensures k in KeysOf(findings) {
      }
      NotSeenNotObserved(findings[..|findings| - 1], key);
    }
  }

  lemma WorkingRunCounts(s: State, check: Check, findings: seq<Finding>, key: string, now: real, th: Thresholds,
                         order: seq<string>, h: seq<H.Obs>, failAfter: nat, clearAfter: nat)
    requires HoldsHistory(s, key, h, failAfter, clearAfter)
    requires Steady(findings, key, th, failAfter, clearAfter)
    requires key in order <==> key in s.problems
    ensures var forgot := Forget(s, check, KeysOf(findings));
            HoldsHistory(TrackAll(forgot, findings + Vanished(check, KeysOf(findings), order), now, th), key,
                         h + (Observed(findings, key) + Silence(check, findings, key)), failAfter, clearAfter)
  {
    var seen := KeysOf(findings);
    var forgot := Forget(s, check, seen);
    var found := TrackAll(forgot, findings, now, th);
    TrackAllSplits(forgot, findings, Vanished(check, seen, order), now, th);
    ForgetCounts(s, check, seen, key, h, failAfter, clearAfter);
    if Owns(check, key) && key !in seen {
      NotSeenNotObserved(findings, key);
      assert h + (Observed(findings, key) + Silence(check, findings, key)) == h + [H.Vanish];
      VanishedCounts(found, check, seen, order, key, now, th, h, failAfter, clearAfter);
      if key !in s.problems {
        TrackAllCounts(forgot, findings, key, now, th, h + [H.Vanish], failAfter, clearAfter);
        assert h + [H.Vanish] + [] == h + [H.Vanish];
      }
    } else {
      assert Observed(findings, key) + Silence(check, findings, key) == Observed(findings, key);
      TrackAllCounts(forgot, findings, key, now, th, h, failAfter, clearAfter);
      VanishedCounts(found, check, seen, order, key, now, th, h, failAfter, clearAfter);
    }
  }

  lemma CheckRunCounts(s: State, check: Check, findings: seq<Finding>, error: Option<string>, key: string, now: real,
                       th: Thresholds, order: seq<string>, h: seq<H.Obs>, failAfter: nat, clearAfter: nat)
    requires HoldsHistory(s, key, h, failAfter, clearAfter)
    requires Steady(findings + [ErrorFinding(check, error)], key, th, failAfter, clearAfter)
    requires key in order <==> key in s.problems
    ensures HoldsHistory(Apply(s, check, findings, error, now, th, order), key,
                         h + RunObserves(check, findings, error, key), failAfter, clearAfter)
  {
    var report := [ErrorFinding(check, error)];
    assert Steady(report, key, th, failAfter, clearAfter);
    if error.Some? {
      TrackAllCounts(s, report, key, now, th, h, failAfter, clearAfter);
      assert RunObserves(check, findings, error, key) == Observed(report, key);
    } else {
      var seen := KeysOf(findings);
      var all := findings + Vanished(check, seen, order);
      var before := h + (Observed(findings, key) + Silence(check, findings, key));
      assert Steady(findings, key, th, failAfter, clearAfter);
      WorkingRunCounts(s, check, findings, key, now, th, order, h, failAfter, clearAfter);
      TrackAllCounts(TrackAll(Forget(s, check, seen), all, now, th), report, key, now, th, before, failAfter,
          clearAfter);
      TrackAllSplits(Forget(s, check, seen), all, report, now, th);
      assert h + RunObserves(check, findings, error, key) == before + Observed(report, key);
    }
  }

  // Whole runs ----------------------------------------------------------------------------

  /** The check runs that the state in memory has lived through, and those that the
      state on disk has. A death throws away what was not saved. */
  function Lived(es: seq<Ledger.Event>, th: Thresholds): (seq<Ledger.Event>, seq<Ledger.Event>) {
    if es == [] then ([], []) else
      var (memory, disk) := Lived(es[..|es| - 1], th);
      var w := Ledger.Run(es[..|es| - 1], th);
      match es[|es| - 1]
      case CheckRun(_, _, _, _, _) => (memory + [es[|es| - 1]], disk)
      case EndCycle(_, _) => (memory, memory)
      case PulseAttempt(fate, staging, config, stamp, ongoing) =>
        if Candidate(w.state, fate, staging, config, stamp, ongoing).1 == [] then (memory, disk) else (memory, memory)
      case Beat(fate, staging) =>
        if BeatSaves(w, fate, staging) then (memory, memory)
        else if BeatDies(w, fate, staging) then (disk, disk)
        else (memory, disk)
      case Crash => (disk, disk)
  }

  /** The heartbeat sequence dies at one of its steps. */
  predicate BeatDies(w: World, fate: Fate, staging: bool) {
    !staging && (DiesAt(fate, 6) || (w.state.pendingClear && (DiesAt(fate, 4) || DiesAt(fate, 5))))
  }

  /** The heartbeat sequence saves the state, before dying if it does. */
  predicate BeatSaves(w: World, fate: Fate, staging: bool) {
    && !staging
    && (|| (w.state.pendingClear && fate.clear == Acked && !DiesAt(fate, 4))
        || (fate.heartbeat == Acked && !BeatDies(w, fate, staging)))
  }

  /** The whole history of a key over some check runs. */
  function HistoryOf(runs: seq<Ledger.Event>, key: string): seq<H.Obs> {
    if runs == [] then [] else
      var e := runs[|runs| - 1];
      HistoryOf(runs[..|runs| - 1], key)
      + if e.CheckRun? then RunObserves(e.check, e.findings, e.error, key) else []
  }

  /** Check runs go over the open problems of their time, and use one pair of
      thresholds for the key. */
  ghost predicate Faithful(es: seq<Ledger.Event>, th: Thresholds, key: string, failAfter: nat, clearAfter: nat) {
    forall i :: 0 <= i < |es| && es[i].CheckRun? ==>
      && Lists(es[i].order, Ledger.Run(es[..i], th).state.problems)
      && Steady(es[i].findings + [ErrorFinding(es[i].check, es[i].error)], key, th, failAfter, clearAfter)
  }

  predicate SameDebouncing(s: State, s': State) {
    s.problems.Keys == s'.problems.Keys && s.debounce == s'.debounce
  }

  lemma {:induction false} MarkToldKeepsKeys(problems: map<string, Problem>, carried: seq<Item>, now: real)
    ensures MarkTold(problems, carried, now).Keys == problems.Keys
  {
    if carried != [] {
      MarkToldKeepsKeys(problems, carried[..|carried| - 1], now);
    }
  }

  lemma {:induction false} RemindersKeepDebouncing(s: State, pending: set<string>, now: real, th: Thresholds,
                                                   order: seq<string>)
    ensures SameDebouncing(s, QueueReminders(s, pending, now, th, order))
  {
    if order != [] {
      RemindersKeepDebouncing(s, pending, now, th, order[..|order| - 1]);
    }
  }

  lemma BeatStepDebouncing(w: World, fate: Fate, always: bool)
    ensures var r := BeatStep(w, fate, always);
            if DiesAt(fate, 6) then r.state == w.disk && r.disk == w.disk
            else r.state == w.state && r.disk == if always || fate.heartbeat == Acked then w.state else w.disk
  {
  }

  lemma BeatDebouncing(w: World, fate: Fate, staging: bool)
    ensures var r := Heartbeat(w, fate, staging);
            if BeatSaves(w, fate, staging) then SameDebouncing(r.state, w.state) && SameDebouncing(r.disk, w.state)
            else if BeatDies(w, fate, staging) then r.state == w.disk && r.disk == w.disk
            else r.state == w.state && r.disk == w.disk
  {
    BeatStepDebouncing(w, fate, false);
    if !staging && w.state.pendingClear {
      var sent := Send(w, ClearPing, fate.clear);
      var noted := if fate.clear == Acked then Save(sent.(state := sent.state.(pendingClear := false))) else sent;
      BeatStepDebouncing(noted, fate, false);
    }
  }

  /** However a pulse that carries something goes, what is in memory and on disk
      afterwards has the debouncing of the memory before. */
  lemma ClearStepDebouncing(w: World, fate: Fate, s: State)
    requires SameDebouncing(w.state, s) && SameDebouncing(w.disk, s)
    ensures var r := ClearStep(w, fate, true); SameDebouncing(r.state, s) && SameDebouncing(r.disk, s)
  {
    var sent := Send(w, ClearPing, fate.clear);
    var noted := if fate.clear == Acked then Save(sent.(state := sent.state.(pendingClear := false))) else sent;
    BeatStepDebouncing(noted, fate, true);
  }

  lemma DeliverStepDebouncing(w: World, fate: Fate, carried: seq<Item>, s: State)
    requires SameDebouncing(w.state, s) && SameDebouncing(w.disk, s)
    ensures var r := DeliverStep(w, fate, carried); SameDebouncing(r.state, s) && SameDebouncing(r.disk, s)
  {
    MarkToldKeepsKeys(w.state.problems, carried, fate.now);
    var delivered := Handed(w, carried, fate.now);
    ClearStepDebouncing(Save(delivered), fate, s);
  }

  lemma FailStepDebouncing(w: World, fate: Fate, carried: seq<Item>, s: State)
    requires SameDebouncing(w.state, s) && SameDebouncing(w.disk, s)
    ensures var r := FailStep(w, fate, carried); SameDebouncing(r.state, s) && SameDebouncing(r.disk, s)
  {
    DeliverStepDebouncing(Send(w, FailPing, fate.fail), fate, carried, s);
  }

  lemma CandidateDebouncing(s: State, fate: Fate, staging: bool, config: Config, stamp: Stamp, ongoing: seq<Item>)
    ensures SameDebouncing(Candidate(s, fate, staging, config, stamp, ongoing).0, s)
  {
  }

  lemma PulseDebouncing(w: World, fate: Fate, staging: bool, config: Config, stamp: Stamp, ongoing: seq<Item>)
    ensures var r := Pulse(w, fate, staging, config, stamp, ongoing);
            && SameDebouncing(r.state, w.state)
            && (if Candidate(w.state, fate, staging, config, stamp, ongoing).1 == [] then r.disk == w.disk
                else SameDebouncing(r.disk, w.state))
  {
    var (kept, carried) := Candidate(w.state, fate, staging, config, stamp, ongoing);
    CandidateDebouncing(w.state, fate, staging, config, stamp, ongoing);
    if carried != [] {
      FailStepDebouncing(Prepared(w, kept, fate), fate, carried, w.state);
    }
  }

  lemma SameDebouncingKeeps(s: State, s': State, key: string, h: seq<H.Obs>, failAfter: nat, clearAfter: nat)
    requires SameDebouncing(s, s') && HoldsHistory(s, key, h, failAfter, clearAfter)
    ensures HoldsHistory(s', key, h, failAfter, clearAfter)
  {
    assert key in s.problems <==> key in s.problems.Keys;
    assert key in s'.problems <==> key in s'.problems.Keys;
  }

  ghost predicate BothHold(w: World, lived: (seq<Ledger.Event>, seq<Ledger.Event>), key: string, failAfter: nat,
                           clearAfter: nat) {
    && HoldsHistory(w.state, key, HistoryOf(lived.0, key), failAfter, clearAfter)
    && HoldsHistory(w.disk, key, HistoryOf(lived.1, key), failAfter, clearAfter)
  }

  lemma CheckRunStep(w: World, memory: seq<Ledger.Event>, e: Ledger.Event, th: Thresholds, key: string, failAfter: nat,
                     clearAfter: nat)
    requires e.CheckRun? && Lists(e.order, w.state.problems)
    requires Steady(e.findings + [ErrorFinding(e.check, e.error)], key, th, failAfter, clearAfter)
    requires HoldsHistory(w.state, key, HistoryOf(memory, key), failAfter, clearAfter)
    ensures HoldsHistory(Ledger.Step(w, e, th).state, key, HistoryOf(memory + [e], key), failAfter, clearAfter)
  {
    assert (memory + [e])[..|memory|] == memory;
    CheckRunCounts(w.state, e.check, e.findings, e.error, key, e.now, th, e.order, HistoryOf(memory, key), failAfter,
        clearAfter);
  }

  lemma OtherStep(w: World, lived: (seq<Ledger.Event>, seq<Ledger.Event>), e: Ledger.Event, th: Thresholds, key: string,
                  failAfter: nat, clearAfter: nat)
    requires !e.CheckRun? && BothHold(w, lived, key, failAfter, clearAfter)
    ensures var (memory, disk) := lived;
            var r := Ledger.Step(w, e, th);
            match e
            case EndCycle(_, _) => BothHold(r, (memory, memory), key, failAfter, clearAfter)
            case PulseAttempt(fate, staging, config, stamp, ongoing) =>
              if Candidate(w.state, fate, staging, config, stamp, ongoing).1 == []
              then BothHold(r, lived, key, failAfter, clearAfter)
              else BothHold(r, (memory, memory), key, failAfter, clearAfter)
            case Beat(fate, staging) =>
              if BeatSaves(w, fate, staging) then BothHold(r, (memory, memory), key, failAfter, clearAfter)
              else if BeatDies(w, fate, staging) then BothHold(r, (disk, disk), key, failAfter, clearAfter)
              else BothHold(r, lived, key, failAfter, clearAfter)
            case Crash => BothHold(r, (disk, disk), key, failAfter, clearAfter)
            case _ => true
  {
    var h := HistoryOf(lived.0, key);
    var r := Ledger.Step(w, e, th);
    match e
    case EndCycle(now, order) =>
      RemindersKeepDebouncing(w.state, PendingKeys(w.state.outbox), now, th, order);
      SameDebouncingKeeps(w.state, r.state, key, h, failAfter, clearAfter);
    case PulseAttempt(fate, staging, config, stamp, ongoing) =>
      PulseDebouncing(w, fate, staging, config, stamp, ongoing);
      SameDebouncingKeeps(w.state, r.state, key, h, failAfter, clearAfter);
      if Candidate(w.state, fate, staging, config, stamp, ongoing).1 != [] {
        SameDebouncingKeeps(w.state, r.disk, key, h, failAfter, clearAfter);
      }
    case Beat(fate, staging) =>
      BeatDebouncing(w, fate, staging);
      if BeatSaves(w, fate, staging) {
        SameDebouncingKeeps(w.state, r.state, key, h, failAfter, clearAfter);
        SameDebouncingKeeps(w.state, r.disk, key, h, failAfter, clearAfter);
      }
    case Crash =>
  }

  lemma {:induction false} RunsHoldHistory(es: seq<Ledger.Event>, th: Thresholds, key: string, failAfter: nat,
                                           clearAfter: nat)
    requires failAfter >= 1 && Faithful(es, th, key, failAfter, clearAfter)
    ensures BothHold(Ledger.Run(es, th), Lived(es, th), key, failAfter, clearAfter)
  {
    if es != [] {
      var init := es[..|es| - 1];
      var e := es[|es| - 1];
      forall i | 0 <= i < |init| ensures init[i] == es[i] && init[..i] == es[..i] {
      }
      RunsHoldHistory(init, th, key, failAfter, clearAfter);
      var w := Ledger.Run(init, th);
      if e.CheckRun? {
        CheckRunStep(w, Lived(init, th).0, e, th, key, failAfter, clearAfter);
      } else {
        OtherStep(w, Lived(init, th), e, th, key, failAfter, clearAfter);
      }
    }
  }

  /** In every run, a problem is open in memory exactly when, in the history of the
      check runs that the memory has lived through, some failAfter consecutive
      failures were not followed by clearAfter consecutive passes nor by the key's
      disappearance; and the same for the state on disk. */
  lemma ProblemsFollowTheHistory(es: seq<Ledger.Event>, th: Thresholds, key: string, failAfter: nat, clearAfter: nat)
    requires failAfter >= 1 && clearAfter >= 1 && Faithful(es, th, key, failAfter, clearAfter)
    ensures key in Ledger.Run(es, th).state.problems <==>
            H.OpenByHistory(HistoryOf(Lived(es, th).0, key), failAfter, clearAfter)
    ensures key in Ledger.Run(es, th).disk.problems <==>
            H.OpenByHistory(HistoryOf(Lived(es, th).1, key), failAfter, clearAfter)
  {
    RunsHoldHistory(es, th, key, failAfter, clearAfter);
    H.OpenIsOpenByHistory(HistoryOf(Lived(es, th).0, key), failAfter, clearAfter);
    H.OpenIsOpenByHistory(HistoryOf(Lived(es, th).1, key), failAfter, clearAfter);
  }

  // Who may change a key -------------------------------------------------------------------

  /** The state about one key: its problem, its counters, its queued messages. */
  ghost predicate Untouched(s: State, s': State, key: string) {
    && (key in s.problems <==> key in s'.problems)
    && (key in s.problems ==> s'.problems[key] == s.problems[key])
    && (key in s.debounce <==> key in s'.debounce)
    && (key in s.debounce ==> s'.debounce[key] == s.debounce[key])
    && (forall x: Item :: x.key == key ==> (x in s.outbox <==> x in s'.outbox))
  }

  lemma QueueTouches(s: State, section: Section, k: string, priority: Priority, message: string, key: string)
    requires k != key
    ensures Untouched(s, Queue(s, section, k, priority, message), key)
  {
    Ledger.ExceptMeans(s.outbox, k, section == Resolved);
  }

  lemma OpenedTouches(s: State, f: Finding, key: string, now: real)
    requires f.key != key
    ensures Untouched(s, Opened(s, f, now), key)
  {
    var p := Problem(f.priority, Sanitize(f.message), Second(now), false, None, None, s.nextOpening);
    var next := s.(problems := s.problems[f.key := p], nextOpening := s.nextOpening + 1);
    QueueTouches(next, New, f.key, f.priority, f.message, key);
  }

  lemma StillFailingTouches(s: State, f: Finding, key: string)
    requires f.key != key && f.key in s.problems
    ensures Untouched(s, StillFailing(s, f), key)
  {
    var p := s.problems[f.key].(message := Sanitize(f.message), priority := f.priority);
    QueueTouches(s.(problems := s.problems[f.key := p]), New, f.key, High, f.message, key);
  }

  lemma TrackTouches(s: State, f: Finding, key: string, now: real, th: Thresholds)
    requires f.key != key
    ensures Untouched(s, Track(s, f, now, th), key)
  {
    if f.verdict != Hold {
      var counted := s.(debounce := s.debounce[f.key := Count(CountersOf(s, f.key), f.verdict)]);
      assert Untouched(s, counted, key);
      if f.key in s.problems {
        StillFailingTouches(counted, f, key);
        ClearedTouches(counted, f.key, now, key);
      } else {
        OpenedTouches(counted, f, key, now);
      }
    }
  }

  lemma ClearedTouches(s: State, k: string, now: real, key: string)
    requires k in s.problems && k != key
    ensures Untouched(s, Cleared(s, k, now), key)
  {
    var p := s.problems[k];
    var next := s.(problems := s.problems - {k}, debounce := s.debounce - {k}, outbox := Except(s.outbox, k, true));
    Ledger.ExceptMeans(s.outbox, k, true);
    QueueTouches(next.(resolvedOf := next.resolvedOf[k := p.opening]), Resolved, k, p.priority, ResolvedText(p, now),
        key);
  }

  /** A check that fails touches no key but its own `agent:` key. */
  lemma AFailingCheckTouchesOnlyItsOwnKey(s: State, check: Check, findings: seq<Finding>, error: string, now: real,
                                          th: Thresholds, order: seq<string>, key: string)
    requires key != ErrorKey(check)
    ensures Untouched(s, Apply(s, check, findings, Some(error), now, th, order), key)
  {
    var report := ErrorFinding(check, Some(error));
    assert TrackAll(s, [report], now, th) == Track(s, report, now, th) by {
      assert [report][..0] == [];
    }
    TrackTouches(s, report, key, now, th);
  }

  lemma {:induction false} TrackAllCloses(s: State, findings: seq<Finding>, key: string, now: real, th: Thresholds)
    requires key in s.problems && key !in TrackAll(s, findings, now, th).problems
    ensures exists f :: f in findings && f.key == key && f.verdict == Ok
  {
    if findings != [] {
      var init := findings[..|findings| - 1];
      if key !in TrackAll(s, init, now, th).problems {
        TrackAllCloses(s, init, key, now, th);
      } else {
        var f := findings[|findings| - 1];
        if f.key != key || f.verdict == Hold {
          TrackOther(TrackAll(s, init, now, th), f, key, now, th);
        }
        assert f in findings;
      }
    }
  }

  /** A problem is closed only by a passing result about its key, by the working
      check that owns it and no longer reports it, or, for an `agent:` key, by its
      check working again. */
  lemma WhoClosesAProblem(s: State, check: Check, findings: seq<Finding>, error: Option<string>, now: real,
                          th: Thresholds,
                          order: seq<string>, key: string)
    requires key in s.problems && key !in Apply(s, check, findings, error, now, th, order).problems
    ensures error.None?
    ensures || (exists f :: f in findings && f.key == key && f.verdict == Ok)
            || (Owns(check, key) && key !in KeysOf(findings))
            || key == ErrorKey(check)
  {
    var report := ErrorFinding(check, error);
    if error.Some? {
      TrackAllCloses(s, [report], key, now, th);
    } else {
      var seen := KeysOf(findings);
      var all := findings + Vanished(check, seen, order) + [report];
      TrackAllCloses(Forget(s, check, seen), all, key, now, th);
      var f :| f in all && f.key == key && f.verdict == Ok;
      assert f in findings || f in Vanished(check, seen, order) || f == report;
    }
  }

  // The table of checks ---------------------------------------------------------------------

  /** No prefix of the table has a colon, so a key's owner is decided by what stands
      before its first one. */
  lemma {:induction false} PrefixIsTheHead(prefix: string, key: string)
    requires ':' !in prefix && OwnedBy(prefix, key)
    ensures Head(key) == prefix
  {
    if prefix != "" {
      assert key[0] == prefix[0];
      assert prefix[0] in prefix;
      if key != prefix {
        assert (prefix + ":")[1..] == prefix[1..] + ":";
        assert prefix[1..] + ":" <= key[1..];
      }
      PrefixIsTheHead(prefix[1..], key[1..]);
    } else if key != prefix {
      assert key[0] == ':';
    }
  }

  function Head(key: string): string {
    if key == "" || key[0] == ':' then "" else [key[0]] + Head(key[1..])
  }

  ghost predicate NoColons(prefixes: seq<string>) {
    forall p :: p in prefixes ==> ':' !in p
  }

  ghost predicate Apart(checks: seq<Check>) {
    forall i, j, p :: 0 <= i < j < |checks| && p in checks[i].prefixes ==> p !in checks[j].prefixes
  }

  /** The checks of one role: no prefix has a colon, and no two share one. */
  ghost predicate Disjoint(checks: seq<Check>) {
    (forall c :: c in checks ==> NoColons(c.prefixes)) && Apart(checks)
  }

  lemma AKeyHasOneOwner(checks: seq<Check>, i: nat, j: nat, key: string)
    requires Disjoint(checks) && i < j < |checks|
    ensures !(Owns(checks[i], key) && Owns(checks[j], key))
  {
    if Owns(checks[i], key) && Owns(checks[j], key) {
      var a :| 0 <= a < |checks[i].prefixes| && OwnedBy(checks[i].prefixes[a], key);
      var b :| 0 <= b < |checks[j].prefixes| && OwnedBy(checks[j].prefixes[b], key);
      assert checks[i] in checks && checks[j] in checks;
      assert checks[i].prefixes[a] in checks[i].prefixes && checks[j].prefixes[b] in checks[j].prefixes;
      PrefixIsTheHead(checks[i].prefixes[a], key);
      PrefixIsTheHead(checks[j].prefixes[b], key);
    }
  }

  const HOST_CHECKS := [
    Check("links", ["link0", "link1", "corosync-peer"]),
    Check("quorum", ["quorum", "votes", "qdevice-vote"]),
    Check("cloudflared", ["cloudflared"]),
    Check("postfix", ["postfix-queue"]),
    Check("zfs", ["zfs"]),
    Check("capacity", ["capacity"]),
    Check("smart", ["smart", "smart-read", "nvme-warning", "nvme-spare", "nvme-wear"]),
    Check("backups", ["pbs", "backup"])]
  const QDEVICE_CHECKS := [
    Check("tailscale", ["tailscale"]),
    Check("qnetd", ["qnetd"]),
    Check("ingress", ["ingress", "ingress-challenged"]),
    Check("disk", ["disk"])]
  const GUEST_CHECKS := [Check("services", ["service"]), Check("disk", ["disk"]), Check("certs", ["cert"])]
  const PBS_CHECKS := [
    Check("services", ["service"]),
    Check("zfs", ["zfs"]),
    Check("capacity", ["capacity"]),
    Check("scrub", ["scrub"]),
    Check("smart", ["smart", "smart-read", "smart-wear", "nvme-warning", "nvme-spare", "nvme-wear"]),
    Check("datastore", ["datastore", "namespace"]),
    Check("tasks", ["pbs-task"])]

  lemma TablesAreDisjoint()
    ensures Disjoint(HOST_CHECKS) && Disjoint(QDEVICE_CHECKS) && Disjoint(GUEST_CHECKS) && Disjoint(PBS_CHECKS)
  {
    HostColons();
    HostApart();
    SmallTables();
    PbsColons();
    PbsApart();
  }

  lemma FirstHostColons()
    ensures forall i :: 0 <= i < 6 ==> NoColons(HOST_CHECKS[i].prefixes)
  {
    forall i, p | 0 <= i < 6 && p in HOST_CHECKS[i].prefixes ensures ':' !in p {
    }
  }

  lemma LastHostColons()
    ensures NoColons(HOST_CHECKS[6].prefixes) && NoColons(HOST_CHECKS[7].prefixes)
  {
  }

  lemma HostColons()
    ensures forall c :: c in HOST_CHECKS ==> NoColons(c.prefixes)
  {
    FirstHostColons();
    LastHostColons();
  }

  lemma HostApart()
    ensures Apart(HOST_CHECKS)
  {
    forall i, j, p | 0 <= i < j < |HOST_CHECKS| && p in HOST_CHECKS[i].prefixes ensures p !in HOST_CHECKS[j].prefixes {
    }
  }

  lemma PbsColons()
    ensures forall c :: c in PBS_CHECKS ==> NoColons(c.prefixes)
  {
    forall c, p | c in PBS_CHECKS && p in c.prefixes ensures ':' !in p {
    }
  }

  lemma PbsApart()
    ensures Apart(PBS_CHECKS)
  {
    forall i, j, p | 0 <= i < j < |PBS_CHECKS| && p in PBS_CHECKS[i].prefixes ensures p !in PBS_CHECKS[j].prefixes {
    }
  }

  lemma SmallTables()
    ensures Disjoint(QDEVICE_CHECKS) && Disjoint(GUEST_CHECKS)
  {
    forall c, p | c in QDEVICE_CHECKS && p in c.prefixes ensures ':' !in p {
    }
    forall i, j, p | 0 <= i < j < |QDEVICE_CHECKS| && p in QDEVICE_CHECKS[i].prefixes
      ensures p !in QDEVICE_CHECKS[j].prefixes
    {
    }
    forall c, p | c in GUEST_CHECKS && p in c.prefixes ensures ':' !in p {
    }
  }
}
