/** What the monitor agent's ledger keeps over every run: check results, pulses and
    heartbeats in any order, pings lost or half-lost, and the process dying and
    restarting from its saved state at any step.
 */
module Ledger {
  import opened Common
  import opened Text
  import opened PulseBody
  import opened Agent

  // The invariant -------------------------------------------------------------------

  predicate SameClass(a: Item, b: Item) {
    a.key == b.key && Announces(a) == Announces(b)
  }

  /** Each key has at most one NEW or REMINDER and at most one RESOLVED. */
  ghost predicate NoTwo(outbox: seq<Item>) {
    && (forall i, j :: 0 <= i < j < |outbox| ==> !SameClass(outbox[i], outbox[j]))
    && (forall x :: x in outbox ==> x.section != Ongoing)
  }

  ghost predicate HasNew(outbox: seq<Item>, key: string) {
    exists x :: x in outbox && x.key == key && x.section == New
  }

  /** Every open problem is announced or has a NEW queued. */
  ghost predicate NothingUnsaid(problems: map<string, Problem>, outbox: seq<Item>) {
    forall k :: k in problems && !problems[k].announced ==> HasNew(outbox, k)
  }

  /** Every queued NEW or REMINDER is about an open problem. */
  ghost predicate NothingStale(problems: map<string, Problem>, outbox: seq<Item>) {
    forall x :: x in outbox && Announces(x) ==> x.key in problems
  }

  /** A problem counts as announced, and a RESOLVED is queued, only for an opening
      whose NEW an acknowledged pulse carried. */
  ghost predicate OnlyTold(problems: map<string, Problem>, outbox: seq<Item>, next: nat, resolvedOf: map<string, nat>,
                           told: set<nat>)
  {
    && (forall n :: n in told ==> n < next)
    && (forall k :: k in problems ==> problems[k].opening < next)
    && (forall k :: k in problems && problems[k].announced ==> problems[k].opening in told)
    && (forall x :: x in outbox && x.section == Resolved ==> x.key in resolvedOf && resolvedOf[x.key] in told)
  }

  ghost predicate Consistent(problems: map<string, Problem>, outbox: seq<Item>, next: nat, resolvedOf: map<string, nat>,
                             told: set<nat>)
  {
    NoTwo(outbox) && NothingUnsaid(problems, outbox) && NothingStale(problems, outbox)
    && OnlyTold(problems, outbox, next, resolvedOf, told)
  }

  ghost predicate Sound(s: State, told: set<nat>) {
    Consistent(s.problems, s.outbox, s.nextOpening, s.resolvedOf, told)
  }

  // The outbox operations -------------------------------------------------------------

  lemma {:induction false} ExceptMeans(outbox: seq<Item>, key: string, everything: bool)
    ensures var r := Except(outbox, key, everything);
            forall x :: x in r <==> x in outbox && !(x.key == key && (everything || Announces(x)))
  {
    if outbox != [] {
      ExceptMeans(outbox[..|outbox| - 1], key, everything);
    }
  }

  lemma {:induction false} WithoutMeans(outbox: seq<Item>, carried: seq<Item>)
    ensures forall x :: x in Without(outbox, carried) <==> x in outbox && x !in carried
  {
    if outbox != [] {
      WithoutMeans(outbox[..|outbox| - 1], carried);
    }
  }

  lemma {:induction false} WithoutShortens(outbox: seq<Item>, carried: seq<Item>)
    ensures |Without(outbox, carried)| <= |outbox|
    ensures (exists i :: 0 <= i < |outbox| && outbox[i] in carried) ==> |Without(outbox, carried)| < |outbox|
  {
    if outbox != [] {
      var init := outbox[..|outbox| - 1];
      WithoutShortens(init, carried);
      if i :| 0 <= i < |outbox| && outbox[i] in carried {
        assert i < |init| ==> init[i] in carried;
      }
    }
  }

  lemma NoTwoInit(outbox: seq<Item>)
    requires NoTwo(outbox) && outbox != []
    ensures NoTwo(outbox[..|outbox| - 1])
    ensures var last := outbox[|outbox| - 1];
            forall y :: y in outbox[..|outbox| - 1] ==> !SameClass(y, last)
  {
    var init := outbox[..|outbox| - 1];
    var last := outbox[|outbox| - 1];
    forall y | y in init ensures !SameClass(y, last) {
      var i :| 0 <= i < |init| && init[i] == y;
      assert !SameClass(outbox[i], outbox[|init|]);
    }
  }

  lemma {:induction false} ExceptKeepsNoTwo(outbox: seq<Item>, key: string, everything: bool)
    requires NoTwo(outbox)
    ensures NoTwo(Except(outbox, key, everything))
  {
    if outbox != [] {
      NoTwoInit(outbox);
      ExceptKeepsNoTwo(outbox[..|outbox| - 1], key, everything);
      ExceptMeans(outbox[..|outbox| - 1], key, everything);
    }
  }

  lemma {:induction false} WithoutKeepsNoTwo(outbox: seq<Item>, carried: seq<Item>)
    requires NoTwo(outbox)
    ensures NoTwo(Without(outbox, carried))
  {
    if outbox != [] {
      NoTwoInit(outbox);
      WithoutKeepsNoTwo(outbox[..|outbox| - 1], carried);
      WithoutMeans(outbox[..|outbox| - 1], carried);
    }
  }

  /** Queueing a message about an open problem, or a RESOLVED after a told opening. */
  lemma QueueKeeps(s: State, told: set<nat>, section: Section, key: string, priority: Priority, message: string)
    requires NoTwo(s.outbox) && NothingStale(s.problems, s.outbox)
    requires OnlyTold(s.problems, s.outbox, s.nextOpening, s.resolvedOf, told)
    requires forall k :: k in s.problems && !s.problems[k].announced && k != key ==> HasNew(s.outbox, k)
    requires section == New || section == Reminder ==> key in s.problems
    requires section == Reminder ==> s.problems[key].announced
    requires section == Resolved ==> key !in s.problems && key in s.resolvedOf && s.resolvedOf[key] in told
    requires section != Ongoing
    ensures Sound(Queue(s, section, key, priority, message), told)
  {
    var r := Queue(s, section, key, priority, message);
    ExceptMeans(s.outbox, key, section == Resolved);
    ExceptKeepsNoTwo(s.outbox, key, section == Resolved);
    var rest := Except(s.outbox, key, section == Resolved);
    var item := Item(section, key, priority, Sanitize(message));
    assert r.outbox == rest + [item];
    assert forall x :: x in r.outbox <==> x in rest || x == item;
    forall i, j | 0 <= i < j < |r.outbox| ensures !SameClass(r.outbox[i], r.outbox[j]) {
      assert r.outbox[i] in rest;
    }
    forall k | k in r.problems && !r.problems[k].announced ensures HasNew(r.outbox, k) {
      if k != key {
        var x :| x in s.outbox && x.key == k && x.section == New;
        assert x in r.outbox;
      } else {
        assert item in r.outbox;
      }
    }
  }

  lemma RemoveProblemKeeps(s: State, told: set<nat>, key: string)
    requires Sound(s, told)
    ensures Sound(s.(problems := s.problems - {key}, debounce := s.debounce - {key},
            outbox := Except(s.outbox, key, true)), told)
  {
    ExceptMeans(s.outbox, key, true);
    ExceptKeepsNoTwo(s.outbox, key, true);
    var r := s.(problems := s.problems - {key}, debounce := s.debounce - {key}, outbox := Except(s.outbox, key, true));
    forall k | k in r.problems && !r.problems[k].announced ensures HasNew(r.outbox, k) {
      var x :| x in s.outbox && x.key == k && x.section == New;
      assert x in r.outbox;
    }
  }

  // Findings ------------------------------------------------------------------------------

  lemma OpenedKeeps(s: State, told: set<nat>, f: Finding, now: real)
    requires Sound(s, told) && f.key !in s.problems
    ensures Sound(Opened(s, f, now), told)
  {
    var p := Problem(f.priority, Sanitize(f.message), Second(now), false, None, None, s.nextOpening);
    QueueKeeps(s.(problems := s.problems[f.key := p], nextOpening := s.nextOpening + 1), told, New, f.key, f.priority,
        f.message);
  }

  lemma StillFailingKeeps(s: State, told: set<nat>, f: Finding)
    requires Sound(s, told) && f.key in s.problems
    ensures Sound(StillFailing(s, f), told)
  {
    var p := s.problems[f.key].(message := Sanitize(f.message), priority := f.priority);
    var next := s.(problems := s.problems[f.key := p]);
    assert Sound(next, told);
    if f.priority == High && s.problems[f.key].priority == Low {
      QueueKeeps(next, told, New, f.key, High, f.message);
    }
  }

  lemma ClearedKeeps(s: State, told: set<nat>, key: string, now: real)
    requires Sound(s, told) && key in s.problems
    ensures Sound(Cleared(s, key, now), told)
  {
    var p := s.problems[key];
    RemoveProblemKeeps(s, told, key);
    ExceptMeans(s.outbox, key, true);
    var next := s.(problems := s.problems - {key}, debounce := s.debounce - {key},
        outbox := Except(s.outbox, key, true));
    if p.announced {
      QueueKeeps(next.(resolvedOf := next.resolvedOf[key := p.opening]), told, Resolved, key, p.priority,
          ResolvedText(p, now));
    }
  }

  lemma TrackKeeps(s: State, told: set<nat>, f: Finding, now: real, th: Thresholds)
    requires Sound(s, told)
    ensures Sound(Track(s, f, now, th), told)
  {
    var counted := s.(debounce := s.debounce[f.key := Count(CountersOf(s, f.key), f.verdict)]);
    if f.verdict == Hold {
      HoldKeeps(s, told, f, now, th);
    } else if f.key !in s.problems {
      OpenedKeeps(counted, told, f, now);
    } else if f.verdict == Failing {
      StillFailingKeeps(counted, told, f);
    } else {
      ClearedKeeps(counted, told, f.key, now);
    }
  }

  lemma HoldKeeps(s: State, told: set<nat>, f: Finding, now: real, th: Thresholds)
    requires Sound(s, told) && f.verdict == Hold
    ensures Sound(Track(s, f, now, th), told)
  {
  }

  lemma {:induction false} TrackAllKeeps(s: State, told: set<nat>, findings: seq<Finding>, now: real, th: Thresholds)
    requires Sound(s, told)
    ensures Sound(TrackAll(s, findings, now, th), told)
  {
    if findings != [] {
      TrackAllKeeps(s, told, findings[..|findings| - 1], now, th);
      TrackKeeps(TrackAll(s, findings[..|findings| - 1], now, th), told, findings[|findings| - 1], now, th);
    }
  }

  lemma ApplyKeeps(s: State, told: set<nat>, check: Check, findings: seq<Finding>, error: Option<string>, now: real,
                   th: Thresholds, order: seq<string>)
    requires Sound(s, told)
    ensures Sound(Apply(s, check, findings, error, now, th, order), told)
  {
    var report := ErrorFinding(check, error);
    TrackAllKeeps(s, told, [report], now, th);
    TrackAllKeeps(Forget(s, check, KeysOf(findings)), told,
                  findings + Vanished(check, KeysOf(findings), order) + [report], now, th);
  }

  lemma {:induction false} RemindersKeep(s: State, told: set<nat>, pending: set<string>, now: real, th: Thresholds,
                                         order: seq<string>)
    requires Sound(s, told)
    ensures var r := QueueReminders(s, pending, now, th, order);
            Sound(r, told) && r.problems == s.problems
  {
    if order != [] {
      var init := order[..|order| - 1];
      var key := order[|order| - 1];
      RemindersKeep(s, told, pending, now, th, init);
      if key in s.problems && key !in pending && ReminderDue(s.problems[key], now, th) {
        QueueKeeps(QueueReminders(s, pending, now, th, init), told, Reminder, key, s.problems[key].priority,
            s.problems[key].message);
      }
    }
  }

  // Deliveries ------------------------------------------------------------------------------

  lemma {:induction false} MarkToldMeans(problems: map<string, Problem>, carried: seq<Item>, now: real)
    ensures var r := MarkTold(problems, carried, now);
            && r.Keys == problems.Keys
            && (forall k :: k in r ==> r[k].opening == problems[k].opening)
            && (forall k :: k in r ==> (r[k].announced <==> problems[k].announced || HasNew(carried, k)))
  {
    if carried != [] {
      var init := carried[..|carried| - 1];
      MarkToldMeans(problems, init, now);
      assert forall k :: HasNew(carried, k) <==>
          HasNew(init, k) || (carried[|init|].section == New && carried[|init|].key == k) by {
        forall k ensures HasNew(carried, k) <==>
              HasNew(init, k) || (carried[|init|].section == New && carried[|init|].key == k) {
          assert forall x :: x in carried <==> x in init || x == carried[|init|];
        }
      }
    }
  }

  /** An acknowledged pulse removes exactly the carried items and keeps the ledger. */
  lemma DeliveredKeeps(s: State, told: set<nat>, carried: seq<Item>, now: real)
    requires Sound(s, told) && forall x :: x in carried ==> x in s.outbox
    ensures Sound(Delivered(s, carried, now), told + ToldBy(s, carried))
    ensures forall x :: x in Delivered(s, carried, now).outbox <==> x in s.outbox && x !in carried
    ensures carried != [] ==> |Delivered(s, carried, now).outbox| < |s.outbox|
  {
    var r := Delivered(s, carried, now);
    var told' := told + ToldBy(s, carried);
    WithoutMeans(s.outbox, carried);
    WithoutKeepsNoTwo(s.outbox, carried);
    WithoutShortens(s.outbox, carried);
    MarkToldMeans(s.problems, carried, now);
    if carried != [] {
      assert carried[0] in s.outbox;
    }
    forall k | k in r.problems && !r.problems[k].announced ensures HasNew(r.outbox, k) {
      var x :| x in s.outbox && x.key == k && x.section == New;
      assert x !in carried;
      assert x in r.outbox;
    }
    forall k | k in r.problems && r.problems[k].announced ensures r.problems[k].opening in told' {
      if !s.problems[k].announced {
        var x :| x in carried && x.key == k && x.section == New;
        assert s.problems[k].opening in ToldBy(s, carried);
      }
    }
  }

  // Whole runs ------------------------------------------------------------------------------

  /** One lock-held step, or the death of the process between two of them. A cycle
      is some check runs and its end, which saves. */
  datatype Event =
    | CheckRun(check: Check, findings: seq<Finding>, error: Option<string>, now: real, order: seq<string>)
    | EndCycle(now: real, order: seq<string>)
    | PulseAttempt(fate: Fate, staging: bool, config: Config, stamp: Stamp, ongoing: seq<Item>)
    | Beat(fate: Fate, staging: bool)
    | Crash

  function Step(w: World, e: Event, th: Thresholds): World {
    match e
    case CheckRun(check, findings, error, now, order) =>
      w.(state := Apply(w.state, check, findings, error, now, th, order))
    case EndCycle(now, order) =>
      Save(w.(state := QueueReminders(w.state, PendingKeys(w.state.outbox), now, th, order)))
    case PulseAttempt(fate, staging, config, stamp, ongoing) => Pulse(w, fate, staging, config, stamp, ongoing)
    case Beat(fate, staging) => Heartbeat(w, fate, staging)
    case Crash => Restart(w)
  }

  function Run(es: seq<Event>, th: Thresholds): World {
    if es == [] then INITIAL else Step(Run(es[..|es| - 1], th), es[|es| - 1], th)
  }

  ghost predicate SoundWorld(w: World) {
    Sound(w.state, w.told) && Sound(w.disk, w.told)
  }

  /** While /fail is the last ping the server handled, the clear is still pending,
      in memory and on disk. */
  ghost predicate ClearOwed(w: World) {
    w.last == Some(FailPing) ==> w.state.pendingClear && w.disk.pendingClear
  }

  lemma CandidateMeans(s: State, fate: Fate, staging: bool, config: Config, stamp: Stamp, ongoing: seq<Item>)
    ensures var (kept, carried) := Candidate(s, fate, staging, config, stamp, ongoing);
            && (forall x :: x in carried ==> x in s.outbox)
            && kept == s.(pulseTimes := kept.pulseTimes, rateLimited := kept.rateLimited)
  {
    var (kept, allowed) := RateAllows(s, fate.now);
    var header := HeaderLines(config, stamp, fate.pulse, kept.rateLimited);
    PulsesCarryQueuedItems(header, kept.outbox, ongoing);
  }

  lemma PulsesCarryQueuedItems(header: seq<string>, outbox: seq<Item>, ongoing: seq<Item>)
    ensures forall x :: x in Result(header, outbox, ongoing).1 ==> x in outbox
  {
    CarriedComesFromTheOutbox(RendererOf(PriorityOf(outbox), header), outbox, ongoing);
  }

  lemma PulseKeeps(w: World, fate: Fate, staging: bool, config: Config, stamp: Stamp, ongoing: seq<Item>)
    requires SoundWorld(w) && ClearOwed(w)
    ensures SoundWorld(Pulse(w, fate, staging, config, stamp, ongoing))
    ensures ClearOwed(Pulse(w, fate, staging, config, stamp, ongoing))
  {
    var (kept, carried) := Candidate(w.state, fate, staging, config, stamp, ongoing);
    CandidateMeans(w.state, fate, staging, config, stamp, ongoing);
    var pending := Prepared(w, kept, fate);
    assert Sound(pending.state, w.told);
    FailStepKeeps(pending, fate, carried);
  }

  lemma ToldMore(s: State, told: set<nat>, carried: seq<Item>)
    requires Sound(s, told)
    ensures Sound(s, told + ToldBy(s, carried))
  {
  }

  lemma FailStepKeeps(w: World, fate: Fate, carried: seq<Item>)
    requires SoundWorld(w) && w.disk == w.state && w.state.pendingClear
    requires forall x :: x in carried ==> x in w.state.outbox
    ensures SoundWorld(FailStep(w, fate, carried)) && ClearOwed(FailStep(w, fate, carried))
  {
    if !DiesAt(fate, 1) && fate.fail == Acked {
      DeliverStepKeeps(Send(w, FailPing, fate.fail), fate, carried);
    }
  }

  lemma DeliverStepKeeps(w: World, fate: Fate, carried: seq<Item>)
    requires SoundWorld(w) && w.disk == w.state && w.state.pendingClear
    requires forall x :: x in carried ==> x in w.state.outbox
    ensures SoundWorld(DeliverStep(w, fate, carried)) && ClearOwed(DeliverStep(w, fate, carried))
  {
    DeliveredKeeps(w.state, w.told, carried, fate.now);
    ToldMore(w.state, w.told, carried);
    var delivered := Handed(w, carried, fate.now);
    ClearStepKeeps(Save(delivered), fate, true);
  }

  lemma ClearStepKeeps(w: World, fate: Fate, always: bool)
    requires SoundWorld(w) && ClearOwed(w)
    ensures SoundWorld(ClearStep(w, fate, always)) && ClearOwed(ClearStep(w, fate, always))
  {
    var sent := Send(w, ClearPing, fate.clear);
    var noted := if fate.clear == Acked then Save(sent.(state := sent.state.(pendingClear := false))) else sent;
    assert SoundWorld(noted) && ClearOwed(noted);
    BeatStepKeeps(noted, fate, always);
  }

  lemma BeatStepKeeps(w: World, fate: Fate, always: bool)
    requires SoundWorld(w) && ClearOwed(w)
    ensures SoundWorld(BeatStep(w, fate, always)) && ClearOwed(BeatStep(w, fate, always))
  {
  }

  lemma CheckRunKeeps(w: World, e: Event, th: Thresholds)
    requires e.CheckRun? && SoundWorld(w) && ClearOwed(w)
    ensures SoundWorld(Step(w, e, th)) && ClearOwed(Step(w, e, th))
  {
    ApplyKeeps(w.state, w.told, e.check, e.findings, e.error, e.now, th, e.order);
    ApplyKeepsPending(w.state, e.check, e.findings, e.error, e.now, th, e.order);
  }

  lemma EndCycleKeeps(w: World, e: Event, th: Thresholds)
    requires e.EndCycle? && SoundWorld(w) && ClearOwed(w)
    ensures SoundWorld(Step(w, e, th)) && ClearOwed(Step(w, e, th))
  {
    RemindersKeep(w.state, w.told, PendingKeys(w.state.outbox), e.now, th, e.order);
    RemindersKeepPending(w.state, PendingKeys(w.state.outbox), e.now, th, e.order);
  }

  lemma BeatKeeps(w: World, e: Event, th: Thresholds)
    requires e.Beat? && SoundWorld(w) && ClearOwed(w)
    ensures SoundWorld(Step(w, e, th)) && ClearOwed(Step(w, e, th))
  {
    ClearStepKeeps(w, e.fate, false);
    BeatStepKeeps(w, e.fate, false);
  }

  /** In every reachable world, in memory and on disk: every open problem is
      announced or has a NEW queued; every NEW and REMINDER is about an open
      problem; no key has two of either kind; announced problems and queued
      RESOLVEDs are about openings that were told; and a /fail that the server
      still shows has its clear pending. */
  lemma {:induction false} LedgerStaysSound(es: seq<Event>, th: Thresholds)
    ensures SoundWorld(Run(es, th)) && ClearOwed(Run(es, th))
  {
    if es != [] {
      var w := Run(es[..|es| - 1], th);
      var e := es[|es| - 1];
      LedgerStaysSound(es[..|es| - 1], th);
      match e
      case CheckRun(_, _, _, _, _) => CheckRunKeeps(w, e, th);
      case EndCycle(_, _) => EndCycleKeeps(w, e, th);
      case PulseAttempt(fate, staging, config, stamp, ongoing) => PulseKeeps(w, fate, staging, config, stamp, ongoing);
      case Beat(_, _) => BeatKeeps(w, e, th);
      case Crash =>
    }
  }

  lemma TrackKeepsPending(s: State, f: Finding, now: real, th: Thresholds)
    ensures Track(s, f, now, th).pendingClear == s.pendingClear
  {
  }

  lemma {:induction false} TrackAllKeepsPending(s: State, findings: seq<Finding>, now: real, th: Thresholds)
    ensures TrackAll(s, findings, now, th).pendingClear == s.pendingClear
  {
    if findings != [] {
      TrackAllKeepsPending(s, findings[..|findings| - 1], now, th);
      TrackKeepsPending(TrackAll(s, findings[..|findings| - 1], now, th), findings[|findings| - 1], now, th);
    }
  }

  lemma ApplyKeepsPending(s: State, check: Check, findings: seq<Finding>, error: Option<string>, now: real,
                          th: Thresholds, order: seq<string>)
    ensures Apply(s, check, findings, error, now, th, order).pendingClear == s.pendingClear
  {
    TrackAllKeepsPending(s, [ErrorFinding(check, error)], now, th);
    TrackAllKeepsPending(Forget(s, check, KeysOf(findings)),
                         findings + Vanished(check, KeysOf(findings), order) + [ErrorFinding(check, error)], now, th);
  }

  lemma {:induction false} RemindersKeepPending(s: State, pending: set<string>, now: real, th: Thresholds,
                                                order: seq<string>)
    ensures QueueReminders(s, pending, now, th, order).pendingClear == s.pendingClear
  {
    if order != [] {
      RemindersKeepPending(s, pending, now, th, order[..|order| - 1]);
    }
  }

  // Pings in order ----------------------------------------------------------------------------

  /** The pings of one lock-held sequence; `whole` unless the process died in it. */
  ghost predicate IsSequence(sent: seq<Ping>, whole: bool) {
    && (sent <= [FailPing, ClearPing, HeartbeatPing] || sent <= [ClearPing, HeartbeatPing] || sent <= [HeartbeatPing])
    && (whole && ClearPing in sent ==> sent[|sent| - 1] == HeartbeatPing)
  }

  ghost predicate Sends(w: World, w': World, whole: bool) {
    w.sends <= w'.sends && IsSequence(w'.sends[|w.sends|..], whole)
  }

  lemma HeartbeatSends(w: World, fate: Fate, staging: bool)
    ensures Sends(w, Heartbeat(w, fate, staging), fate.dies.None?)
  {
    ClearStepSends(w, fate, false);
  }

  lemma PulseSends(w: World, fate: Fate, staging: bool, config: Config, stamp: Stamp, ongoing: seq<Item>)
    ensures Sends(w, Pulse(w, fate, staging, config, stamp, ongoing), fate.dies.None?)
  {
    var (kept, carried) := Candidate(w.state, fate, staging, config, stamp, ongoing);
    FailStepSends(Prepared(w, kept, fate), fate, carried);
  }

  /** A pulse or a heartbeat follows every clear it attempts with a heartbeat
      attempt, unless the process dies in between. */
  lemma ClearsAreFollowedByHeartbeats(w: World, fate: Fate, staging: bool, config: Config, stamp: Stamp,
                                      ongoing: seq<Item>)
    ensures Sends(w, Pulse(w, fate, staging, config, stamp, ongoing), fate.dies.None?)
    ensures Sends(w, Heartbeat(w, fate, staging), fate.dies.None?)
  {
    PulseSends(w, fate, staging, config, stamp, ongoing);
    HeartbeatSends(w, fate, staging);
  }

  lemma ClearStepSends(w: World, fate: Fate, always: bool)
    ensures BeatStep(w, fate, always).sends == w.sends + [HeartbeatPing]
    ensures ClearStep(w, fate, always).sends ==
            w.sends + if DiesAt(fate, 4) || DiesAt(fate, 5) then [ClearPing] else [ClearPing, HeartbeatPing]
  {
  }

  lemma FailStepSends(w: World, fate: Fate, carried: seq<Item>)
    ensures FailStep(w, fate, carried).sends ==
            w.sends + if DiesAt(fate, 1) || fate.fail != Acked || DiesAt(fate, 2) || DiesAt(fate, 3) then [FailPing]
                      else if DiesAt(fate, 4) || DiesAt(fate, 5) then [FailPing, ClearPing]
                      else [FailPing, ClearPing, HeartbeatPing]
  {
    var sent := Send(w, FailPing, fate.fail);
    var delivered := Handed(sent, carried, fate.now);
    ClearStepSends(Save(delivered), fate, true);
  }

  // What is not promised -------------------------------------------------------------------------

  /** f resolves its problem. */
  predicate Resolves(s: State, f: Finding, th: Thresholds) {
    f.verdict == Ok && f.key in s.problems && CountersOf(s, f.key).passes + 1 >= ThresholdsFor(f.kind, th).1
  }

  ghost predicate Mentions(outbox: seq<Item>, key: string) {
    exists y :: y in outbox && y.key == key
  }

  /** A queued RESOLVED leaves the outbox without being delivered exactly when its
      key has reopened and now clears again; then a RESOLVED for the new opening
      takes its place if that opening was announced, and nothing does otherwise. */
  lemma WhenAResolvedIsDropped(s: State, x: Item, f: Finding, now: real, th: Thresholds)
    requires x in s.outbox && x.section == Resolved
    ensures var r := Track(s, f, now, th);
            if f.key == x.key && Resolves(s, f, th)
            then Mentions(r.outbox, x.key) <==> s.problems[x.key].announced
            else x in r.outbox
  {
    var counted := s.(debounce := s.debounce[f.key := Count(CountersOf(s, f.key), f.verdict)]);
    if Resolves(s, f, th) {
      ClearedOutbox(counted, f.key, now, x);
    } else {
      ExceptMeans(s.outbox, f.key, false);
    }
  }

  lemma ClearedOutbox(s: State, key: string, now: real, x: Item)
    requires key in s.problems && x in s.outbox
    ensures var r := Cleared(s, key, now);
            && (Mentions(r.outbox, key) <==> s.problems[key].announced)
            && (x.key != key ==> x in r.outbox)
  {
    var rest := Except(s.outbox, key, true);
    ExceptMeans(s.outbox, key, true);
    ExceptMeans(rest, key, true);
    if s.problems[key].announced {
      var last := Item(Resolved, key, s.problems[key].priority, Sanitize(ResolvedText(s.problems[key], now)));
      assert Cleared(s, key, now).outbox == Except(rest, key, true) + [last];
      assert last in Cleared(s, key, now).outbox;
    }
  }

  /** While the findings are tracked in order, one of them resolves the key's problem. */
  ghost predicate ResolvesAgain(s: State, findings: seq<Finding>, key: string, now: real, th: Thresholds) {
    exists i :: 0 <= i < |findings| && findings[i].key == key
        && Resolves(TrackAll(s, findings[..i], now, th), findings[i], th)
  }

  lemma {:induction false} TrackAllKeepsAResolved(s: State, x: Item, findings: seq<Finding>, now: real, th: Thresholds)
    requires x in s.outbox && x.section == Resolved && !ResolvesAgain(s, findings, x.key, now, th)
    ensures x in TrackAll(s, findings, now, th).outbox
  {
    if findings != [] {
      var init := findings[..|findings| - 1];
      forall i | 0 <= i < |init| && init[i].key == x.key
        ensures !Resolves(TrackAll(s, init[..i], now, th), init[i], th)
      {
        assert findings[..i] == init[..i] && findings[i] == init[i];
      }
      TrackAllKeepsAResolved(s, x, init, now, th);
      WhenAResolvedIsDropped(TrackAll(s, init, now, th), x, findings[|findings| - 1], now, th);
    }
  }

  lemma {:induction false} RemindersKeepAResolved(s: State, x: Item, pending: set<string>, now: real, th: Thresholds,
                                                  order: seq<string>)
    requires x in s.outbox && x.section == Resolved
    ensures x in QueueReminders(s, pending, now, th, order).outbox
  {
    if order != [] {
      RemindersKeepAResolved(s, x, pending, now, th, order[..|order| - 1]);
      ExceptMeans(QueueReminders(s, pending, now, th, order[..|order| - 1]).outbox, order[|order| - 1], false);
    }
  }

  /** The RESOLVED of the key's opening o is queued. */
  ghost predicate HoldsResolved(s: State, key: string, o: nat) {
    && (exists y :: y in s.outbox && y.key == key && y.section == Resolved)
    && key in s.resolvedOf && s.resolvedOf[key] == o
  }

  /** Openings are numbered upwards: a key's last resolved one is before its open one. */
  ghost predicate InOrder(problems: map<string, Problem>, next: nat, resolvedOf: map<string, nat>) {
    && (forall k :: k in problems ==> problems[k].opening < next)
    && (forall k :: k in resolvedOf ==> resolvedOf[k] < next)
    && (forall k :: k in problems && k in resolvedOf ==> resolvedOf[k] < problems[k].opening)
  }

  ghost predicate OpeningsInOrder(s: State) {
    InOrder(s.problems, s.nextOpening, s.resolvedOf)
  }

  /** Nothing is queued or open about the key's opening o any more, nor ever will be. */
  ghost predicate Past(s: State, key: string, o: nat) {
    && (forall y :: y in s.outbox && y.key == key && y.section == Resolved ==>
                      key in s.resolvedOf && s.resolvedOf[key] > o)
    && (key in s.problems ==> s.problems[key].opening > o) && s.nextOpening > o
  }

  lemma OpenedKeepsOrder(s: State, f: Finding, now: real)
    requires OpeningsInOrder(s) && f.key !in s.problems
    ensures OpeningsInOrder(Opened(s, f, now))
  {
  }

  lemma StillFailingKeepsOrder(s: State, f: Finding)
    requires OpeningsInOrder(s) && f.key in s.problems
    ensures OpeningsInOrder(StillFailing(s, f))
  {
  }

  lemma ClearedKeepsOrder(s: State, key: string, now: real)
    requires OpeningsInOrder(s) && key in s.problems
    ensures OpeningsInOrder(Cleared(s, key, now))
  {
  }

  lemma TrackKeepsOrder(s: State, f: Finding, now: real, th: Thresholds)
    requires OpeningsInOrder(s)
    ensures OpeningsInOrder(Track(s, f, now, th))
  {
    var counted := s.(debounce := s.debounce[f.key := Count(CountersOf(s, f.key), f.verdict)]);
    if f.verdict != Hold {
      if f.key in s.problems {
        StillFailingKeepsOrder(counted, f);
        ClearedKeepsOrder(counted, f.key, now);
      } else {
        OpenedKeepsOrder(counted, f, now);
      }
    }
  }

  lemma {:induction false} TrackAllKeepsOrder(s: State, findings: seq<Finding>, now: real, th: Thresholds)
    requires OpeningsInOrder(s)
    ensures OpeningsInOrder(TrackAll(s, findings, now, th))
  {
    if findings != [] {
      TrackAllKeepsOrder(s, findings[..|findings| - 1], now, th);
      TrackKeepsOrder(TrackAll(s, findings[..|findings| - 1], now, th), findings[|findings| - 1], now, th);
    }
  }

  lemma FailingKeepsPast(s: State, f: Finding, now: real, key: string, o: nat)
    requires Past(s, key, o)
    ensures f.key in s.problems ==> Past(StillFailing(s, f), key, o)
    ensures f.key !in s.problems ==> Past(Opened(s, f, now), key, o)
  {
    ExceptMeans(s.outbox, f.key, false);
  }

  lemma ClearedKeepsPast(s: State, cleared: string, now: real, key: string, o: nat)
    requires Past(s, key, o) && cleared in s.problems
    ensures Past(Cleared(s, cleared, now), key, o)
  {
    ClearedLeaves(s, cleared, now);
  }

  lemma TrackKeepsPast(s: State, f: Finding, now: real, th: Thresholds, key: string, o: nat)
    requires Past(s, key, o)
    ensures Past(Track(s, f, now, th), key, o)
  {
    var counted := s.(debounce := s.debounce[f.key := Count(CountersOf(s, f.key), f.verdict)]);
    assert Past(counted, key, o);
    if f.verdict == Failing {
      FailingKeepsPast(counted, f, now, key, o);
    } else if f.verdict == Ok && f.key in s.problems {
      ClearedKeepsPast(counted, f.key, now, key, o);
    }
  }

  /** After a problem is cleared only its own RESOLVED, if any, is queued about its key. */
  lemma ClearedLeaves(s: State, key: string, now: real)
    requires key in s.problems
    ensures var r := Cleared(s, key, now);
            && key !in r.problems && r.nextOpening == s.nextOpening
            && (forall k :: k != key ==>
                              (k in r.problems <==> k in s.problems)
                              && (k in s.problems ==> r.problems[k] == s.problems[k]))
            && (forall y :: y in r.outbox && y.key != key ==> y in s.outbox)
            && (forall y :: y in r.outbox && y.key == key ==>
                              key in r.resolvedOf && r.resolvedOf[key] == s.problems[key].opening)
            && (forall k :: k != key && k in s.resolvedOf ==> k in r.resolvedOf && r.resolvedOf[k] == s.resolvedOf[k])
  {
    var rest := Except(s.outbox, key, true);
    ExceptMeans(s.outbox, key, true);
    ExceptMeans(rest, key, true);
  }

  lemma AResolvedIsOver(s: State, f: Finding, now: real, th: Thresholds, o: nat)
    requires OpeningsInOrder(s) && HoldsResolved(s, f.key, o) && Resolves(s, f, th)
    ensures Past(Track(s, f, now, th), f.key, o)
  {
    ClearedLeaves(s.(debounce := s.debounce[f.key := Count(CountersOf(s, f.key), f.verdict)]), f.key, now);
  }

  lemma AResolvedIsHeld(s: State, f: Finding, now: real, th: Thresholds, key: string, o: nat)
    requires HoldsResolved(s, key, o) && !(f.key == key && Resolves(s, f, th))
    ensures HoldsResolved(Track(s, f, now, th), key, o)
  {
    var y :| y in s.outbox && y.key == key && y.section == Resolved;
    WhenAResolvedIsDropped(s, y, f, now, th);
  }

  ghost predicate HeldOrOver(s: State, key: string, o: nat, over: bool) {
    OpeningsInOrder(s) && if over then Past(s, key, o) else HoldsResolved(s, key, o)
  }

  lemma OneMoreHeldOrOver(s: State, f: Finding, now: real, th: Thresholds, key: string, o: nat, over: bool)
    requires HeldOrOver(s, key, o, over)
    ensures HeldOrOver(Track(s, f, now, th), key, o, over || (f.key == key && Resolves(s, f, th)))
  {
    TrackKeepsOrder(s, f, now, th);
    if over {
      TrackKeepsPast(s, f, now, th, key, o);
    } else if f.key == key && Resolves(s, f, th) {
      AResolvedIsOver(s, f, now, th, o);
    } else {
      AResolvedIsHeld(s, f, now, th, key, o);
    }
  }

  lemma {:induction false} TrackAllHoldsOrIsOver(s: State, findings: seq<Finding>, now: real, th: Thresholds,
                                                 key: string, o: nat)
    requires OpeningsInOrder(s) && HoldsResolved(s, key, o)
    ensures HeldOrOver(TrackAll(s, findings, now, th), key, o, ResolvesAgain(s, findings, key, now, th))
  {
    if findings != [] {
      var init, f := findings[..|findings| - 1], findings[|findings| - 1];
      TrackAllHoldsOrIsOver(s, init, now, th, key, o);
      OneMoreHeldOrOver(TrackAll(s, init, now, th), f, now, th, key, o, ResolvesAgain(s, init, key, now, th));
      ResolvesAgainOneMore(s, init, f, key, now, th);
      assert findings == init + [f];
    }
  }

  lemma ResolvesAgainOneMore(s: State, init: seq<Finding>, f: Finding, key: string, now: real, th: Thresholds)
    ensures ResolvesAgain(s, init + [f], key, now, th)
       <==> ResolvesAgain(s, init, key, now, th) || (f.key == key && Resolves(TrackAll(s, init, now, th), f, th))
  {
    var all := init + [f];
    assert all[..|init|] == init;
    assert forall i :: 0 <= i < |init| ==> all[..i] == init[..i] && all[i] == init[i];
  }

  /** The state and the findings that a check run tracks. */
  function TrackedBy(s: State, check: Check, findings: seq<Finding>, error: Option<string>, order: seq<string>)
    : (State, seq<Finding>)
  {
    if error.Some? then (s, [ErrorFinding(check, error)])
    else (Forget(s, check, KeysOf(findings)),
          findings + Vanished(check, KeysOf(findings), order) + [ErrorFinding(check, error)])
  }

  /** What a pulse carries away: nothing unless the agent learns that it arrived. */
  function CarriedAway(w: World, e: Event): seq<Item>
    requires e.PulseAttempt?
  {
    if e.fate.fail == Acked then Candidate(w.state, e.fate, e.staging, e.config, e.stamp, e.ongoing).1 else []
  }

  lemma FailStepOutbox(w: World, fate: Fate, carried: seq<Item>)
    requires fate.dies.None?
    ensures FailStep(w, fate, carried).state.outbox
            == if fate.fail == Acked then Without(w.state.outbox, carried) else w.state.outbox
  {
  }

  lemma PulseOutbox(w: World, e: Event, th: Thresholds)
    requires e.PulseAttempt? && e.fate.dies.None?
    ensures forall x :: x in Step(w, e, th).state.outbox <==> x in w.state.outbox && x !in CarriedAway(w, e)
  {
    var (kept, carried) := Candidate(w.state, e.fate, e.staging, e.config, e.stamp, e.ongoing);
    CandidateMeans(w.state, e.fate, e.staging, e.config, e.stamp, e.ongoing);
    WithoutMeans(w.state.outbox, carried);
    FailStepOutbox(Prepared(w, kept, e.fate), e.fate, carried);
    assert Prepared(w, kept, e.fate).state.outbox == w.state.outbox;
  }

  predicate Survives(e: Event) {
    match e
    case PulseAttempt(fate, _, _, _, _) => fate.dies.None?
    case Beat(fate, _) => fate.dies.None?
    case Crash => false
    case _ => true
  }

  /** A check run keeps the queued RESOLVED of an opening exactly unless it resolves the
      key again; then that RESOLVED is gone for good. */
  lemma ACheckRunKeepsAResolvedIff(w: World, e: Event, th: Thresholds, key: string, o: nat)
    requires e.CheckRun? && OpeningsInOrder(w.state) && HoldsResolved(w.state, key, o)
    ensures var (s, tracked) := TrackedBy(w.state, e.check, e.findings, e.error, e.order);
            var t := Step(w, e, th).state;
            && (HoldsResolved(t, key, o) <==> !ResolvesAgain(s, tracked, key, e.now, th))
            && (ResolvesAgain(s, tracked, key, e.now, th) ==> Past(t, key, o))
  {
    var (s, tracked) := TrackedBy(w.state, e.check, e.findings, e.error, e.order);
    TrackAllHoldsOrIsOver(s, tracked, e.now, th, key, o);
    assert Step(w, e, th).state == TrackAll(s, tracked, e.now, th);
  }

  predicate SameOpenings(s: State, t: State) {
    && t.nextOpening == s.nextOpening && t.resolvedOf == s.resolvedOf && t.problems.Keys == s.problems.Keys
    && forall k :: k in s.problems ==> t.problems[k].opening == s.problems[k].opening
  }

  lemma {:induction false} RemindersKeepOpenings(s: State, pending: set<string>, now: real, th: Thresholds,
                                                 order: seq<string>)
    ensures SameOpenings(s, QueueReminders(s, pending, now, th, order))
  {
    if order != [] {
      RemindersKeepOpenings(s, pending, now, th, order[..|order| - 1]);
    }
  }

  ghost predicate WorldInOrder(w: World) {
    OpeningsInOrder(w.state) && OpeningsInOrder(w.disk)
  }

  lemma ClearStepKeepsOrder(w: World, fate: Fate, always: bool)
    requires WorldInOrder(w)
    ensures WorldInOrder(ClearStep(w, fate, always)) && WorldInOrder(BeatStep(w, fate, always))
  {
  }

  lemma FailStepKeepsOrder(w: World, fate: Fate, carried: seq<Item>)
    requires WorldInOrder(w)
    ensures WorldInOrder(FailStep(w, fate, carried))
  {
    var sent := Send(w, FailPing, fate.fail);
    MarkToldMeans(sent.state.problems, carried, fate.now);
    var delivered := Handed(sent, carried, fate.now);
    ClearStepKeepsOrder(Save(delivered), fate, true);
  }

  lemma PulseKeepsOrder(w: World, e: Event, th: Thresholds)
    requires WorldInOrder(w) && e.PulseAttempt?
    ensures WorldInOrder(Step(w, e, th))
  {
    var (kept, carried) := Candidate(w.state, e.fate, e.staging, e.config, e.stamp, e.ongoing);
    CandidateMeans(w.state, e.fate, e.staging, e.config, e.stamp, e.ongoing);
    FailStepKeepsOrder(Prepared(w, kept, e.fate), e.fate, carried);
  }

  lemma StepKeepsOrder(w: World, e: Event, th: Thresholds)
    requires WorldInOrder(w)
    ensures WorldInOrder(Step(w, e, th))
  {
    match e
    case CheckRun(check, findings, error, now, order) =>
      var (s, tracked) := TrackedBy(w.state, check, findings, error, order);
      TrackAllKeepsOrder(s, tracked, now, th);
    case EndCycle(now, order) => RemindersKeepOpenings(w.state, PendingKeys(w.state.outbox), now, th, order);
    case PulseAttempt(_, _, _, _, _) => PulseKeepsOrder(w, e, th);
    case Beat(fate, _) => ClearStepKeepsOrder(w, fate, false);
    case Crash =>
  }

  lemma {:induction false} OpeningsStayInOrder(es: seq<Event>, th: Thresholds)
    ensures WorldInOrder(Run(es, th))
  {
    if es != [] {
      OpeningsStayInOrder(es[..|es| - 1], th);
      StepKeepsOrder(Run(es[..|es| - 1], th), es[|es| - 1], th);
    }
  }

  /** So in every run, a check run drops the queued RESOLVED of an opening exactly when
      it resolves the key again. */
  lemma InEveryRunAResolvedStaysIff(es: seq<Event>, th: Thresholds, key: string, o: nat)
    requires es != [] && es[|es| - 1].CheckRun? && HoldsResolved(Run(es[..|es| - 1], th).state, key, o)
    ensures var e := es[|es| - 1];
            var (s, tracked) := TrackedBy(Run(es[..|es| - 1], th).state, e.check, e.findings, e.error, e.order);
            HoldsResolved(Run(es, th).state, key, o) <==> !ResolvesAgain(s, tracked, key, e.now, th)
  {
    OpeningsStayInOrder(es[..|es| - 1], th);
    ACheckRunKeepsAResolvedIff(Run(es[..|es| - 1], th), es[|es| - 1], th, key, o);
  }

  /** Over a whole step that the process survives, a queued RESOLVED leaves the outbox
      only when a pulse delivers it, or when a check run resolves its key again. */
  lemma AResolvedStays(w: World, e: Event, th: Thresholds, x: Item)
    requires x in w.state.outbox && x.section == Resolved && Survives(e)
    ensures match e
            case CheckRun(check, findings, error, now, order) =>
              var (s, tracked) := TrackedBy(w.state, check, findings, error, order);
              !ResolvesAgain(s, tracked, x.key, now, th) ==> x in Step(w, e, th).state.outbox
            case PulseAttempt(_, _, _, _, _) => x in Step(w, e, th).state.outbox <==> x !in CarriedAway(w, e)
            case _ => x in Step(w, e, th).state.outbox
  {
    match e
    case CheckRun(check, findings, error, now, order) =>
      var (s, tracked) := TrackedBy(w.state, check, findings, error, order);
      if !ResolvesAgain(s, tracked, x.key, now, th) {
        TrackAllKeepsAResolved(s, x, tracked, now, th);
      }
    case EndCycle(now, order) => RemindersKeepAResolved(w.state, x, PendingKeys(w.state.outbox), now, th, order);
    case PulseAttempt(_, _, _, _, _) => PulseOutbox(w, e, th);
    case Beat(_, _) =>
  }

  lemma AClearQueuesItsResolved(s: State, key: string, now: real, th: Thresholds)
    requires key in s.problems && s.problems[key].announced
    ensures var resolved := Track(s, Finding(key, Ok, Low, "", Once), now, th);
            Mentions(resolved.outbox, key) && key !in resolved.problems
            && exists last :: last in resolved.outbox && last.key == key && last.section == Resolved
  {
    var counted := s.(debounce := s.debounce[key := Count(CountersOf(s, key), Ok)]);
    var resolved := Track(s, Finding(key, Ok, Low, "", Once), now, th);
    assert resolved == Cleared(counted, key, now);
    var last := Item(Resolved, key, s.problems[key].priority, Sanitize(ResolvedText(s.problems[key], now)));
    assert resolved.outbox[|resolved.outbox| - 1] == last;
    assert last in resolved.outbox;
  }

  lemma AReopeningForgetsTheResolved(s: State, told: set<nat>, key: string, now: real, th: Thresholds, last: Item)
    requires Sound(s, told) && key !in s.problems
    requires last in s.outbox && last.key == key && last.section == Resolved
    ensures var again := Track(Track(s, Finding(key, Failing, Low, "down", Once), now, th),
            Finding(key, Ok, Low, "", Once), now, th);
            !Mentions(again.outbox, key) && key !in again.problems
  {
    var ok := Finding(key, Ok, Low, "", Once);
    var reopened := Track(s, Finding(key, Failing, Low, "down", Once), now, th);
    WhenAResolvedIsDropped(s, last, Finding(key, Failing, Low, "down", Once), now, th);
    WhenAResolvedIsDropped(reopened, last, ok, now, th);
  }

  /** So a told problem's RESOLVED may never be sent: its key resolves, reopens and
      resolves again before the next pulse, and nothing about it is queued. */
  lemma AResolvedMayBeLost(s: State, told: set<nat>, key: string, now: real, th: Thresholds)
    requires Sound(s, told) && key in s.problems && s.problems[key].announced
    ensures var ok := Finding(key, Ok, Low, "", Once);
            var failing := Finding(key, Failing, Low, "down", Once);
            var resolved := Track(s, ok, now, th);
            var again := Track(Track(resolved, failing, now, th), ok, now, th);
            && Mentions(resolved.outbox, key) && s.problems[key].opening in told
            && !Mentions(again.outbox, key) && key !in again.problems
  {
    var resolved := Track(s, Finding(key, Ok, Low, "", Once), now, th);
    AClearQueuesItsResolved(s, key, now, th);
    var last :| last in resolved.outbox && last.key == key && last.section == Resolved;
    TrackKeeps(s, told, Finding(key, Ok, Low, "", Once), now, th);
    AReopeningForgetsTheResolved(resolved, told, key, now, th, last);
  }
}
