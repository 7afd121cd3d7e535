/** The monitor agent's ledger of problems and undelivered messages
    (scripts/host_runtime/app_ha_monitor.py, class Agent).

    The environment decides what checks find, when the clock ticks, which pings
    are lost, and when the process dies. Everything the agent keeps is in `State`,
    which it saves to disk and reloads when it restarts.
 */
module Agent {
  import opened Common
  import opened Text
  import opened PulseBody

  const PULSE_MIN_SPACING_SECONDS := 60
  const PULSE_HOURLY_LIMIT := 12

  // State -------------------------------------------------------------------------

  /** `opening` numbers the openings of problems; only the proofs look at it. */
  datatype Problem = Problem(priority: Priority, message: string, firstSeen: int, announced: bool,
                             announcedAt: Option<int>, lastReminder: Option<int>, opening: nat)
  datatype Counters = Counters(fails: nat, passes: nat)

  /** `nextOpening` and `resolvedOf` (the opening that a key's queued RESOLVED is
      about) are history; only the proofs look at them. */
  datatype State = State(problems: map<string, Problem>, debounce: map<string, Counters>, outbox: seq<Item>,
                         pulseTimes: seq<int>, rateLimited: bool, pendingClear: bool, pendingPulse: string,
                         nextOpening: nat, resolvedOf: map<string, nat>)

  const NEW_STATE := State(map[], map[], [], [], false, false, "", 0, map[])

  datatype Verdict = Ok | Failing | Hold
  datatype Kind = Fast | Service | Once
  datatype Finding = Finding(key: string, verdict: Verdict, priority: Priority, message: string, kind: Kind)
  datatype Thresholds = Thresholds(fastFail: nat, serviceFail: nat, reminderHours: nat)

  /** Times are saved in whole seconds. */
  function Second(now: real): int {
    now.Floor
  }

  /** A saved time; the source reads the epoch itself as no time. */
  function TimeOr(t: Option<int>, now: real): real {
    if t.None? || t.value == 0 then now else t.value as real
  }

  function ThresholdsFor(kind: Kind, th: Thresholds): (nat, nat) {
    match kind
    case Fast => (th.fastFail, th.fastFail)
    case Service => (th.serviceFail, 1)
    case Once => (1, 1)
  }

  function HumanDuration(seconds: real): string {
    var s: nat := if seconds <= 0.0 then 0 else seconds.Floor;
    var minutes := s / 60;
    var hours := minutes / 60;
    if s < 120 then Decimal(s) + "s"
    else if minutes < 120 then Decimal(minutes) + "m"
    else if hours < 48 then
      Decimal(hours) + "h" + (if minutes % 60 < 10 then "0" else "") + Decimal(minutes % 60) + "m"
    else Decimal(hours / 24) + "d" + Decimal(hours % 24) + "h"
  }

  // The outbox ----------------------------------------------------------------------

  /** The outbox without a key's announcements, or without everything about it. */
  function Except(outbox: seq<Item>, key: string, everything: bool): seq<Item> {
    if outbox == [] then [] else
      var init := Except(outbox[..|outbox| - 1], key, everything);
      var x := outbox[|outbox| - 1];
      if x.key == key && (everything || Announces(x)) then init else init + [x]
  }

  function Without(outbox: seq<Item>, carried: seq<Item>): seq<Item> {
    if outbox == [] then [] else
      var init := Without(outbox[..|outbox| - 1], carried);
      var x := outbox[|outbox| - 1];
      if x in carried then init else init + [x]
  }

  function Queue(s: State, section: Section, key: string, priority: Priority, message: string): State {
    s.(outbox := Except(s.outbox, key, section == Resolved) + [Item(section, key, priority, Sanitize(message))])
  }

  // Findings --------------------------------------------------------------------------

  function Count(c: Counters, verdict: Verdict): Counters {
    if verdict == Ok then Counters(0, c.passes + 1) else Counters(c.fails + 1, 0)
  }

  function Opened(s: State, f: Finding, now: real): State {
    var p := Problem(f.priority, Sanitize(f.message), Second(now), false, None, None, s.nextOpening);
    Queue(s.(problems := s.problems[f.key := p], nextOpening := s.nextOpening + 1), New, f.key, f.priority, f.message)
  }

  function StillFailing(s: State, f: Finding): State
    requires f.key in s.problems
  {
    var p := s.problems[f.key].(message := Sanitize(f.message), priority := f.priority);
    var next := s.(problems := s.problems[f.key := p]);
    if f.priority == High && s.problems[f.key].priority == Low then Queue(next, New, f.key, High, f.message) else next
  }

  function ResolvedText(p: Problem, now: real): string {
    "resolved (was open " + HumanDuration(now - TimeOr(Some(p.firstSeen), now)) + "): " + p.message
  }

  function Cleared(s: State, key: string, now: real): State
    requires key in s.problems
  {
    var p := s.problems[key];
    var next := s.(problems := s.problems - {key}, debounce := s.debounce - {key},
        outbox := Except(s.outbox, key, true));
    if p.announced
    then Queue(next.(resolvedOf := next.resolvedOf[key := p.opening]), Resolved, key, p.priority, ResolvedText(p, now))
    else next
  }

  function CountersOf(s: State, key: string): Counters {
    if key in s.debounce then s.debounce[key] else Counters(0, 0)
  }

  function Track(s: State, f: Finding, now: real, th: Thresholds): State {
    if f.verdict == Hold then
      if f.key in s.problems && f.message != ""
      then s.(problems := s.problems[f.key := s.problems[f.key].(message := Sanitize(f.message))])
      else s
    else
      var (failAfter, clearAfter) := ThresholdsFor(f.kind, th);
      var c := Count(CountersOf(s, f.key), f.verdict);
      var counted := s.(debounce := s.debounce[f.key := c]);
      if f.verdict == Failing then
        if f.key in s.problems then StillFailing(counted, f)
        else if c.fails >= failAfter then Opened(counted, f, now)
        else counted
      else if f.key !in s.problems then s.(debounce := s.debounce - {f.key})
      else if c.passes >= clearAfter then Cleared(counted, f.key, now)
      else counted
  }

  function TrackAll(s: State, findings: seq<Finding>, now: real, th: Thresholds): State {
    if findings == [] then s
    else Track(TrackAll(s, findings[..|findings| - 1], now, th), findings[|findings| - 1], now, th)
  }

  // Checks ------------------------------------------------------------------------------

  datatype Check = Check(name: string, prefixes: seq<string>)

  predicate OwnedBy(prefix: string, key: string) {
    key == prefix || prefix + ":" <= key
  }

  predicate Owns(check: Check, key: string) {
    exists i | 0 <= i < |check.prefixes| :: OwnedBy(check.prefixes[i], key)
  }

  function ErrorKey(check: Check): string {
    "agent:" + check.name
  }

  function ErrorFinding(check: Check, error: Option<string>): Finding {
    Finding(ErrorKey(check), if error.None? then Ok else Failing, Low,
            if error.None? then "" else "the " + check.name + " check failed: " + error.value, Once)
  }

  function KeysOf(findings: seq<Finding>): set<string> {
    set f | f in findings :: f.key
  }

  /** A finding for each open problem that a working check no longer reports. */
  function Vanished(check: Check, seen: set<string>, order: seq<string>): (r: seq<Finding>)
    ensures forall f :: f in r <==> f.key in order && Owns(check, f.key) && f.key !in seen
                                    && f == Finding(f.key, Ok, Low, "no longer present", Once)
  {
    if order == [] then [] else
      var init := Vanished(check, seen, order[..|order| - 1]);
      var key := order[|order| - 1];
      if Owns(check, key) && key !in seen then init + [Finding(key, Ok, Low, "no longer present", Once)] else init
  }

  /** The counters of keys that a working check no longer reports are dropped. */
  function Forget(s: State, check: Check, seen: set<string>): State {
    s.(debounce := map k | k in s.debounce && !(Owns(check, k) && k !in seen && k !in s.problems) :: s.debounce[k])
  }

  /** `order` is the order of the problems' dictionary. */
  ghost predicate Lists(order: seq<string>, problems: map<string, Problem>) {
    && (forall k :: k in order <==> k in problems)
    && (forall i, j :: 0 <= i < j < |order| ==> order[i] != order[j])
  }

  function Apply(s: State, check: Check, findings: seq<Finding>, error: Option<string>, now: real, th: Thresholds,
                 order: seq<string>): State
  {
    var report := ErrorFinding(check, error);
    if error.Some? then TrackAll(s, [report], now, th)
    else TrackAll(Forget(s, check, KeysOf(findings)),
                  findings + Vanished(check, KeysOf(findings), order) + [report], now, th)
  }

  // Reminders -----------------------------------------------------------------------------

  function LastTold(p: Problem): Option<int> {
    if p.lastReminder.Some? then p.lastReminder else p.announcedAt
  }

  predicate ReminderDue(p: Problem, now: real, th: Thresholds) {
    p.announced && now - TimeOr(LastTold(p), now) >= (th.reminderHours * 3600) as real
  }

  function PendingKeys(outbox: seq<Item>): set<string> {
    set x | x in outbox :: x.key
  }

  function QueueReminders(s: State, pending: set<string>, now: real, th: Thresholds, order: seq<string>): State {
    if order == [] then s else
      var done := QueueReminders(s, pending, now, th, order[..|order| - 1]);
      var key := order[|order| - 1];
      if key in s.problems && key !in pending && ReminderDue(s.problems[key], now, th)
      then Queue(done, Reminder, key, s.problems[key].priority, s.problems[key].message)
      else done
  }

  // Pulses ----------------------------------------------------------------------------------

  /** The times within the last hour. */
  function Recent(times: seq<int>, now: real): seq<int> {
    if times == [] then [] else
      var init := Recent(times[..|times| - 1], now);
      var t := times[|times| - 1];
      if t != 0 && now - t as real < 3600.0 then init + [t] else init
  }

  function Latest(times: seq<int>): (t: int)
    requires times != []
    ensures t in times && forall x :: x in times ==> x <= t
  {
    var last := times[|times| - 1];
    assert times == times[..|times| - 1] + [last];
    if |times| == 1 then last else
      var m := Latest(times[..|times| - 1]);
      if last > m then last else m
  }

  predicate TooSoon(times: seq<int>, now: real) {
    times != [] && now - Latest(times) as real < PULSE_MIN_SPACING_SECONDS as real
  }

  /** Whether a pulse may go out now, and the state with the old times dropped. */
  function RateAllows(s: State, now: real): (State, bool) {
    var times := Recent(s.pulseTimes, now);
    var kept := s.(pulseTimes := times);
    if TooSoon(times, now) then (kept, false)
    else if |times| >= PULSE_HOURLY_LIMIT then (kept.(rateLimited := true), false)
    else (kept, true)
  }

  function MarkTold(problems: map<string, Problem>, carried: seq<Item>, now: real): map<string, Problem> {
    if carried == [] then problems else
      var done := MarkTold(problems, carried[..|carried| - 1], now);
      var x := carried[|carried| - 1];
      if x.key !in done then done
      else if x.section == New then done[x.key := done[x.key].(announced := true, announcedAt := Some(Second(now)))]
      else if x.section == Reminder then done[x.key := done[x.key].(lastReminder := Some(Second(now)))]
      else done
  }

  function Delivered(s: State, carried: seq<Item>, now: real): State {
    s.(pulseTimes := s.pulseTimes + [Second(now)], rateLimited := false,
       outbox := Without(s.outbox, carried), problems := MarkTold(s.problems, carried, now))
  }

  /** ONGOING lists the problems that have no announcement queued. */
  ghost predicate IsOngoing(s: State, ongoing: seq<Item>) {
    && (forall x :: x in ongoing ==> x.section == Ongoing && x.key in s.problems
                                     && x.priority == s.problems[x.key].priority
                                         && x.message == s.problems[x.key].message)
    && (forall k :: k in s.problems && !(exists x :: x in s.outbox && Announces(x) && x.key == k) <==>
                    exists x :: x in ongoing && x.key == k)
    && (forall i, j :: 0 <= i < j < |ongoing| ==> ongoing[i].key != ongoing[j].key)
  }

  // The process, its state file, and the check's server --------------------------------------

  /** A ping is acknowledged; or handled although the agent sees a failure; or lost. */
  datatype Sent = Acked | Handled | Lost
  datatype Ping = FailPing | ClearPing | HeartbeatPing

  /** `last` is the last ping the server handled, `sends` every ping attempted in
      order, `told` the openings whose NEW an acknowledged pulse carried, and `urgent`
      those with a NEW of high priority among them. */
  datatype World = World(state: State, disk: State, last: Option<Ping>, sends: seq<Ping>, told: set<nat>,
                         urgent: set<nat>)

  const INITIAL := World(NEW_STATE, NEW_STATE, None, [], {}, {})

  function Save(w: World): World {
    w.(disk := w.state)
  }

  /** The process died and started again. */
  function Restart(w: World): World {
    w.(state := w.disk)
  }

  function Send(w: World, ping: Ping, sent: Sent): World {
    w.(sends := w.sends + [ping], last := if sent == Lost then w.last else Some(ping))
  }

  /** How a lock-held sequence of pings goes: its time and id, the fate of its
      pings, and after which of its steps the process dies, if it does. */
  datatype Fate = Fate(now: real, pulse: string, fail: Sent, clear: Sent, heartbeat: Sent, dies: Option<nat>)

  predicate DiesAt(fate: Fate, step: nat) {
    fate.dies == Some(step)
  }

  function BeatStep(w: World, fate: Fate, always: bool): World {
    var sent := Send(w, HeartbeatPing, fate.heartbeat);
    if DiesAt(fate, 6) then Restart(sent) else if always || fate.heartbeat == Acked then Save(sent) else sent
  }

  function ClearStep(w: World, fate: Fate, always: bool): World {
    var sent := Send(w, ClearPing, fate.clear);
    if DiesAt(fate, 4) then Restart(sent) else
      var noted := if fate.clear == Acked then Save(sent.(state := sent.state.(pendingClear := false))) else sent;
      if DiesAt(fate, 5) then Restart(noted) else BeatStep(noted, fate, always)
  }

  /** The openings whose NEW a pulse carries. */
  function ToldBy(s: State, carried: seq<Item>): set<nat> {
    set x | x in carried && x.section == New && x.key in s.problems :: s.problems[x.key].opening
  }

  function UrgentBy(s: State, carried: seq<Item>): set<nat> {
    set x | x in carried && x.section == New && x.priority == High && x.key in s.problems :: s.problems[x.key].opening
  }

  /** The server handled the pulse, and the agent knows it. */
  function Handed(w: World, carried: seq<Item>, now: real): World {
    w.(state := Delivered(w.state, carried, now), told := w.told + ToldBy(w.state, carried),
       urgent := w.urgent + UrgentBy(w.state, carried))
  }

  function FailStep(w: World, fate: Fate, carried: seq<Item>): World {
    var sent := Send(w, FailPing, fate.fail);
    if DiesAt(fate, 1) then Restart(sent)
    else if fate.fail != Acked then Save(sent)
    else DeliverStep(sent, fate, carried)
  }

  function DeliverStep(w: World, fate: Fate, carried: seq<Item>): World {
    var delivered := Handed(w, carried, fate.now);
    if DiesAt(fate, 2) then Restart(delivered)
    else if DiesAt(fate, 3) then Restart(Save(delivered))
    else ClearStep(Save(delivered), fate, true)
  }

  /** The state once the rate limit was asked, and what a pulse may carry now:
      nothing when none goes out. */
  function Candidate(s: State, fate: Fate, staging: bool, config: Config, stamp: Stamp, ongoing: seq<Item>)
    : (State, seq<Item>)
  {
    if s.outbox == [] || staging then (s, []) else
      var (kept, allowed) := RateAllows(s, fate.now);
      if !allowed then (kept, [])
      else (kept, Result(HeaderLines(config, stamp, fate.pulse, kept.rateLimited), kept.outbox, ongoing).1)
  }

  /** The pending clear is saved before anything is sent. */
  function Prepared(w: World, kept: State, fate: Fate): World {
    Save(w.(state := kept.(pendingClear := true, pendingPulse := fate.pulse)))
  }

  /** One lock-held attempt to send a pulse. */
  function Pulse(w: World, fate: Fate, staging: bool, config: Config, stamp: Stamp, ongoing: seq<Item>): World {
    var (kept, carried) := Candidate(w.state, fate, staging, config, stamp, ongoing);
    if carried == [] then w.(state := kept)
    else if DiesAt(fate, 0) then Restart(Prepared(w, kept, fate))
    else FailStep(Prepared(w, kept, fate), fate, carried)
  }

  /** One lock-held heartbeat, after the clear that a pulse still owes. */
  function Heartbeat(w: World, fate: Fate, staging: bool): World {
    if staging then w
    else if w.state.pendingClear then ClearStep(w, fate, false)
    else BeatStep(w, fate, false)
  }

  // The agent -----------------------------------------------------------------------------------

  class Agent {
    const config: Config
    const th: Thresholds
    var state: State
    var disk: State
    ghost var last: Option<Ping>
    ghost var sends: seq<Ping>
    ghost var told: set<nat>
    ghost var urgent: set<nat>

    ghost function View(): World
      reads this
    {
      World(state, disk, last, sends, told, urgent)
    }

    constructor (config: Config, th: Thresholds)
      ensures View() == INITIAL && this.config == config && this.th == th
    {
      this.config, this.th := config, th;
      state, disk := NEW_STATE, NEW_STATE;
      last, sends, told, urgent := None, [], {}, {};
    }

    method QueueItem(section: Section, key: string, priority: Priority, message: string)
      modifies this`state
      ensures state == Queue(old(state), section, key, priority, message)
    {
      var outbox := Except(state.outbox, key, false);
      if section == Resolved {
        ExceptTwice(state.outbox, key);
        outbox := Except(outbox, key, true);
      }
      state := state.(outbox := outbox + [Item(section, key, priority, Sanitize(message))]);
    }

    method TrackFinding(f: Finding, now: real)
      modifies this`state
      ensures state == Track(old(state), f, now, th)
    {
      if f.verdict == Hold {
        if f.key in state.problems && f.message != "" {
          state := state.(problems := state.problems[f.key := state.problems[f.key].(message := Sanitize(f.message))]);
        }
        return;
      }
      var (failAfter, clearAfter) := ThresholdsFor(f.kind, th);
      var counters := CountersOf(state, f.key);
      if f.verdict == Ok {
        counters := Counters(0, counters.passes + 1);
      } else {
        counters := Counters(counters.fails + 1, 0);
      }
      state := state.(debounce := state.debounce[f.key := counters]);
      if f.key !in state.problems && f.verdict == Failing && counters.fails >= failAfter {
        Open(f, now);
      } else if f.key in state.problems && f.verdict == Failing {
        Worsen(f);
      } else if f.key in state.problems && f.verdict == Ok && counters.passes >= clearAfter {
        Resolve(f.key, now);
      } else if f.key !in state.problems && f.verdict == Ok && counters.fails == 0 {
        state := state.(debounce := state.debounce - {f.key});
        assert state.debounce == old(state).debounce - {f.key};
      }
    }

    method Open(f: Finding, now: real)
      modifies this`state
      ensures state == Opened(old(state), f, now)
    {
      var problem := Problem(f.priority, Sanitize(f.message), Second(now), false, None, None, state.nextOpening);
      state := state.(problems := state.problems[f.key := problem], nextOpening := state.nextOpening + 1);
      QueueItem(New, f.key, f.priority, f.message);
    }

    /** A problem that goes on; only becoming urgent is announced again. */
    method Worsen(f: Finding)
      requires f.key in state.problems
      modifies this`state
      ensures state == StillFailing(old(state), f)
    {
      var problem := state.problems[f.key].(message := Sanitize(f.message));
      if f.priority == High && problem.priority == Low {
        state := state.(problems := state.problems[f.key := problem.(priority := High)]);
        QueueItem(New, f.key, High, f.message);
      } else if f.priority == Low && problem.priority == High {
        state := state.(problems := state.problems[f.key := problem.(priority := Low)]);
      } else {
        state := state.(problems := state.problems[f.key := problem]);
      }
    }

    method Resolve(key: string, now: real)
      requires key in state.problems
      modifies this`state
      ensures state == Cleared(old(state), key, now)
    {
      var problem := state.problems[key];
      state := state.(problems := state.problems - {key}, debounce := state.debounce - {key},
                      outbox := Except(state.outbox, key, true));
      if problem.announced {
        state := state.(resolvedOf := state.resolvedOf[key := problem.opening]);
        QueueItem(Resolved, key, problem.priority, ResolvedText(problem, now));
      }
    }

    method ApplyCheck(check: Check, findings: seq<Finding>, error: Option<string>, now: real, order: seq<string>)
      requires Lists(order, state.problems)
      modifies this`state
      ensures state == Apply(old(state), check, findings, error, now, th, order)
    {
      var tracked := [];
      if error.None? {
        var seen := KeysOf(findings);
        tracked := findings + Vanished(check, seen, order);
        state := Forget(state, check, seen);
      }
      tracked := tracked + [ErrorFinding(check, error)];
      ghost var start := state;
      for i := 0 to |tracked|
        invariant state == TrackAll(start, tracked[..i], now, th)
      {
        assert tracked[..i + 1][..i] == tracked[..i];
        TrackFinding(tracked[i], now);
      }
      assert tracked[..|tracked|] == tracked;
    }

    method RemindAll(now: real, order: seq<string>)
      requires Lists(order, state.problems)
      modifies this`state
      ensures state == QueueReminders(old(state), PendingKeys(old(state).outbox), now, th, order)
    {
      var pending := PendingKeys(state.outbox);
      for i := 0 to |order|
        invariant state == QueueReminders(old(state), pending, now, th, order[..i])
        invariant state.problems == old(state).problems
      {
        assert order[..i + 1][..i] == order[..i];
        var problem := state.problems[order[i]];
        if order[i] !in pending && ReminderDue(problem, now, th) {
          QueueItem(Reminder, order[i], problem.priority, problem.message);
        }
      }
      assert order[..|order|] == order;
    }

    method Allowed(now: real) returns (ok: bool)
      modifies this`state
      ensures (state, ok) == RateAllows(old(state), now)
    {
      var times := Recent(state.pulseTimes, now);
      state := state.(pulseTimes := times);
      if times != [] && now - Latest(times) as real < PULSE_MIN_SPACING_SECONDS as real {
        return false;
      }
      if |times| >= PULSE_HOURLY_LIMIT {
        state := state.(rateLimited := true);
        return false;
      }
      return true;
    }

    method SaveState()
      modifies this`disk
      ensures disk == state
    {
      disk := state;
    }

    ghost method SendPing(ping: Ping, sent: Sent)
      modifies this`last, this`sends
      ensures View() == Send(old(View()), ping, sent)
    {
      sends := sends + [ping];
      last := if sent == Lost then last else Some(ping);
    }

    method MaybePulse(fate: Fate, staging: bool, stamp: Stamp, ongoing: seq<Item>)
      requires IsOngoing(state, ongoing)
      modifies this
      ensures View() == Pulse(old(View()), fate, staging, config, stamp, ongoing)
    {
      if state.outbox == [] || staging {
        return;
      }
      var allowed := Allowed(fate.now);
      if !allowed {
        return;
      }
      var body, carried := ComposeEventBody(config, state.outbox, ongoing, stamp, fate.pulse, state.rateLimited);
      if carried == [] {
        return;
      }
      state := state.(pendingClear := true, pendingPulse := fate.pulse);
      SaveState();
      if DiesAt(fate, 0) {
        state := disk;
      } else {
        SendFail(fate, carried);
      }
    }

    method SendFail(fate: Fate, carried: seq<Item>)
      modifies this
      ensures View() == FailStep(old(View()), fate, carried)
    {
      SendPing(FailPing, fate.fail);
      if DiesAt(fate, 1) {
        state := disk;
        return;
      }
      if fate.fail != Acked {
        SaveState();
        return;
      }
      Deliver(fate, carried);
    }

    method Deliver(fate: Fate, carried: seq<Item>)
      modifies this
      ensures View() == DeliverStep(old(View()), fate, carried)
    {
      told, urgent := told + ToldBy(state, carried), urgent + UrgentBy(state, carried);
      ghost var before := state;
      state := state.(pulseTimes := state.pulseTimes + [Second(fate.now)], rateLimited := false,
                      outbox := Without(state.outbox, carried));
      for i := 0 to |carried|
        invariant state == before.(pulseTimes := before.pulseTimes + [Second(fate.now)], rateLimited := false,
                                   outbox := Without(before.outbox, carried),
                                   problems := MarkTold(before.problems, carried[..i], fate.now))
        invariant disk == old(disk) && sends == old(sends) && last == old(last)
        invariant told == old(told) + ToldBy(before, carried)
        invariant urgent == old(urgent) + UrgentBy(before, carried)
      {
        assert carried[..i + 1][..i] == carried[..i];
        var item := carried[i];
        if item.key in state.problems {
          var problem := state.problems[item.key];
          if item.section == New {
            problem := problem.(announced := true, announcedAt := Some(Second(fate.now)));
          } else if item.section == Reminder {
            problem := problem.(lastReminder := Some(Second(fate.now)));
          }
          state := state.(problems := state.problems[item.key := problem]);
        }
      }
      assert carried[..|carried|] == carried;
      if DiesAt(fate, 2) {
        state := disk;
        return;
      }
      SaveState();
      if DiesAt(fate, 3) {
        state := disk;
        return;
      }
      SendClear(fate, true);
    }

    method SendClear(fate: Fate, always: bool)
      modifies this
      ensures View() == ClearStep(old(View()), fate, always)
    {
      SendPing(ClearPing, fate.clear);
      if DiesAt(fate, 4) {
        state := disk;
        return;
      }
      if fate.clear == Acked {
        state := state.(pendingClear := false);
        SaveState();
      }
      if DiesAt(fate, 5) {
        state := disk;
        return;
      }
      SendBeat(fate, always);
    }

    method SendBeat(fate: Fate, always: bool)
      modifies this
      ensures View() == BeatStep(old(View()), fate, always)
    {
      SendPing(HeartbeatPing, fate.heartbeat);
      if DiesAt(fate, 6) {
        state := disk;
      } else if always || fate.heartbeat == Acked {
        SaveState();
      }
    }

    method SendHeartbeat(fate: Fate, staging: bool)
      modifies this
      ensures View() == Heartbeat(old(View()), fate, staging)
    {
      if staging {
        return;
      }
      if state.pendingClear {
        SendClear(fate, false);
      } else {
        SendBeat(fate, false);
      }
    }
  }

  lemma {:induction false} ExceptTwice(outbox: seq<Item>, key: string)
    ensures Except(Except(outbox, key, false), key, true) == Except(outbox, key, true)
  {
    if outbox != [] {
      var init := outbox[..|outbox| - 1];
      var x := outbox[|outbox| - 1];
      ExceptTwice(init, key);
      var rest := Except(init, key, false);
      if !(x.key == key && Announces(x)) {
        assert (rest + [x])[..|rest|] == rest;
      }
    }
  }
}
