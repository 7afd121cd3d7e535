/** The monitor agent's pulse rate limit (scripts/host_runtime/app_ha_monitor.py,
    rate_allows): over a whole run, although the list of pulse times is filtered and
    rewritten at every check, pulse times are saved in whole seconds, and the process
    may die before it has saved one.
 */
module PulseRate {
  import opened Common
  import opened Text
  import opened PulseBody
  import opened Agent
  import opened Ledger

  // Recent times ------------------------------------------------------------------

  function Seconds(ds: seq<real>): (r: seq<int>)
    ensures |r| == |ds|
  {
    seq(|ds|, i requires 0 <= i < |ds| => Second(ds[i]))
  }

  lemma {:induction false} FilteringTwice(times: seq<int>, now: real, later: real)
    requires now <= later
    ensures Recent(Recent(times, now), later) == Recent(times, later)
  {
    if times != [] {
      var init := times[..|times| - 1];
      var t := times[|times| - 1];
      FilteringTwice(init, now, later);
      var kept := Recent(init, now);
      if t != 0 && now - t as real < 3600.0 {
        assert (kept + [t])[..|kept|] == kept;
      }
    }
  }

  lemma RecentAppend(times: seq<int>, t: int, now: real)
    ensures Recent(times + [t], now) == Recent(times, now) + if t != 0 && now - t as real < 3600.0 then [t] else []
  {
    assert (times + [t])[..|times|] == times;
  }

  lemma {:induction false} RecentHas(times: seq<int>, now: real, i: nat)
    requires i < |times| && times[i] != 0 && now - times[i] as real < 3600.0
    ensures times[i] in Recent(times, now)
  {
    if i < |times| - 1 {
      RecentHas(times[..|times| - 1], now, i);
    }
  }

  /** From the k-th on, all times are recent, so that many are counted. */
  lemma {:induction false} RecentCounts(times: seq<int>, now: real, k: nat)
    requires k <= |times| && forall i :: k <= i < |times| ==> times[i] != 0 && now - times[i] as real < 3600.0
    ensures |Recent(times, now)| >= |times| - k
  {
    if k < |times| {
      RecentCounts(times[..|times| - 1], now, k);
    }
  }

  /** Up to the k-th, none is recent, so only those after it are counted. */
  lemma {:induction false} RecentIsFew(times: seq<int>, now: real, k: nat)
    requires k <= |times| && forall i :: 0 <= i < k ==> now - times[i] as real >= 3600.0
    ensures |Recent(times, now)| <= |times| - k
  {
    if k < |times| {
      RecentIsFew(times[..|times| - 1], now, k);
    } else if times != [] {
      RecentIsFew(times[..|times| - 1], now, k - 1);
    }
  }

  lemma {:induction false} RecentIsSome(times: seq<int>, now: real)
    ensures forall t :: t in Recent(times, now) ==> t in times
  {
    if times != [] {
      RecentIsSome(times[..|times| - 1], now);
    }
  }

  // Runs ----------------------------------------------------------------------------

  function CandidateOf(w: World, e: Event): (State, seq<Item>)
    requires e.PulseAttempt?
  {
    Candidate(w.state, e.fate, e.staging, e.config, e.stamp, e.ongoing)
  }

  /** The server handles the pulse's /fail, whether or not the agent learns it. */
  predicate Arrives(w: World, e: Event) {
    e.PulseAttempt? && CandidateOf(w, e).1 != [] && !DiesAt(e.fate, 0) && e.fate.fail != Lost
  }

  /** The agent learns it, and lives to save its time. */
  predicate Recorded(fate: Fate) {
    fate.fail == Acked && !DiesAt(fate, 1) && !DiesAt(fate, 2)
  }

  datatype Arrival = Arrival(at: real, recorded: bool)

  /** The pulses that the server handled. */
  function Arrivals(es: seq<Event>, th: Thresholds): seq<Arrival> {
    if es == [] then [] else
      var init := es[..|es| - 1];
      var e := es[|es| - 1];
      Arrivals(init, th) + if Arrives(Run(init, th), e) then [Arrival(e.fate.now, Recorded(e.fate))] else []
  }

  function RecordedOf(ps: seq<Arrival>): seq<real> {
    if ps == [] then [] else
      RecordedOf(ps[..|ps| - 1]) + if ps[|ps| - 1].recorded then [ps[|ps| - 1].at] else []
  }

  /** The times of the recorded pulses of a run. */
  function Recordings(es: seq<Event>, th: Thresholds): seq<real> {
    RecordedOf(Arrivals(es, th))
  }

  function Clock(es: seq<Event>): real {
    if es == [] then 1.0
    else if es[|es| - 1].PulseAttempt? then es[|es| - 1].fate.now
    else Clock(es[..|es| - 1])
  }

  /** The clock is past the epoch and does not go back. */
  predicate ClockGoesOn(es: seq<Event>) {
    es == [] || (ClockGoesOn(es[..|es| - 1]) && Clock(es) >= Clock(es[..|es| - 1]) && Clock(es) >= 1.0)
  }

  /** In order, past the epoch, and none later than the clock. */
  ghost predicate InOrder(ds: seq<real>, clock: real) {
    && (forall i :: 0 <= i < |ds| ==> 1.0 <= ds[i] <= clock)
    && (forall i, j :: 0 <= i < j < |ds| ==> ds[i] <= ds[j])
  }

  /** A minute after the second of every recorded pulse, and an hour after that of the
      twelfth last. */
  ghost predicate Permits(ds: seq<real>, now: real) {
    && (forall d :: d in ds ==> now - Second(d) as real >= 60.0)
    && (|ds| >= 12 ==> now - Second(ds[|ds| - 12]) as real >= 3600.0)
  }

  /** What the saved times still say about the delivered pulses, from now on. */
  ghost predicate Remembers(times: seq<int>, ds: seq<real>, clock: real) {
    forall t: real :: t >= clock ==> Recent(times, t) == Recent(Seconds(ds), t)
  }

  lemma RememberLater(times: seq<int>, ds: seq<real>, clock: real, now: real)
    requires Remembers(times, ds, clock) && now >= clock
    ensures Remembers(times, ds, now) && Remembers(Recent(times, now), ds, now)
  {
    forall t: real | t >= now ensures Recent(Recent(times, now), t) == Recent(Seconds(ds), t) {
      FilteringTwice(times, now, t);
    }
  }

  lemma RememberMore(times: seq<int>, ds: seq<real>, now: real)
    requires Remembers(times, ds, now)
    ensures Remembers(times + [Second(now)], ds + [now], now)
  {
    assert Seconds(ds + [now]) == Seconds(ds) + [Second(now)];
    forall t: real | t >= now ensures Recent(times + [Second(now)], t) == Recent(Seconds(ds + [now]), t) {
      RecentAppend(times, Second(now), t);
      RecentAppend(Seconds(ds), Second(now), t);
    }
  }

  lemma SoonIff(ds: seq<real>, clock: real, now: real)
    requires InOrder(ds, clock)
    ensures TooSoon(Recent(Seconds(ds), now), now)
       <==> exists d :: d in ds && now - Second(d) as real < 60.0
  {
    var secs := Seconds(ds);
    var times := Recent(secs, now);
    RecentIsSome(secs, now);
    if TooSoon(times, now) {
      var i :| 0 <= i < |secs| && secs[i] == Latest(times);
      assert ds[i] in ds;
    }
    if d :| d in ds && now - Second(d) as real < 60.0 {
      var i :| 0 <= i < |ds| && ds[i] == d;
      assert secs[i] == Second(ds[i]) && secs[i] != 0;
      RecentHas(secs, now, i);
      assert secs[i] <= Latest(times);
    }
  }

  lemma ManySecondsIff(secs: seq<int>, now: real)
    requires forall i :: 0 <= i < |secs| ==> secs[i] != 0
    requires forall i, j :: 0 <= i < j < |secs| ==> secs[i] <= secs[j]
    ensures |Recent(secs, now)| >= 12
       <==> |secs| >= 12 && now - secs[|secs| - 12] as real < 3600.0
  {
    if |secs| < 12 {
      RecentIsFew(secs, now, 0);
    } else if now - secs[|secs| - 12] as real < 3600.0 {
      RecentCounts(secs, now, |secs| - 12);
    } else {
      RecentIsFew(secs, now, |secs| - 12 + 1);
    }
  }

  lemma SecondsOf(ds: seq<real>, clock: real)
    requires InOrder(ds, clock)
    ensures forall i :: 0 <= i < |ds| ==> Seconds(ds)[i] == Second(ds[i]) && Seconds(ds)[i] != 0
    ensures forall i, j :: 0 <= i < j < |ds| ==> Seconds(ds)[i] <= Seconds(ds)[j]
  {
  }

  lemma ManyIff(ds: seq<real>, clock: real, now: real)
    requires InOrder(ds, clock)
    ensures |Recent(Seconds(ds), now)| >= 12
       <==> |ds| >= 12 && now - Second(ds[|ds| - 12]) as real < 3600.0
  {
    SecondsOf(ds, clock);
    ManySecondsIff(Seconds(ds), now);
  }

  lemma AllowedIff(s: State, ds: seq<real>, clock: real, now: real)
    requires InOrder(ds, clock) && Remembers(s.pulseTimes, ds, clock) && now >= clock
    ensures RateAllows(s, now).1 <==> Permits(ds, now)
  {
    SoonIff(ds, clock, now);
    ManyIff(ds, clock, now);
  }

  lemma TrackKeepsTimes(s: State, f: Finding, now: real, th: Thresholds)
    ensures Track(s, f, now, th).pulseTimes == s.pulseTimes
  {
  }

  lemma {:induction false} TrackAllKeepsTimes(s: State, findings: seq<Finding>, now: real, th: Thresholds)
    ensures TrackAll(s, findings, now, th).pulseTimes == s.pulseTimes
  {
    if findings != [] {
      TrackAllKeepsTimes(s, findings[..|findings| - 1], now, th);
      TrackKeepsTimes(TrackAll(s, findings[..|findings| - 1], now, th), findings[|findings| - 1], now, th);
    }
  }

  lemma ApplyKeepsTimes(s: State, check: Check, findings: seq<Finding>, error: Option<string>, now: real,
                        th: Thresholds,
                        order: seq<string>)
    ensures Apply(s, check, findings, error, now, th, order).pulseTimes == s.pulseTimes
  {
    TrackAllKeepsTimes(s, [ErrorFinding(check, error)], now, th);
    TrackAllKeepsTimes(Forget(s, check, KeysOf(findings)),
                       findings + Vanished(check, KeysOf(findings), order) + [ErrorFinding(check, error)], now, th);
  }

  lemma {:induction false} RemindersKeepTimes(s: State, pending: set<string>, now: real, th: Thresholds,
                                              order: seq<string>)
    ensures QueueReminders(s, pending, now, th, order).pulseTimes == s.pulseTimes
  {
    if order != [] {
      RemindersKeepTimes(s, pending, now, th, order[..|order| - 1]);
    }
  }

  /** The pulse times in memory and on disk after a pulse attempt. */
  lemma PulseTimesAfter(w: World, e: Event, th: Thresholds)
    requires e.PulseAttempt?
    ensures var r := Step(w, e, th);
            var kept := Recent(w.state.pulseTimes, e.fate.now);
            if Arrives(w, e) && Recorded(e.fate)
            then r.state.pulseTimes == r.disk.pulseTimes == kept + [Second(e.fate.now)]
            else (r.state.pulseTimes == w.state.pulseTimes || r.state.pulseTimes == kept)
                 && (r.disk.pulseTimes == w.disk.pulseTimes || r.disk.pulseTimes == kept)
  {
    var (kept, carried) := CandidateOf(w, e);
    KeptTimes(w, e);
    if carried != [] && !DiesAt(e.fate, 0) {
      FailStepTimes(Prepared(w, kept, e.fate), e.fate, carried);
    }
  }

  lemma KeptTimes(w: World, e: Event)
    requires e.PulseAttempt?
    ensures var (kept, carried) := CandidateOf(w, e);
            && (carried != [] ==> kept.pulseTimes == Recent(w.state.pulseTimes, e.fate.now))
            && (kept.pulseTimes == w.state.pulseTimes || kept.pulseTimes == Recent(w.state.pulseTimes, e.fate.now))
  {
  }

  lemma FailStepTimes(w: World, fate: Fate, carried: seq<Item>)
    requires w.disk == w.state
    ensures var r := FailStep(w, fate, carried);
            r.state.pulseTimes == r.disk.pulseTimes
            == w.state.pulseTimes + if Recorded(fate) then [Second(fate.now)] else []
  {
    if Recorded(fate) {
      var sent := Send(w, FailPing, fate.fail);
      var delivered := Handed(sent, carried, fate.now);
      ClearStepTimes(Save(delivered), fate, true);
    }
  }

  /** A list of times of the world, in memory or on disk. */
  predicate From(times: seq<int>, w: World) {
    times == w.state.pulseTimes || times == w.disk.pulseTimes
  }

  lemma ClearStepTimes(w: World, fate: Fate, always: bool)
    ensures From(ClearStep(w, fate, always).state.pulseTimes, w) && From(ClearStep(w, fate, always).disk.pulseTimes, w)
  {
    var sent := Send(w, ClearPing, fate.clear);
    var noted := if fate.clear == Acked then Save(sent.(state := sent.state.(pendingClear := false))) else sent;
    BeatStepTimes(noted, fate, always);
  }

  lemma BeatStepTimes(w: World, fate: Fate, always: bool)
    ensures From(BeatStep(w, fate, always).state.pulseTimes, w) && From(BeatStep(w, fate, always).disk.pulseTimes, w)
  {
  }

  /** However often the times are filtered, and wherever the process dies, the times
      in memory and on disk say of the recorded pulses all that will ever be asked. */
  lemma {:induction false} TimesAreRemembered(es: seq<Event>, th: Thresholds)
    requires ClockGoesOn(es)
    ensures var w := Run(es, th);
            var ds := Recordings(es, th);
            && InOrder(ds, Clock(es))
            && Remembers(w.state.pulseTimes, ds, Clock(es)) && Remembers(w.disk.pulseTimes, ds, Clock(es))
  {
    if es != [] {
      var init := es[..|es| - 1];
      var e := es[|es| - 1];
      TimesAreRemembered(init, th);
      StepRemembers(Run(init, th), e, th, Recordings(init, th), Clock(init), Clock(es));
      RecordingsStep(es, th);
    }
  }

  lemma RecordingsStep(es: seq<Event>, th: Thresholds)
    requires es != []
    ensures var init := es[..|es| - 1];
            var e := es[|es| - 1];
            Recordings(es, th) == Recordings(init, th)
                                  + if Arrives(Run(init, th), e) && Recorded(e.fate) then [e.fate.now] else []
  {
    var init := es[..|es| - 1];
    var e := es[|es| - 1];
    if Arrives(Run(init, th), e) {
      var a := Arrival(e.fate.now, Recorded(e.fate));
      assert (Arrivals(init, th) + [a])[..|Arrivals(init, th)|] == Arrivals(init, th);
    } else {
      assert Arrivals(init, th) + [] == Arrivals(init, th);
    }
  }

  /** A list of times after an attempt: with its time, or as before but for filtering. */
  predicate Follows(after: seq<int>, times: seq<int>, now: real, recorded: bool) {
    if recorded then after == Recent(times, now) + [Second(now)] else after == times || after == Recent(times, now)
  }

  lemma FollowsRemembers(after: seq<int>, times: seq<int>, ds: seq<real>, clock: real, now: real, recorded: bool)
    requires Remembers(times, ds, clock) && now >= clock && Follows(after, times, now, recorded)
    ensures Remembers(after, ds + if recorded then [now] else [], now)
  {
    RememberLater(times, ds, clock, now);
    RememberMore(Recent(times, now), ds, now);
    assert ds + [] == ds;
  }

  lemma PulseRemembers(w: World, e: Event, th: Thresholds, ds: seq<real>, clock: real)
    requires e.PulseAttempt? && e.fate.now >= clock
    requires Remembers(w.state.pulseTimes, ds, clock) && Remembers(w.disk.pulseTimes, ds, clock)
    ensures var r := Step(w, e, th);
            var ds' := ds + if Arrives(w, e) && Recorded(e.fate) then [e.fate.now] else [];
            Remembers(r.state.pulseTimes, ds', e.fate.now) && Remembers(r.disk.pulseTimes, ds', e.fate.now)
  {
    var r := Step(w, e, th);
    var now := e.fate.now;
    var recorded := Arrives(w, e) && Recorded(e.fate);
    PulseTimesAfter(w, e, th);
    FollowsRemembers(r.state.pulseTimes, w.state.pulseTimes, ds, clock, now, recorded);
    if r.disk.pulseTimes == w.disk.pulseTimes {
      var times := if recorded then w.state.pulseTimes else w.disk.pulseTimes;
      FollowsRemembers(r.disk.pulseTimes, times, ds, clock, now, recorded);
    } else {
      FollowsRemembers(r.disk.pulseTimes, w.state.pulseTimes, ds, clock, now, recorded);
    }
  }

  /** No other step writes a pulse's time. */
  lemma OtherStepsKeepTimes(w: World, e: Event, th: Thresholds)
    requires !e.PulseAttempt?
    ensures From(Step(w, e, th).state.pulseTimes, w) && From(Step(w, e, th).disk.pulseTimes, w)
  {
    match e
    case CheckRun(check, findings, error, at, order) => ApplyKeepsTimes(w.state, check, findings, error, at, th, order);
    case EndCycle(at, order) => RemindersKeepTimes(w.state, PendingKeys(w.state.outbox), at, th, order);
    case Beat(fate, _) =>
      ClearStepTimes(w, fate, false);
      BeatStepTimes(w, fate, false);
    case Crash =>
  }

  lemma StepRemembers(w: World, e: Event, th: Thresholds, ds: seq<real>, clock: real, now: real)
    requires InOrder(ds, clock) && Remembers(w.state.pulseTimes, ds, clock) && Remembers(w.disk.pulseTimes, ds, clock)
    requires now >= clock && now >= 1.0 && now == if e.PulseAttempt? then e.fate.now else clock
    ensures var r := Step(w, e, th);
            var ds' := ds + if Arrives(w, e) && Recorded(e.fate) then [now] else [];
            InOrder(ds', now) && Remembers(r.state.pulseTimes, ds', now) && Remembers(r.disk.pulseTimes, ds', now)
  {
    if e.PulseAttempt? {
      PulseRemembers(w, e, th, ds, clock);
    } else {
      OtherStepsKeepTimes(w, e, th);
      assert ds + [] == ds;
    }
  }

  // What it means -----------------------------------------------------------------------

  /** At any moment of any run, with deaths anywhere, the limit lets a pulse through
      exactly when the recorded pulses permit it. */
  lemma TheLimitIs(es: seq<Event>, th: Thresholds, now: real)
    requires ClockGoesOn(es) && now >= Clock(es)
    ensures RateAllows(Run(es, th).state, now).1 <==> Permits(Recordings(es, th), now)
  {
    TimesAreRemembered(es, th);
    AllowedIff(Run(es, th).state, Recordings(es, th), Clock(es), now);
  }

  ghost predicate AllPermitted(ps: seq<Arrival>) {
    forall j :: 0 <= j < |ps| ==> Permits(RecordedOf(ps[..j]), ps[j].at)
  }

  lemma OneMorePermitted(ps: seq<Arrival>, a: Arrival)
    requires AllPermitted(ps) && Permits(RecordedOf(ps), a.at)
    ensures AllPermitted(ps + [a])
  {
    forall j | 0 <= j < |ps + [a]| ensures Permits(RecordedOf((ps + [a])[..j]), (ps + [a])[j].at) {
      assert (ps + [a])[..j] == ps[..j];
      assert ps[..|ps|] == ps;
    }
  }

  lemma {:induction false} EveryArrivalWasPermitted(es: seq<Event>, th: Thresholds)
    requires ClockGoesOn(es)
    ensures AllPermitted(Arrivals(es, th))
  {
    if es != [] {
      var init := es[..|es| - 1];
      var e := es[|es| - 1];
      EveryArrivalWasPermitted(init, th);
      assert Arrivals(init, th) + [] == Arrivals(init, th);
      if Arrives(Run(init, th), e) {
        TheLimitIs(init, th, e.fate.now);
        OneMorePermitted(Arrivals(init, th), Arrival(e.fate.now, Recorded(e.fate)));
      }
    }
  }

  lemma {:induction false} RecordedIn(ps: seq<Arrival>, i: nat)
    requires i < |ps| && ps[i].recorded
    ensures ps[i].at in RecordedOf(ps)
  {
    if i < |ps| - 1 {
      RecordedIn(ps[..|ps| - 1], i);
    }
  }

  function LastButEleven(ds: seq<real>): real
    requires |ds| >= 12
  {
    ds[|ds| - 12]
  }

  predicate Whole(t: real) {
    t == Second(t) as real
  }

  /** In any run, a pulse that the server handles comes more than 59 seconds after
      every recorded one, and 60 if that one was on a whole second; and more than 3599
      after the twelfth last recorded one, and 3600 if that one was on a whole second. */
  lemma PulsesAreLimited(es: seq<Event>, th: Thresholds)
    requires ClockGoesOn(es)
    ensures var ps := Arrivals(es, th);
            && (forall i, j :: 0 <= i < j < |ps| && ps[i].recorded ==>
                  ps[j].at - ps[i].at > 59.0 && (Whole(ps[i].at) ==> ps[j].at - ps[i].at >= 60.0))
            && (forall j :: 0 <= j < |ps| && |RecordedOf(ps[..j])| >= 12 ==>
                  var d := LastButEleven(RecordedOf(ps[..j]));
                  ps[j].at - d > 3599.0 && (Whole(d) ==> ps[j].at - d >= 3600.0))
  {
    EveryArrivalWasPermitted(es, th);
    var ps := Arrivals(es, th);
    forall i, j | 0 <= i < j < |ps| && ps[i].recorded
      ensures ps[j].at - Second(ps[i].at) as real >= 60.0
    {
      assert ps[..j][i] == ps[i];
      RecordedIn(ps[..j], i);
    }
  }

  /** When the recorded pulses leave room for another before the end. */
  predicate RoomBefore(ds: seq<real>, clock: real, end: real)
    requires ds != []
  {
    && clock < end && Second(ds[|ds| - 1]) as real + 60.0 < end
    && (|ds| >= 12 ==> Second(LastButEleven(ds)) as real + 3600.0 < end)
  }

  lemma PermittedBeforeIff(ds: seq<real>, clock: real, end: real)
    requires InOrder(ds, clock) && ds != []
    ensures RoomBefore(ds, clock, end) <==> exists now :: clock <= now < end && Permits(ds, now)
  {
    var last := ds[|ds| - 1];
    assert last in ds;
    if RoomBefore(ds, clock, end) {
      var hour := if |ds| >= 12 then Second(LastButEleven(ds)) as real + 3600.0 else clock;
      var now := Latest3(clock, Second(last) as real + 60.0, hour);
      assert forall d :: d in ds ==> Second(d) <= Second(last);
      assert Permits(ds, now);
    }
  }

  function Latest3(a: real, b: real, c: real): (r: real)
    ensures r >= a && r >= b && r >= c && (r == a || r == b || r == c)
  {
    if a >= b && a >= c then a else if b >= c then b else c
  }

  ghost predicate AllowsBefore(s: State, clock: real, end: real) {
    exists now :: clock <= now < end && RateAllows(s, now).1
  }

  lemma AllowedBeforeIff(es: seq<Event>, th: Thresholds, end: real)
    requires ClockGoesOn(es) && Recordings(es, th) != []
    ensures AllowsBefore(Run(es, th).state, Clock(es), end) <==> RoomBefore(Recordings(es, th), Clock(es), end)
  {
    TimesAreRemembered(es, th);
    PermittedBeforeIff(Recordings(es, th), Clock(es), end);
    forall now | now >= Clock(es) ensures RateAllows(Run(es, th).state, now).1 <==> Permits(Recordings(es, th), now) {
      TheLimitIs(es, th, now);
    }
  }

  lemma RoomInTheMinute(ds: seq<real>, clock: real)
    requires ds != []
    ensures var p := ds[|ds| - 1];
            RoomBefore(ds, clock, p + 60.0)
            == (!Whole(p) && clock < p + 60.0
                && (|ds| >= 12 ==> Second(LastButEleven(ds)) as real + 3600.0 < p + 60.0))
  {
  }

  lemma RoomInTheHour(ds: seq<real>, clock: real)
    requires |ds| >= 12
    ensures var q := LastButEleven(ds);
            RoomBefore(ds, clock, q + 3600.0)
            == (!Whole(q) && clock < q + 3600.0 && Second(ds[|ds| - 1]) as real + 60.0 < q + 3600.0)
  {
  }

  /** After a last recorded pulse at p, the limit lets another through in the minute
      from p exactly when p was not on a whole second, the clock is not past that
      minute, and the hour allows one more. */
  lemma AnEarlyPulseIff(es: seq<Event>, th: Thresholds, ds: seq<real>)
    requires ClockGoesOn(es) && ds == Recordings(es, th) && ds != []
    ensures var p := ds[|ds| - 1];
            AllowsBefore(Run(es, th).state, Clock(es), p + 60.0)
            == (!Whole(p) && Clock(es) < p + 60.0
                && (|ds| >= 12 ==> Second(LastButEleven(ds)) as real + 3600.0 < p + 60.0))
  {
    AllowedBeforeIff(es, th, ds[|ds| - 1] + 60.0);
    RoomInTheMinute(ds, Clock(es));
  }

  /** And in the hour from the twelfth last recorded pulse at q, a thirteenth. */
  lemma AThirteenthPulseIff(es: seq<Event>, th: Thresholds, ds: seq<real>)
    requires ClockGoesOn(es) && ds == Recordings(es, th) && |ds| >= 12
    ensures var q := LastButEleven(ds);
            AllowsBefore(Run(es, th).state, Clock(es), q + 3600.0)
            == (!Whole(q) && Clock(es) < q + 3600.0 && Second(ds[|ds| - 1]) as real + 60.0 < q + 3600.0)
  {
    AllowedBeforeIff(es, th, LastButEleven(ds) + 3600.0);
    RoomInTheHour(ds, Clock(es));
  }

  /** The same attempt at the same time, with an acknowledged /fail and no death. */
  function Again(e: Event): Event
    requires e.PulseAttempt?
  {
    PulseAttempt(e.fate.(fail := Acked, dies := None), e.staging, e.config, e.stamp, e.ongoing)
  }

  lemma JustNowIsTooSoon(s: State, times: seq<int>, now: real)
    requires now >= 1.0 && s.pulseTimes == times + [Second(now)]
    ensures !RateAllows(s, now).1
  {
    RecentHas(s.pulseTimes, now, |times|);
    assert Second(now) <= Latest(Recent(s.pulseTimes, now));
  }

  lemma ARecordedPulseWaits(w: World, e: Event, th: Thresholds)
    requires Arrives(w, e) && Recorded(e.fate) && e.fate.now >= 1.0
    ensures !Arrives(Step(w, e, th), Again(e))
  {
    PulseTimesAfter(w, e, th);
    JustNowIsTooSoon(Step(w, e, th).state, Recent(w.state.pulseTimes, e.fate.now), e.fate.now);
  }

  lemma AForgottenPulseComesAgain(w: World, e: Event, th: Thresholds)
    requires Arrives(w, e) && !Recorded(e.fate)
    ensures Arrives(Step(w, e, th), Again(e))
  {
    ForgottenState(w, e, th);
    FilteringTwice(w.state.pulseTimes, e.fate.now, e.fate.now);
  }

  /** A pulse that the server handled comes again, at once, exactly when it was not
      recorded: when the agent did not learn it, or died before it saved its time. */
  lemma APulseComesAgainIff(w: World, e: Event, th: Thresholds)
    requires Arrives(w, e) && e.fate.now >= 1.0
    ensures Arrives(Step(w, e, th), Again(e)) <==> !Recorded(e.fate)
  {
    if Recorded(e.fate) {
      ARecordedPulseWaits(w, e, th);
    } else {
      AForgottenPulseComesAgain(w, e, th);
    }
  }

  lemma ForgottenState(w: World, e: Event, th: Thresholds)
    requires Arrives(w, e) && !Recorded(e.fate)
    ensures Step(w, e, th).state == Prepared(w, CandidateOf(w, e).0, e.fate).state
  {
  }

  // Such runs exist -----------------------------------------------------------------------

  const DOWN := Finding("k", Failing, Low, "down", Once)

  /** A check finds one problem at time p, and the agent sends a pulse at once. */
  function OnePulse(config: Config, stamp: Stamp, p: real): seq<Event> {
    [CheckRun(Check("c", ["k"]), [DOWN], None, p, []),
     PulseAttempt(Fate(p, "id", Acked, Acked, Acked, None), false, config, stamp, [])]
  }

  lemma OneFinding(th: Thresholds, p: real)
    ensures var s := Track(NEW_STATE, DOWN, p, th);
            s.outbox == [Item(New, "k", Low, Sanitize("down"))] && s.problems.Keys == {"k"} && s.pulseTimes == []
  {
    assert Except([], "k", false) == [];
  }

  lemma TrackAllOfTwo(s: State, a: Finding, b: Finding, now: real, th: Thresholds)
    ensures TrackAll(s, [a, b], now, th) == Track(Track(s, a, now, th), b, now, th)
  {
    assert [a, b][..1] == [a] && [a][..0] == [];
    assert TrackAll(s, [a], now, th) == Track(s, a, now, th);
  }

  lemma PassingElsewhere(s: State, key: string, now: real, th: Thresholds)
    requires key !in s.problems
    ensures var t := Track(s, Finding(key, Ok, Low, "", Once), now, th);
            t.outbox == s.outbox && t.pulseTimes == s.pulseTimes
  {
  }

  lemma OneProblem(th: Thresholds, p: real)
    ensures var s := Apply(NEW_STATE, Check("c", ["k"]), [DOWN], None, p, th, []);
            s.outbox == [Item(New, "k", Low, Sanitize("down"))] && s.pulseTimes == []
  {
    var check := Check("c", ["k"]);
    var key := ErrorKey(check);
    assert |key| > 1;
    OneFinding(th, p);
    PassingElsewhere(Track(NEW_STATE, DOWN, p, th), key, p, th);
    TrackAllOfTwo(NEW_STATE, DOWN, ErrorFinding(check, None), p, th);
    AppliedFindings(check, th, p);
  }

  lemma AppliedFindings(check: Check, th: Thresholds, p: real)
    ensures Apply(NEW_STATE, check, [DOWN], None, p, th, [])
            == TrackAll(NEW_STATE, [DOWN, ErrorFinding(check, None)], p, th)
  {
    assert Forget(NEW_STATE, check, KeysOf([DOWN])) == NEW_STATE;
    assert [DOWN] + Vanished(check, KeysOf([DOWN]), []) + [ErrorFinding(check, None)]
        == [DOWN, ErrorFinding(check, None)];
  }

  lemma FirstPulseArrives(w: World, fate: Fate, config: Config, stamp: Stamp)
    requires |w.state.outbox| == 1 && w.state.outbox[0].section == New && w.state.pulseTimes == []
    requires fate.fail == Acked && fate.dies.None?
    ensures Arrives(w, PulseAttempt(fate, false, config, stamp, []))
  {
    assert Recent([], fate.now) == [];
    assert w.state.outbox[0] in w.state.outbox;
    PulseCarriesWhatFits(config, w.state.outbox, [], stamp, fate.pulse, w.state.rateLimited);
  }

  lemma NoneIsRecorded(th: Thresholds, config: Config, stamp: Stamp, p: real)
    requires p >= 1.0
    ensures var first := [OnePulse(config, stamp, p)[0]];
            var w := Run(first, th);
            && Recordings(first, th) == [] && w.state.pulseTimes == []
            && |w.state.outbox| == 1 && w.state.outbox[0].section == New
  {
    var first := [OnePulse(config, stamp, p)[0]];
    assert first[..0] == [];
    OneProblem(th, p);
    assert Run(first, th) == Step(INITIAL, first[0], th);
    RecordingsStep(first, th);
  }

  lemma AnotherIsRecorded(first: seq<Event>, e: Event, th: Thresholds)
    requires Recordings(first, th) == []
    requires var w := Run(first, th);
             |w.state.outbox| == 1 && w.state.outbox[0].section == New && w.state.pulseTimes == []
    requires e.PulseAttempt? && !e.staging && e.ongoing == [] && e.fate.fail == Acked && e.fate.dies.None?
    ensures Recordings(first + [e], th) == [e.fate.now]
  {
    assert (first + [e])[..|first|] == first;
    FirstPulseArrives(Run(first, th), e.fate, e.config, e.stamp);
    RecordingsStep(first + [e], th);
  }

  lemma OneIsRecorded(th: Thresholds, config: Config, stamp: Stamp, p: real)
    requires p >= 1.0
    ensures Recordings(OnePulse(config, stamp, p), th) == [p]
  {
    var es := OnePulse(config, stamp, p);
    NoneIsRecorded(th, config, stamp, p);
    AnotherIsRecorded([es[0]], es[1], th);
    assert es == [es[0]] + [es[1]];
  }

  lemma ClockOfOne(config: Config, stamp: Stamp, p: real)
    requires p >= 1.0
    ensures ClockGoesOn(OnePulse(config, stamp, p)) && Clock(OnePulse(config, stamp, p)) == p
  {
    var es := OnePulse(config, stamp, p);
    assert es[..1] == [es[0]] && [es[0]][..0] == [];
    assert Clock([es[0]]) == 1.0 && ClockGoesOn([es[0]]);
  }

  /** So a run may send its first pulse at any time p, and then, exactly if p is not on
      a whole second, a second one less than a minute later. */
  lemma OnePulseIsRecorded(th: Thresholds, config: Config, stamp: Stamp, p: real)
    requires p >= 1.0
    ensures var es := OnePulse(config, stamp, p);
            && ClockGoesOn(es) && Clock(es) == p && Recordings(es, th) == [p]
            && (AllowsBefore(Run(es, th).state, p, p + 60.0) <==> !Whole(p))
  {
    var es := OnePulse(config, stamp, p);
    ClockOfOne(config, stamp, p);
    OneIsRecorded(th, config, stamp, p);
    AnEarlyPulseIff(es, th, [p]);
  }
}
