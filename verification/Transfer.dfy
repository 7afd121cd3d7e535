/** Monthly traffic accounting on the public interface
    (scripts/host_runtime/transfer_counter.py).

    Dates are Gregorian; the year is unbounded, where Python stops at 1 and 9999.
 */
module Transfer {
  import opened Common

  // Dates ---------------------------------------------------------------------

  datatype Date = Date(year: int, month: int, day: int)

  predicate Leap(year: int) {
    year % 4 == 0 && (year % 100 != 0 || year % 400 == 0)
  }

  function DaysIn(year: int, month: int): (n: int)
    ensures 28 <= n <= 31
  {
    if month == 2 then (if Leap(year) then 29 else 28)
    else if month == 4 || month == 6 || month == 9 || month == 11 then 30
    else 31
  }

  predicate IsDate(d: Date) {
    1 <= d.month <= 12 && 1 <= d.day <= DaysIn(d.year, d.month)
  }

  predicate Before(a: Date, b: Date) {
    a.year < b.year || (a.year == b.year && (a.month < b.month || (a.month == b.month && a.day < b.day)))
  }

  predicate NotAfter(a: Date, b: Date) {
    a == b || Before(a, b)
  }

  function NextDay(d: Date): Date {
    if d.day < DaysIn(d.year, d.month) then d.(day := d.day + 1)
    else if d.month < 12 then Date(d.year, d.month + 1, 1)
    else Date(d.year + 1, 1, 1)
  }

  function PreviousDay(d: Date): Date {
    if d.day > 1 then d.(day := d.day - 1)
    else if d.month > 1 then Date(d.year, d.month - 1, DaysIn(d.year, d.month - 1))
    else Date(d.year - 1, 12, 31)
  }

  function AddDays(d: Date, n: nat): Date
    decreases n
  {
    if n == 0 then d else AddDays(NextDay(d), n - 1)
  }

  /** The next day is the least later date, and the previous day undoes it. */
  lemma NextDayIsAdjacent(d: Date, e: Date)
    requires IsDate(d) && IsDate(e)
    ensures IsDate(NextDay(d)) && IsDate(PreviousDay(d))
    ensures PreviousDay(NextDay(d)) == d && NextDay(PreviousDay(d)) == d
    ensures Before(d, e) <==> NotAfter(NextDay(d), e)
  {
  }

  lemma {:induction false} AddWithinMonth(d: Date, n: nat)
    requires IsDate(d) && d.day + n <= DaysIn(d.year, d.month)
    ensures AddDays(d, n) == d.(day := d.day + n)
    decreases n
  {
    if n > 0 {
      AddWithinMonth(NextDay(d), n - 1);
    }
  }

  lemma {:induction false} AddInTwoSteps(d: Date, m: nat, n: nat)
    ensures AddDays(d, m + n) == AddDays(AddDays(d, m), n)
    decreases m
  {
    if m > 0 {
      AddInTwoSteps(NextDay(d), m - 1, n);
    }
  }

  function FirstOfNextMonth(d: Date): Date {
    if d.month < 12 then Date(d.year, d.month + 1, 1) else Date(d.year + 1, 1, 1)
  }

  /** The 1st plus 32 days is always in the following month, on its 2nd to 5th. */
  lemma ThirtyTwoDaysOn(d: Date)
    requires IsDate(d) && d.day == 1
    ensures AddDays(d, 32) == FirstOfNextMonth(d).(day := 33 - DaysIn(d.year, d.month))
  {
    var n := DaysIn(d.year, d.month);
    var last := d.(day := n);
    AddWithinMonth(d, n - 1);
    AddInTwoSteps(d, n - 1, 32 - (n - 1));
    assert AddDays(last, 32 - (n - 1)) == AddDays(FirstOfNextMonth(d), 32 - n);
    AddWithinMonth(FirstOfNextMonth(d), 32 - n);
  }

  // Periods -------------------------------------------------------------------

  /** The reset day of this month, or of the month before if it is still to come. */
  function PeriodStart(today: Date, resetDay: int): Date {
    if today.day >= resetDay then today.(day := resetDay)
    else PreviousDay(today.(day := 1)).(day := resetDay)
  }

  function NextReset(today: Date, resetDay: int): Date {
    AddDays(PeriodStart(today, resetDay).(day := 1), 32).(day := resetDay)
  }

  /** Today lies in its period, both ends are dates on the reset day, and every
      date of the period has the same start and the same next reset. So the periods
      partition the calendar, over every month length and leap year. */
  lemma PeriodsPartitionTheCalendar(today: Date, other: Date, resetDay: int)
    requires IsDate(today) && IsDate(other) && 1 <= resetDay <= 28
    ensures var start := PeriodStart(today, resetDay);
            var end := NextReset(today, resetDay);
            && IsDate(start) && IsDate(end) && start.day == end.day == resetDay
            && NotAfter(start, today) && Before(today, end)
            && (NotAfter(start, other) && Before(other, end) <==> PeriodStart(other, resetDay) == start)
            && (PeriodStart(other, resetDay) == start ==> NextReset(other, resetDay) == end)
  {
    ThirtyTwoDaysOn(PeriodStart(today, resetDay).(day := 1));
    ThirtyTwoDaysOn(PeriodStart(other, resetDay).(day := 1));
  }

  lemma LaterDatesHaveLaterPeriods(a: Date, b: Date, resetDay: int)
    requires IsDate(a) && IsDate(b) && 1 <= resetDay <= 28 && NotAfter(a, b)
    ensures NotAfter(PeriodStart(a, resetDay), PeriodStart(b, resetDay))
  {
  }

  // Accounting ----------------------------------------------------------------

  datatype Reading = Reading(rx: nat, tx: nat, boot: string)
  datatype State = State(periodStart: Date, lastReset: Option<Date>, total: nat, last: Reading)

  /** The counters went on from the last reading, as far as one can tell from it. */
  predicate Continues(last: Reading, now: Reading) {
    last.boot == now.boot && now.rx >= last.rx && now.tx >= last.tx
  }

  function Delta(last: Reading, now: Reading): nat {
    if Continues(last, now) then (now.rx - last.rx) + (now.tx - last.tx) else now.rx + now.tx
  }

  function Tick(state: Option<State>, today: Date, resetDay: int, now: Reading): State {
    var start := PeriodStart(today, resetDay);
    match state
    case None => State(start, None, 0, now)
    case Some(s) =>
      if s.periodStart != start
      then State(start, Some(today), Delta(s.last, now), now)
      else s.(total := s.total + Delta(s.last, now), last := now)
  }

  // The interface, and what is true of it --------------------------------------

  /** What the network does between ticks. A restart zeroes both counters, with a
      new boot id (a reboot) or the old one (a driver reload). */
  datatype Event = Traffic(rx: nat, tx: nat) | Restart(boot: string) | Read(today: Date)

  /** The interface and the service, with the true byte counts beside them:
      `counted` and `truth` are as of the last reading, `rx`/`tx` since it. */
  datatype World = World(now: Reading, state: Option<State>, closed: seq<State>,
                         counted: nat, truth: nat, rx: nat, tx: nat, restarted: bool)

  function Start(boot: string): World {
    World(Reading(0, 0, boot), None, [], 0, 0, 0, 0, false)
  }

  function Step(w: World, e: Event, resetDay: int): World {
    match e
    case Traffic(rx, tx) =>
      w.(now := w.now.(rx := w.now.rx + rx, tx := w.now.tx + tx), rx := w.rx + rx, tx := w.tx + tx)
    case Restart(boot) => w.(now := Reading(0, 0, boot), restarted := true)
    case Read(today) =>
      var s := Tick(w.state, today, resetDay, w.now);
      var first := w.state.None?;
      World(w.now, Some(s),
            if !first && w.state.value.periodStart != s.periodStart then w.closed + [w.state.value] else w.closed,
            w.counted + if first then 0 else Delta(w.state.value.last, w.now),
            w.truth + if first then 0 else w.rx + w.tx,
            0, 0, false)
  }

  function Run(boot: string, es: seq<Event>, resetDay: int): World {
    if es == [] then Start(boot) else Step(Run(boot, es[..|es| - 1], resetDay), es[|es| - 1], resetDay)
  }

  function Sum(closed: seq<State>): nat {
    if closed == [] then 0 else Sum(closed[..|closed| - 1]) + closed[|closed| - 1].total
  }

  /** What the counters show of the bytes since the last reading. */
  ghost predicate CountersShow(w: World) {
    w.state.Some? ==>
      var last := w.state.value.last;
      if w.restarted then w.now.rx <= w.rx && w.now.tx <= w.tx
      else w.now == Reading(last.rx + w.rx, last.tx + w.tx, last.boot)
  }

  lemma {:induction false} CountersAlwaysShow(boot: string, es: seq<Event>, resetDay: int)
    ensures CountersShow(Run(boot, es, resetDay))
  {
    if es != [] {
      CountersAlwaysShow(boot, es[..|es| - 1], resetDay);
    }
  }

  /** Every byte a reading misses, exactly. Nothing without a restart; otherwise
      what passed before the (last) restart, and on top the last reading itself
      when the counters have already grown past it. */
  lemma ReadingError(w: World)
    requires w.state.Some? && CountersShow(w)
    ensures var last := w.state.value.last;
            w.rx + w.tx - Delta(last, w.now) ==
            if !w.restarted then 0
            else (w.rx - w.now.rx) + (w.tx - w.now.tx)
                 + if last.boot == w.now.boot && w.now.rx >= last.rx && w.now.tx >= last.tx then last.rx + last.tx
                   else 0
  {
  }

  predicate NoRestarts(es: seq<Event>) {
    forall i :: 0 <= i < |es| ==> !es[i].Restart?
  }

  /** In every run the totals of all periods, closed and current, add up to the
      bytes counted; these never exceed the true bytes, and equal them when the
      counters never restarted. */
  lemma {:induction false} NeverOvercounts(boot: string, es: seq<Event>, resetDay: int)
    ensures var w := Run(boot, es, resetDay);
            && w.counted == Sum(w.closed) + (if w.state.Some? then w.state.value.total else 0)
            && w.counted <= w.truth
            && (NoRestarts(es) ==> w.counted == w.truth && !w.restarted)
  {
    if es != [] {
      var init := es[..|es| - 1];
      var v := Run(boot, init, resetDay);
      NeverOvercounts(boot, init, resetDay);
      CountersAlwaysShow(boot, init, resetDay);
      if es[|es| - 1].Read? && v.state.Some? {
        ReadingError(v);
        assert (v.closed + [v.state.value])[..|v.closed|] == v.closed;
      }
    }
  }

  /** The dates of the readings, in order, never go back. */
  ghost predicate DatesInOrder(es: seq<Event>) {
    && (forall i :: 0 <= i < |es| && es[i].Read? ==> IsDate(es[i].today))
    && (forall i, j :: 0 <= i < j < |es| && es[i].Read? && es[j].Read? ==> NotAfter(es[i].today, es[j].today))
  }

  /** The date of the last reading. */
  function LastToday(es: seq<Event>): Option<Date> {
    if es == [] then None
    else if es[|es| - 1].Read? then Some(es[|es| - 1].today)
    else LastToday(es[..|es| - 1])
  }

  /** The reading that opened the current period, if it was not the first of all. */
  ghost predicate ResetOn(es: seq<Event>, s: State, resetDay: int) {
    exists i :: 0 <= i < |es| && es[i].Read? && s.lastReset == Some(es[i].today)
                && PeriodStart(es[i].today, resetDay) == s.periodStart
                && forall j :: 0 <= j < i && es[j].Read? ==> PeriodStart(es[j].today, resetDay) != s.periodStart
  }

  lemma ResetStays(init: seq<Event>, e: Event, was: State, now: State, resetDay: int)
    requires ResetOn(init, was, resetDay) && now.lastReset == was.lastReset && now.periodStart == was.periodStart
    ensures ResetOn(init + [e], now, resetDay)
  {
    var i :| 0 <= i < |init| && init[i].Read? && was.lastReset == Some(init[i].today)
        && PeriodStart(init[i].today, resetDay) == was.periodStart
        && forall j :: 0 <= j < i && init[j].Read? ==> PeriodStart(init[j].today, resetDay) != was.periodStart;
    var es := init + [e];
    assert es[i] == init[i];
    assert forall j :: 0 <= j < i ==> es[j] == init[j];
  }

  /** The day of the last reset is that of the first reading in the current period; there
      is none in the period of the first reading. */
  lemma {:induction false} TheResetIsDated(boot: string, es: seq<Event>, resetDay: int)
    requires 1 <= resetDay <= 28 && DatesInOrder(es)
    ensures var w := Run(boot, es, resetDay);
            w.state.Some? ==>
              (w.closed == [] <==> w.state.value.lastReset == None)
              && (w.closed != [] ==> ResetOn(es, w.state.value, resetDay))
  {
    if es != [] {
      var init, e := es[..|es| - 1], es[|es| - 1];
      var v, w := Run(boot, init, resetDay), Run(boot, es, resetDay);
      TheResetIsDated(boot, init, resetDay);
      EachPeriodResetsOnce(boot, init, resetDay);
      assert es == init + [e];
      if w.state.Some? && w.closed != [] {
        if e.Read? && v.state.Some? && v.state.value.periodStart != w.state.value.periodStart {
          NewPeriod(boot, es, resetDay);
        } else {
          ResetStays(init, e, v.state.value, w.state.value, resetDay);
        }
      }
    }
  }

  lemma NewPeriod(boot: string, es: seq<Event>, resetDay: int)
    requires 1 <= resetDay <= 28 && DatesInOrder(es) && es != [] && es[|es| - 1].Read?
    requires var v := Run(boot, es[..|es| - 1], resetDay);
             v.state.Some? && v.state.value.periodStart != PeriodStart(es[|es| - 1].today, resetDay)
    ensures ResetOn(es, Run(boot, es, resetDay).state.value, resetDay)
  {
    var init, e := es[..|es| - 1], es[|es| - 1];
    EachPeriodResetsOnce(boot, init, resetDay);
    LastTodayIsARead(init);
    forall j | 0 <= j < |init| && es[j].Read?
      ensures PeriodStart(es[j].today, resetDay) != PeriodStart(e.today, resetDay)
    {
      LastIsLatest(init, j);
      LaterDatesHaveLaterPeriods(es[j].today, LastToday(init).value, resetDay);
      LaterDatesHaveLaterPeriods(LastToday(init).value, e.today, resetDay);
    }
  }

  lemma {:induction false} LastIsLatest(es: seq<Event>, j: nat)
    requires DatesInOrder(es) && j < |es| && es[j].Read?
    ensures LastToday(es).Some? && IsDate(LastToday(es).value) && NotAfter(es[j].today, LastToday(es).value)
  {
    if !es[|es| - 1].Read? {
      LastIsLatest(es[..|es| - 1], j);
    }
  }

  ghost predicate StartsIncrease(closed: seq<State>) {
    forall i, j :: 0 <= i < j < |closed| ==> Before(closed[i].periodStart, closed[j].periodStart)
  }

  lemma {:induction false} LastTodayIsARead(es: seq<Event>)
    ensures LastToday(es).Some? ==> exists i :: 0 <= i < |es| && es[i].Read? && es[i].today == LastToday(es).value
  {
    if es != [] && !es[|es| - 1].Read? {
      LastTodayIsARead(es[..|es| - 1]);
    }
  }

  /** While dates do not go back, each period is opened once and its total is
      reset exactly once, when the next one begins: the closed periods and the
      current one have strictly increasing starts, whatever restarts happen. */
  lemma {:induction false} EachPeriodResetsOnce(boot: string, es: seq<Event>, resetDay: int)
    requires 1 <= resetDay <= 28 && DatesInOrder(es)
    ensures var w := Run(boot, es, resetDay);
            && (w.state.Some? <==> LastToday(es).Some?)
            && (w.state.None? ==> w.closed == [])
            && (w.state.Some? ==>
                  && w.state.value.periodStart == PeriodStart(LastToday(es).value, resetDay)
                  && StartsIncrease(w.closed + [w.state.value]))
  {
    if es != [] {
      var init := es[..|es| - 1];
      var e := es[|es| - 1];
      EachPeriodResetsOnce(boot, init, resetDay);
      var v := Run(boot, init, resetDay);
      if e.Read? && v.state.Some? {
        LastTodayIsARead(init);
        assert NotAfter(LastToday(init).value, e.today);
        LaterDatesHaveLaterPeriods(LastToday(init).value, e.today, resetDay);
        var w := Run(boot, es, resetDay);
        var before := v.closed + [v.state.value];
        var after := w.closed + [w.state.value];
        var n := |v.closed|;
        forall i, j | 0 <= i < j < |after| ensures Before(after[i].periodStart, after[j].periodStart) {
          assert i <= n && (j <= n ==> before[j].periodStart == after[j].periodStart);
          assert before[i].periodStart == after[i].periodStart;
          assert i < n ==> Before(before[i].periodStart, before[n].periodStart);
        }
      }
    }
  }
}
