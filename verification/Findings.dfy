/** What one result of a check does to the problems and to the messages about them,
    what is reminded and delivered, and why an urgent problem is always told as one.
 */
module Findings {
  import opened Common
  import opened Text
  import opened PulseBody
  import opened Agent
  import opened Ledger

  // One finding ---------------------------------------------------------------------------

  /** After how many failures in a row a problem opens, and after how many passes it
      closes. */
  predicate Needs(kind: Kind, th: Thresholds, fails: nat, passes: nat) {
    match kind
    case Fast => fails == th.fastFail && passes == th.fastFail
    case Service => fails == th.serviceFail && passes == 1
    case Once => fails == 1 && passes == 1
  }

  function FailsOf(s: State, key: string): nat {
    if key in s.debounce then s.debounce[key].fails else 0
  }

  function PassesOf(s: State, key: string): nat {
    if key in s.debounce then s.debounce[key].passes else 0
  }

  /** Nothing about other keys changes. */
  ghost predicate OnlyAbout(s: State, t: State, key: string) {
    && (forall k :: k != key ==>
          && (k in t.problems <==> k in s.problems) && (k in s.problems ==> t.problems[k] == s.problems[k])
          && (k in t.debounce <==> k in s.debounce) && (k in s.debounce ==> t.debounce[k] == s.debounce[k]))
    && (forall x :: x in s.outbox && x.key != key <==> x in t.outbox && x.key != key)
    && t.pulseTimes == s.pulseTimes && t.rateLimited == s.rateLimited && t.pendingClear == s.pendingClear
    && t.pendingPulse == s.pendingPulse
  }

  /** A NEW takes the place of the key's NEW or REMINDER; its RESOLVED stays. */
  ghost predicate NewQueued(s: State, t: State, key: string, priority: Priority, message: string) {
    forall x :: x in t.outbox && x.key == key <==>
                x == Item(New, key, priority, Sanitize(message))
                || (x in s.outbox && x.key == key && x.section != New && x.section != Reminder)
  }

  ghost predicate SameItems(s: State, t: State, key: string) {
    forall x :: x in t.outbox && x.key == key <==> x in s.outbox && x.key == key
  }

  /** A failure is counted, and a pass forgotten. The problem opens when there are
      enough failures; an open one takes the new message and priority. A NEW is queued
      exactly when it opens, or when it becomes urgent. */
  lemma WhatAFailureDoes(s: State, f: Finding, now: real, th: Thresholds, fails: nat, passes: nat)
    requires f.verdict == Failing && Needs(f.kind, th, fails, passes)
    ensures var t := Track(s, f, now, th);
            var opens := f.key !in s.problems && FailsOf(s, f.key) + 1 >= fails;
            var worsens := f.key in s.problems && s.problems[f.key].priority == Low && f.priority == High;
            && OnlyAbout(s, t, f.key)
            && f.key in t.debounce && t.debounce[f.key] == Counters(FailsOf(s, f.key) + 1, 0)
            && (f.key in t.problems <==> f.key in s.problems || opens)
            && (opens ==>
                  t.problems[f.key]
                  == Problem(f.priority, Sanitize(f.message), now.Floor, false, None, None, s.nextOpening)
                  && t.nextOpening == s.nextOpening + 1)
            && (f.key in s.problems ==>
                  t.problems[f.key] == s.problems[f.key].(priority := f.priority, message := Sanitize(f.message)))
            && (if opens || worsens then NewQueued(s, t, f.key, f.priority, f.message) else SameItems(s, t, f.key))
  {
    var counted := s.(debounce := s.debounce[f.key := Counters(FailsOf(s, f.key) + 1, 0)]);
    assert Count(CountersOf(s, f.key), Failing) == Counters(FailsOf(s, f.key) + 1, 0);
    if f.key in s.problems {
      GoingOnDoes(s, counted, f);
    } else if FailsOf(s, f.key) + 1 >= fails {
      OpeningDoes(s, counted, f, now);
    }
  }

  /** The counted state differs from the one before in the key's counters. */
  predicate CountedOnly(s: State, counted: State, key: string) {
    key in counted.debounce && counted == s.(debounce := s.debounce[key := counted.debounce[key]])
  }

  lemma OpeningDoes(s: State, counted: State, f: Finding, now: real)
    requires CountedOnly(s, counted, f.key) && f.key !in s.problems
    ensures var t := Opened(counted, f, now);
            && OnlyAbout(s, t, f.key) && NewQueued(s, t, f.key, f.priority, f.message) && f.key in t.problems
            && t.problems[f.key]
               == Problem(f.priority, Sanitize(f.message), now.Floor, false, None, None, s.nextOpening)
            && t.nextOpening == s.nextOpening + 1 && t.debounce == counted.debounce
  {
    ExceptMeans(s.outbox, f.key, false);
  }

  lemma GoingOnDoes(s: State, counted: State, f: Finding)
    requires CountedOnly(s, counted, f.key) && f.key in s.problems
    ensures var t := StillFailing(counted, f);
            && OnlyAbout(s, t, f.key) && f.key in t.problems && t.debounce == counted.debounce
            && t.problems[f.key] == s.problems[f.key].(priority := f.priority, message := Sanitize(f.message))
            && (if s.problems[f.key].priority == Low && f.priority == High
                then NewQueued(s, t, f.key, f.priority, f.message) else SameItems(s, t, f.key))
  {
    ExceptMeans(s.outbox, f.key, false);
  }

  /** A pass is counted, and a failure forgotten. An open problem closes when there are
      enough passes; then nothing else about it is queued but, if it was announced, its
      RESOLVED. */
  lemma WhatAPassDoes(s: State, f: Finding, now: real, th: Thresholds, fails: nat, passes: nat)
    requires f.verdict == Ok && Needs(f.kind, th, fails, passes)
    ensures var t := Track(s, f, now, th);
            var closes := f.key in s.problems && PassesOf(s, f.key) + 1 >= passes;
            && OnlyAbout(s, t, f.key)
            && (f.key in t.problems <==> f.key in s.problems && !closes)
            && (f.key in t.problems ==> t.problems[f.key] == s.problems[f.key])
            && (f.key in t.debounce <==> f.key in s.problems && !closes)
            && (f.key in t.debounce ==> t.debounce[f.key] == Counters(0, PassesOf(s, f.key) + 1))
            && (if closes then OnlyResolved(s.problems[f.key], t, f.key, now) else SameItems(s, t, f.key))
  {
    if f.key in s.problems {
      var counted := s.(debounce := s.debounce[f.key := Counters(0, PassesOf(s, f.key) + 1)]);
      ClosingLeaves(counted, f.key, now);
    }
  }

  /** The RESOLVED names the time for which the problem was open, and its message. */
  ghost predicate OnlyResolved(p: Problem, t: State, key: string, now: real) {
    var text := "resolved (was open " + HumanDuration(now - TimeOr(Some(p.firstSeen), now)) + "): " + p.message;
    forall x :: x in t.outbox && x.key == key <==>
                p.announced && x == Item(Resolved, key, p.priority, Sanitize(text))
  }

  /** The number with two digits at least. */
  predicate TwoDigits(text: string, n: nat) {
    text == if n < 10 then ['0', '0' + n as char] else Decimal(n)
  }

  /** The time is printed in two units at most, rounded down. */
  ghost predicate Rounded(text: string, s: nat) {
    if s < 120 then text == Decimal(s) + "s"
    else if s < 2 * 3600 then exists m: nat :: text == Decimal(m) + "m" && 60 * m <= s < 60 * m + 60
    else if s < 2 * 86400 then
      exists h: nat, m: nat, mm ::
        text == Decimal(h) + "h" + mm + "m" && TwoDigits(mm, m) && m < 60
        && 3600 * h + 60 * m <= s < 3600 * h + 60 * m + 60
    else
      exists d: nat, h: nat :: text == Decimal(d) + "d" + Decimal(h) + "h" && h < 24
                               && 86400 * d + 3600 * h <= s < 86400 * d + 3600 * h + 3600
  }

  lemma DurationsAreRounded(seconds: real)
    ensures Rounded(HumanDuration(seconds), if seconds <= 0.0 then 0 else seconds.Floor)
  {
    var s: nat := if seconds <= 0.0 then 0 else seconds.Floor;
    if 120 <= s < 2 * 3600 {
      assert HumanDuration(seconds) == Decimal(s / 60) + "m";
    } else if 2 * 3600 <= s < 2 * 86400 {
      HoursAreRounded(seconds, s);
    } else if s >= 2 * 86400 {
      DaysAreRounded(seconds, s);
    }
  }

  lemma HoursAreRounded(seconds: real, s: nat)
    requires seconds > 0.0 && s == seconds.Floor && 2 * 3600 <= s < 2 * 86400
    ensures Rounded(HumanDuration(seconds), s)
  {
    var m := s / 60 % 60;
    var mm := (if m < 10 then "0" else "") + Decimal(m);
    TwoDigitsMean(m, mm);
    assert HumanDuration(seconds) == Decimal(s / 60 / 60) + "h" + mm + "m";
  }

  lemma DaysAreRounded(seconds: real, s: nat)
    requires seconds > 0.0 && s == seconds.Floor && s >= 2 * 86400
    ensures Rounded(HumanDuration(seconds), s)
  {
    var hours := s / 60 / 60;
    assert HumanDuration(seconds) == Decimal(hours / 24) + "d" + Decimal(hours % 24) + "h";
  }

  lemma TwoDigitsMean(n: nat, text: string)
    requires n < 60 && text == (if n < 10 then "0" else "") + Decimal(n)
    ensures TwoDigits(text, n)
  {
    if n < 10 {
      assert Decimal(n) == [DIGITS[n]] && DIGITS[n] == '0' + n as char;
    } else {
      assert text == Decimal(n);
    }
  }

  lemma ClosingLeaves(s: State, key: string, now: real)
    requires key in s.problems
    ensures OnlyResolved(s.problems[key], Cleared(s, key, now), key, now)
    ensures forall x: Item :: x.key != key ==> (x in Cleared(s, key, now).outbox <==> x in s.outbox)
  {
    ExceptMeans(s.outbox, key, true);
    ExceptMeans(Except(s.outbox, key, true), key, true);
  }

  /** A time that is not on record counts as now; so does the epoch. */
  lemma TimesOnRecord(t: Option<int>, now: real)
    ensures TimeOr(t, now) == if t == None || t == Some(0) then now else t.value as real
  {
  }

  /** A check that cannot tell changes at most the message of an open problem. */
  lemma WhatAHoldDoes(s: State, f: Finding, now: real, th: Thresholds)
    requires f.verdict == Hold
    ensures Track(s, f, now, th)
            == if f.key in s.problems && |f.message| > 0
               then s.(problems := s.problems[f.key := s.problems[f.key].(message := Sanitize(f.message))]) else s
  {
  }

  // Whole checks ------------------------------------------------------------------------------

  /** The key is one of the check's, or one under it. */
  predicate Under(prefixes: seq<string>, key: string) {
    exists i | 0 <= i < |prefixes| ::
      key == prefixes[i] || (|key| > |prefixes[i]| && key[..|prefixes[i]|] == prefixes[i] && key[|prefixes[i]|] == ':')
  }

  lemma UnderMeans(check: Check, key: string)
    ensures Owns(check, key) <==> Under(check.prefixes, key)
  {
    forall prefix: string ensures OwnedBy(prefix, key)
        <==> key == prefix || (|key| > |prefix| && key[..|prefix|] == prefix && key[|prefix|] == ':')
    {
      if |key| > |prefix| && key[..|prefix|] == prefix && key[|prefix|] == ':' {
        assert key[..|prefix| + 1] == prefix + ":";
      }
      if prefix + ":" <= key {
        assert key[..|prefix|] == (prefix + ":")[..|prefix|] == prefix;
      }
    }
  }

  /** The findings about what is gone, once each. */
  ghost predicate TellsGone(s: State, prefixes: seq<string>, findings: seq<Finding>, gone: seq<Finding>) {
    && (forall i, j :: 0 <= i < j < |gone| ==> gone[i].key != gone[j].key)
    && forall f :: f in gone <==>
         && f == Finding(f.key, Ok, Low, "no longer present", Once)
         && f.key in s.problems && Under(prefixes, f.key)
         && forall g :: g in findings ==> g.key != f.key
  }

  lemma {:induction false} VanishedOnce(check: Check, seen: set<string>, order: seq<string>)
    requires forall i, j :: 0 <= i < j < |order| ==> order[i] != order[j]
    ensures var gone := Vanished(check, seen, order);
            forall i, j :: 0 <= i < j < |gone| ==> gone[i].key != gone[j].key
  {
    if order != [] {
      VanishedOnce(check, seen, order[..|order| - 1]);
      assert forall f :: f in Vanished(check, seen, order[..|order| - 1]) ==> f.key in order[..|order| - 1];
    }
  }

  lemma GoneAre(s: State, check: Check, findings: seq<Finding>, order: seq<string>)
    requires Lists(order, s.problems)
    ensures TellsGone(s, check.prefixes, findings, Vanished(check, KeysOf(findings), order))
  {
    VanishedOnce(check, KeysOf(findings), order);
    forall f ensures f in Vanished(check, KeysOf(findings), order) <==>
        && f == Finding(f.key, Ok, Low, "no longer present", Once)
        && f.key in s.problems && Under(check.prefixes, f.key)
        && forall g :: g in findings ==> g.key != f.key
    {
      UnderMeans(check, f.key);
    }
  }

  /** A check that works forgets the counters of its keys that it did not find and that
      are not open. Then it tracks what it found; as gone, the open problems that are
      its own and that it did not find; and that it works. One that fails tracks only
      that it failed. */
  lemma WhatACheckTracks(s: State, check: Check, findings: seq<Finding>, error: Option<string>, order: seq<string>)
    requires Lists(order, s.problems)
    ensures var (t, tracked) := TrackedBy(s, check, findings, error, order);
            var own := "agent:" + check.name;
            && (error.Some? ==>
                  t == s
                  && tracked == [Finding(own, Failing, Low,
                                         "the " + check.name + " check failed: " + error.value, Once)])
            && (error.None? ==>
                  && t == s.(debounce := t.debounce)
                  && (forall k :: k in t.debounce ==> k in s.debounce && t.debounce[k] == s.debounce[k])
                  && (forall k :: k in s.debounce && k !in t.debounce <==>
                        k in s.debounce && k !in s.problems && Under(check.prefixes, k)
                        && forall g :: g in findings ==> g.key != k)
                  && exists gone :: TellsGone(s, check.prefixes, findings, gone)
                                    && tracked == findings + gone + [Finding(own, Ok, Low, "", Once)])
  {
    if error.None? {
      GoneAre(s, check, findings, order);
      forall k ensures Owns(check, k) <==> Under(check.prefixes, k) {
        UnderMeans(check, k);
      }
    }
  }

  // Reminders -----------------------------------------------------------------------------------

  ghost predicate NothingQueued(s: State, key: string) {
    forall x :: x in s.outbox ==> x.key != key
  }

  /** The time since the problem was last told; none if that was never, or at the epoch. */
  function SinceTold(p: Problem, now: real): real {
    var last := if p.lastReminder.Some? then p.lastReminder else p.announcedAt;
    if last.Some? && last.value != 0 then now - last.value as real else 0.0
  }

  ghost predicate IsReminded(s: State, key: string, now: real, th: Thresholds) {
    && key in s.problems && s.problems[key].announced && NothingQueued(s, key)
    && SinceTold(s.problems[key], now) >= (3600 * th.reminderHours) as real
  }

  function ReminderOf(key: string, p: Problem): Item {
    Item(Reminder, key, p.priority, Sanitize(p.message))
  }

  lemma PendingMeans(s: State, key: string)
    ensures key in PendingKeys(s.outbox) <==> !NothingQueued(s, key)
  {
  }

  /** What was queued stays; besides, exactly the reminders for announced problems with
      nothing queued that were not told for as many hours as the config says. */
  lemma {:induction false} RemindersSoFar(s: State, now: real, th: Thresholds, order: seq<string>)
    ensures var r := QueueReminders(s, PendingKeys(s.outbox), now, th, order);
            && r == s.(outbox := r.outbox)
            && forall x :: x in r.outbox <==>
                 x in s.outbox
                 || (x.key in order && IsReminded(s, x.key, now, th) && x == ReminderOf(x.key, s.problems[x.key]))
  {
    if order != [] {
      var init, key := order[..|order| - 1], order[|order| - 1];
      RemindersSoFar(s, now, th, init);
      assert forall k :: k in order <==> k in init || k == key;
      PendingMeans(s, key);
      ExceptMeans(QueueReminders(s, PendingKeys(s.outbox), now, th, init).outbox, key, false);
      if key in s.problems {
        DueMeans(s.problems[key], now, th);
      }
    }
  }

  lemma DueMeans(p: Problem, now: real, th: Thresholds)
    ensures ReminderDue(p, now, th) <==> p.announced && SinceTold(p, now) >= (3600 * th.reminderHours) as real
  {
  }

  lemma WhatIsReminded(s: State, now: real, th: Thresholds, order: seq<string>)
    requires Lists(order, s.problems)
    ensures var r := QueueReminders(s, PendingKeys(s.outbox), now, th, order);
            && r == s.(outbox := r.outbox)
            && forall x :: x in r.outbox <==>
                 x in s.outbox || (IsReminded(s, x.key, now, th) && x == ReminderOf(x.key, s.problems[x.key]))
  {
    RemindersSoFar(s, now, th, order);
  }

  // Deliveries ------------------------------------------------------------------------------------

  ghost predicate HasReminder(outbox: seq<Item>, key: string) {
    exists x :: x in outbox && x.key == key && x.section == Reminder
  }

  /** A carried NEW marks the problem as announced now; a carried REMINDER, as reminded. */
  ghost predicate Marked(was: Problem, now: Problem, key: string, carried: seq<Item>, second: int) {
    now == was.(announced := was.announced || HasNew(carried, key),
                announcedAt := if HasNew(carried, key) then Some(second) else was.announcedAt,
                lastReminder := if HasReminder(carried, key) then Some(second) else was.lastReminder)
  }

  lemma {:induction false} MarkedBy(problems: map<string, Problem>, carried: seq<Item>, now: real)
    ensures var r := MarkTold(problems, carried, now);
            r.Keys == problems.Keys && forall k :: k in problems ==> Marked(problems[k], r[k], k, carried, now.Floor)
  {
    if carried != [] {
      var init, last := carried[..|carried| - 1], carried[|carried| - 1];
      MarkedBy(problems, init, now);
      forall k ensures HasNew(carried, k) <==> HasNew(init, k) || (last.section == New && last.key == k) {
        assert last in carried;
      }
      forall k
        ensures HasReminder(carried, k) <==> HasReminder(init, k) || (last.section == Reminder && last.key == k)
      {
        assert last in carried;
      }
    }
  }

  /** An acknowledged pulse removes what it carried, marks its problems, records its
      second, and ends the note about merged changes. */
  lemma WhatADeliveryDoes(s: State, carried: seq<Item>, now: real)
    ensures var t := Delivered(s, carried, now);
            && t == s.(problems := t.problems, outbox := t.outbox, pulseTimes := s.pulseTimes + [now.Floor],
                       rateLimited := false)
            && (forall x :: x in t.outbox <==> x in s.outbox && x !in carried)
            && t.problems.Keys == s.problems.Keys
            && forall k :: k in s.problems ==> Marked(s.problems[k], t.problems[k], k, carried, now.Floor)
  {
    WithoutMeans(s.outbox, carried);
    MarkedBy(s.problems, carried, now);
  }

  // Urgent problems ---------------------------------------------------------------------------------

  ghost predicate HasUrgent(outbox: seq<Item>, key: string) {
    exists x :: x in outbox && x.key == key && x.section == New && x.priority == High
  }

  /** Every open problem of high priority has a NEW of that priority queued, or one that
      an acknowledged pulse carried. */
  ghost predicate UrgentSaid(s: State, urgent: set<nat>) {
    forall k :: k in s.problems && s.problems[k].priority == High ==>
                  HasUrgent(s.outbox, k) || s.problems[k].opening in urgent
  }

  ghost predicate UrgentWorld(w: World) {
    UrgentSaid(w.state, w.urgent) && UrgentSaid(w.disk, w.urgent)
  }

  lemma FailureSaysIt(s: State, urgent: set<nat>, f: Finding, now: real, th: Thresholds, fails: nat, passes: nat)
    requires UrgentSaid(s, urgent) && f.verdict == Failing && Needs(f.kind, th, fails, passes)
    ensures UrgentSaid(Track(s, f, now, th), urgent)
  {
    var t := Track(s, f, now, th);
    WhatAFailureDoes(s, f, now, th, fails, passes);
    forall k | k in t.problems && t.problems[k].priority == High
      ensures HasUrgent(t.outbox, k) || t.problems[k].opening in urgent
    {
      if k == f.key && (k !in s.problems || s.problems[k].priority == Low) {
        assert Item(New, k, High, Sanitize(f.message)) in t.outbox;
      } else if HasUrgent(s.outbox, k) {
        var x :| x in s.outbox && x.key == k && x.section == New && x.priority == High;
        assert x in t.outbox;
      }
    }
  }

  lemma PassSaysIt(s: State, urgent: set<nat>, f: Finding, now: real, th: Thresholds, fails: nat, passes: nat)
    requires UrgentSaid(s, urgent) && f.verdict == Ok && Needs(f.kind, th, fails, passes)
    ensures UrgentSaid(Track(s, f, now, th), urgent)
  {
    var t := Track(s, f, now, th);
    WhatAPassDoes(s, f, now, th, fails, passes);
    forall k | k in t.problems && t.problems[k].priority == High
      ensures HasUrgent(t.outbox, k) || t.problems[k].opening in urgent
    {
      if HasUrgent(s.outbox, k) {
        var x :| x in s.outbox && x.key == k && x.section == New && x.priority == High;
        assert x in t.outbox;
      }
    }
  }

  lemma TrackSaysIt(s: State, urgent: set<nat>, f: Finding, now: real, th: Thresholds)
    requires UrgentSaid(s, urgent)
    ensures UrgentSaid(Track(s, f, now, th), urgent)
  {
    var (fails, passes) := ThresholdsFor(f.kind, th);
    match f.verdict
    case Failing => FailureSaysIt(s, urgent, f, now, th, fails, passes);
    case Ok => PassSaysIt(s, urgent, f, now, th, fails, passes);
    case Hold => WhatAHoldDoes(s, f, now, th);
  }

  lemma {:induction false} TrackAllSaysIt(s: State, urgent: set<nat>, findings: seq<Finding>, now: real, th: Thresholds)
    requires UrgentSaid(s, urgent)
    ensures UrgentSaid(TrackAll(s, findings, now, th), urgent)
  {
    if findings != [] {
      TrackAllSaysIt(s, urgent, findings[..|findings| - 1], now, th);
      TrackSaysIt(TrackAll(s, findings[..|findings| - 1], now, th), urgent, findings[|findings| - 1], now, th);
    }
  }

  lemma RemindersSayIt(s: State, urgent: set<nat>, now: real, th: Thresholds, order: seq<string>)
    requires UrgentSaid(s, urgent)
    ensures UrgentSaid(QueueReminders(s, PendingKeys(s.outbox), now, th, order), urgent)
  {
    var r := QueueReminders(s, PendingKeys(s.outbox), now, th, order);
    RemindersSoFar(s, now, th, order);
    forall k | HasUrgent(s.outbox, k) ensures HasUrgent(r.outbox, k) {
      var x :| x in s.outbox && x.key == k && x.section == New && x.priority == High;
      assert x in r.outbox;
    }
  }

  lemma DeliverySaysIt(s: State, urgent: set<nat>, carried: seq<Item>, now: real)
    requires UrgentSaid(s, urgent)
    ensures UrgentSaid(Delivered(s, carried, now), urgent + UrgentBy(s, carried))
  {
    var t := Delivered(s, carried, now);
    WhatADeliveryDoes(s, carried, now);
    forall k | k in t.problems && t.problems[k].priority == High
      ensures HasUrgent(t.outbox, k) || t.problems[k].opening in urgent + UrgentBy(s, carried)
    {
      if HasUrgent(s.outbox, k) {
        var x :| x in s.outbox && x.key == k && x.section == New && x.priority == High;
        assert if x in carried then s.problems[k].opening in UrgentBy(s, carried) else x in t.outbox;
      }
    }
  }

  lemma ClearSaysIt(w: World, fate: Fate, always: bool)
    requires UrgentWorld(w)
    ensures UrgentWorld(ClearStep(w, fate, always)) && UrgentWorld(BeatStep(w, fate, always))
  {
  }

  lemma PulseSaysIt(w: World, e: Event)
    requires UrgentWorld(w) && e.PulseAttempt?
    ensures UrgentWorld(Pulse(w, e.fate, e.staging, e.config, e.stamp, e.ongoing))
  {
    var (kept, carried) := Candidate(w.state, e.fate, e.staging, e.config, e.stamp, e.ongoing);
    CandidateMeans(w.state, e.fate, e.staging, e.config, e.stamp, e.ongoing);
    FailSaysIt(Prepared(w, kept, e.fate), e.fate, carried);
  }

  lemma FailSaysIt(w: World, fate: Fate, carried: seq<Item>)
    requires UrgentWorld(w)
    ensures UrgentWorld(FailStep(w, fate, carried))
  {
    HandedSaysIt(Send(w, FailPing, fate.fail), fate, carried);
  }

  lemma HandedSaysIt(w: World, fate: Fate, carried: seq<Item>)
    requires UrgentWorld(w)
    ensures UrgentWorld(DeliverStep(w, fate, carried))
  {
    DeliverySaysIt(w.state, w.urgent, carried, fate.now);
    assert UrgentSaid(w.disk, w.urgent + UrgentBy(w.state, carried));
    ClearSaysIt(Save(Handed(w, carried, fate.now)), fate, true);
  }

  /** In every run, in memory and on disk: an open problem of high priority, whether it
      opened so or became so, is told as one: a NEW of high priority is queued, or an
      acknowledged pulse carried one about this opening. */
  lemma {:induction false} UrgentProblemsAreTold(es: seq<Event>, th: Thresholds)
    ensures UrgentWorld(Run(es, th))
  {
    if es != [] {
      var w, e := Run(es[..|es| - 1], th), es[|es| - 1];
      UrgentProblemsAreTold(es[..|es| - 1], th);
      match e
      case CheckRun(check, findings, error, now, order) =>
        var (s, tracked) := TrackedBy(w.state, check, findings, error, order);
        TrackAllSaysIt(s, w.urgent, tracked, now, th);
      case EndCycle(now, order) => RemindersSayIt(w.state, w.urgent, now, th, order);
      case PulseAttempt(_, _, _, _, _) => PulseSaysIt(w, e);
      case Beat(fate, _) => ClearSaysIt(w, fate, false);
      case Crash =>
    }
  }

  /** An escalation leaves one announcement of its key: a NEW of high priority with the
      new message. */
  lemma AnEscalationIsQueued(s: State, told: set<nat>, f: Finding, now: real, th: Thresholds)
    requires Sound(s, told) && f.verdict == Failing && f.priority == High
    requires f.key in s.problems && s.problems[f.key].priority == Low
    ensures var t := Track(s, f, now, th);
            exists i :: 0 <= i < |t.outbox| && t.outbox[i] == Item(New, f.key, High, Sanitize(f.message))
                        && forall j :: 0 <= j < |t.outbox| && j != i && t.outbox[j].key == f.key ==>
                                         t.outbox[j].section != New && t.outbox[j].section != Reminder
  {
    var (fails, passes) := ThresholdsFor(f.kind, th);
    var t := Track(s, f, now, th);
    WhatAFailureDoes(s, f, now, th, fails, passes);
    TrackKeeps(s, told, f, now, th);
    var x := Item(New, f.key, High, Sanitize(f.message));
    assert x in t.outbox;
    var i :| 0 <= i < |t.outbox| && t.outbox[i] == x;
    forall j | 0 <= j < |t.outbox| && j != i && t.outbox[j].key == f.key
      ensures t.outbox[j].section != New && t.outbox[j].section != Reminder
    {
      assert !SameClass(t.outbox[if i < j then i else j], t.outbox[if i < j then j else i]);
    }
  }
}
