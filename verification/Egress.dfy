/** The egress health service: probe targets in rotation, retire the ones that
    keep failing, and move guest egress to another host when this host's own
    connection is down (scripts/host_runtime/egress_health.py).

    Which targets answer a probe is the environment's choice. Each check is given
    the set of target indices that answer it.
 */
module Egress {
  import opened Common
  import H = Hysteresis

  const PARALLEL_PROBES := 4
  const FAILURES_BEFORE_FALLBACK := 3
  const SUCCESSES_BEFORE_RETURN := 5
  const STRIKES_BEFORE_RETIREMENT := 5
  const MIN_ACTIVE_TARGETS := 5

  // Rotation ------------------------------------------------------------------

  datatype Target = Target(url: string, strikes: nat, retired: bool)

  /** The indices of the targets that are not retired, in list order. */
  function Active(ts: seq<Target>): seq<nat> {
    if ts == [] then [] else
      var init := Active(ts[..|ts| - 1]);
      if ts[|ts| - 1].retired then init else init + [|ts| - 1]
  }

  lemma {:induction false} ActiveMeaning(ts: seq<Target>)
    ensures var a := Active(ts);
            && Distinct(a)
            && (forall k :: 0 <= k < |a| ==> a[k] < |ts| && !ts[a[k]].retired)
            && (forall i: nat :: i < |ts| && !ts[i].retired ==> i in a)
  {
    if ts != [] {
      var last := |ts| - 1;
      var init := Active(ts[..last]);
      ActiveMeaning(ts[..last]);
      forall i: nat | i < |ts| && !ts[i].retired ensures i in Active(ts) {
        if i == last {
          assert Active(ts)[|init|] == last;
        } else {
          assert i in init;
        }
      }
    }
  }

  /** The probing order: the active targets from position start, wrapping around. */
  function Rotated(a: seq<nat>, start: nat): seq<nat>
    requires start < |a|
  {
    a[start..] + a[..start]
  }

  lemma Wrap(x: nat, count: nat)
    requires 0 < count && x < 2 * count
    ensures x % count == if x < count then x else x - count
  {
    var q := x / count;
    assert x == q * count + x % count;
    assert q >= 2 ==> q * count >= 2 * count;
    assert q == 0 || q == 1;
  }

  /** The order as the source writes it, by index modulo the count. */
  function OrderFrom(a: seq<nat>, start: nat): (r: seq<nat>)
    requires start < |a|
    ensures r == Rotated(a, start)
  {
    var r := seq(|a|, i requires 0 <= i < |a| => Wrap(start + i, |a|); a[(start + i) % |a|]);
    assert forall i :: 0 <= i < |a| ==> r[i] == Rotated(a, start)[i] by {
      forall i | 0 <= i < |a| ensures r[i] == Rotated(a, start)[i] {
        Wrap(start + i, |a|);
      }
    }
    r
  }

  /** Some active target answers. */
  ghost predicate Reaches(ts: seq<Target>, answers: set<nat>) {
    exists k :: 0 <= k < |Active(ts)| && Active(ts)[k] in answers
  }

  function Strike(ts: seq<Target>, i: nat): (r: seq<Target>)
    ensures |r| == |ts|
  {
    if i >= |ts| then ts else
    var strikes := ts[i].strikes + 1;
    var retire := strikes >= STRIKES_BEFORE_RETIREMENT && |Active(ts)| > MIN_ACTIVE_TARGETS;
    ts[i := ts[i].(strikes := strikes, retired := ts[i].retired || retire)]
  }

  function StrikeAll(ts: seq<Target>, bad: seq<nat>): (r: seq<Target>)
    ensures |r| == |ts|
  {
    if bad == [] then ts else Strike(StrikeAll(ts, bad[..|bad| - 1]), bad[|bad| - 1])
  }

  /** How many targets a check has probed when the f-th in order is the first to
      answer: one on its own, then whole batches. */
  function ProbedUpTo(f: nat, count: nat): nat
    requires f < count
  {
    if f == 0 then 1 else
      var batches := 1 + ((f - 1) / PARALLEL_PROBES + 1) * PARALLEL_PROBES;
      if batches < count then batches else count
  }

  ghost predicate FirstAnswer(order: seq<nat>, answers: set<nat>, f: nat) {
    f < |order| && order[f] in answers && forall k :: 0 <= k < f ==> order[k] !in answers
  }

  /** The place in the active list of the j-th target in probing order. */
  function Place(count: nat, start: nat, j: nat): (k: nat)
    requires start < count && j < count
    ensures k < count
  {
    if j < count - start then start + j else j - (count - start)
  }

  lemma RotatedAt(a: seq<nat>, start: nat, j: nat)
    requires start < |a| && j < |a|
    ensures |Rotated(a, start)| == |a| && Rotated(a, start)[j] == a[Place(|a|, start, j)]
  {
  }

  /** A probing order visits every active target exactly once. */
  lemma RotatedVisitsEachOnce(ts: seq<Target>, start: nat)
    requires start < |Active(ts)|
    ensures var r := Rotated(Active(ts), start);
            && |r| == |Active(ts)| && Distinct(r)
            && (forall i: nat :: i in r <==> i < |ts| && !ts[i].retired)
  {
    var a := Active(ts);
    var r := Rotated(a, start);
    ActiveMeaning(ts);
    forall j, k | 0 <= j < k < |r| ensures r[j] != r[k] {
      RotatedAt(a, start, j);
      RotatedAt(a, start, k);
    }
    forall i: nat ensures i in r <==> i < |ts| && !ts[i].retired {
      if i in r {
        var j :| 0 <= j < |r| && r[j] == i;
        RotatedAt(a, start, j);
      }
      if i < |ts| && !ts[i].retired {
        var k :| 0 <= k < |a| && a[k] == i;
        RotatedAt(a, start, if k < start then k + (|a| - start) else k - start);
      }
    }
  }

  lemma {:induction false} ActiveAfterUpdate(ts: seq<Target>, i: nat, t: Target)
    requires i < |ts|
    ensures ts[i].retired == t.retired ==> Active(ts[i := t]) == Active(ts)
    ensures !ts[i].retired && t.retired ==> |Active(ts[i := t])| == |Active(ts)| - 1
  {
    if i < |ts| - 1 {
      ActiveAfterUpdate(ts[..|ts| - 1], i, t);
      assert ts[i := t][..|ts| - 1] == ts[..|ts| - 1][i := t];
    } else {
      assert ts[i := t][..|ts| - 1] == ts[..|ts| - 1];
    }
  }

  /** Retirement never takes the active count below five, never
      un-retires, and only touches the struck targets. */
  lemma {:induction false} StrikesKeepEnoughTargets(ts: seq<Target>, bad: seq<nat>)
    ensures var r := StrikeAll(ts, bad);
            && |Active(r)| <= |Active(ts)|
            && (|Active(r)| >= 5 || Active(r) == Active(ts))
            && (forall i :: 0 <= i < |ts| && i !in bad ==> r[i] == ts[i])
            && (forall i :: 0 <= i < |ts| && r[i].retired && !ts[i].retired ==> i in bad && r[i].strikes >= 5)
  {
    if bad != [] {
      var init := bad[..|bad| - 1];
      StrikesKeepEnoughTargets(ts, init);
      var mid := StrikeAll(ts, init);
      var i := bad[|bad| - 1];
      if i < |mid| {
        ActiveAfterUpdate(mid, i, Strike(mid, i)[i]);
      }
      assert forall j :: j in bad <==> j in init || j == i;
    }
  }

  /** The targets that are not retired. */
  function InUse(ts: seq<Target>): set<int> {
    set i | 0 <= i < |ts| && !ts[i].retired
  }

  lemma {:induction false} ActiveCount(ts: seq<Target>)
    ensures |Active(ts)| == |InUse(ts)|
  {
    if ts == [] {
      assert InUse(ts) == {};
    } else {
      var last := |ts| - 1;
      ActiveCount(ts[..last]);
      assert InUse(ts) == InUse(ts[..last]) + if ts[last].retired then {} else {last};
    }
  }

  /** A strike is one more strike; the fifth, and any later one, retires its target
      exactly while more than five are in use. */
  lemma WhatAStrikeDoes(ts: seq<Target>, i: nat)
    requires i < |ts|
    ensures var r := Strike(ts, i);
            && r == ts[i := Target(ts[i].url, ts[i].strikes + 1, r[i].retired)]
            && (r[i].retired <==> ts[i].retired || (ts[i].strikes + 1 >= 5 && |InUse(ts)| > 5))
  {
    ActiveCount(ts);
  }

  /** Each of the failed targets gets one strike. One with five or more is still in use
      only where no more than five are. */
  lemma {:induction false} WhatStrikesDo(ts: seq<Target>, bad: seq<nat>)
    requires Distinct(bad) && forall i :: i in bad ==> i < |ts|
    ensures var r := StrikeAll(ts, bad);
            && (forall i :: 0 <= i < |ts| ==> r[i].url == ts[i].url)
            && (forall i :: 0 <= i < |ts| ==> r[i].strikes == ts[i].strikes + if i in bad then 1 else 0)
            && (forall i :: 0 <= i < |ts| && ts[i].retired ==> r[i].retired)
            && (forall i :: i in bad && r[i].strikes >= 5 && !r[i].retired ==> |InUse(r)| <= 5)
  {
    if bad != [] {
      var init, i := bad[..|bad| - 1], bad[|bad| - 1];
      var mid := StrikeAll(ts, init);
      assert i in bad && i !in init;
      assert forall j :: j in bad <==> j in init || j == i;
      WhatStrikesDo(ts, init);
      WhatAStrikeDoes(mid, i);
      StrikingShrinks(mid, i);
    }
  }

  lemma StrikingShrinks(ts: seq<Target>, i: nat)
    requires i < |ts|
    ensures |InUse(Strike(ts, i))| <= |InUse(ts)|
  {
    ActiveCount(ts);
    ActiveCount(Strike(ts, i));
    ActiveAfterUpdate(ts, i, Strike(ts, i)[i]);
  }

  /** The target that answered has no strikes left, those asked before it have one more,
      and no other target changes. */
  lemma WhatSettlingDoes(ts: seq<Target>, order: seq<nat>, f: nat)
    requires f < |order| && Distinct(order) && forall k :: 0 <= k < |order| ==> order[k] < |ts|
    ensures var r := Settle(ts, order, f);
            && |r| == |ts| && r[order[f]] == ts[order[f]].(strikes := 0)
            && (forall k :: 0 <= k < f ==> r[order[k]].strikes == ts[order[k]].strikes + 1)
            && (forall i :: 0 <= i < |ts| && i !in order[..f + 1] ==> r[i] == ts[i])
  {
    var bad := order[..f];
    AskedBefore(order, f);
    WhatStrikesDo(Forgive(ts, order[f]), bad);
    StrikesKeepEnoughTargets(Forgive(ts, order[f]), bad);
  }

  lemma AskedBefore(order: seq<nat>, f: nat)
    requires f < |order| && Distinct(order)
    ensures Distinct(order[..f]) && order[f] !in order[..f] && order[f] in order[..f + 1]
    ensures forall i :: i in order[..f] ==> i in order[..f + 1] && exists k :: 0 <= k < |order| && order[k] == i
    ensures forall k :: 0 <= k < f ==> order[k] in order[..f] && order[k] != order[f]
  {
    forall k | 0 <= k < f ensures order[k] in order[..f] && order[k] != order[f] {
      assert order[..f][k] == order[k];
    }
    forall i | i in order[..f] ensures i in order[..f + 1] && exists k :: 0 <= k < |order| && order[k] == i {
      var k :| 0 <= k < f && order[..f][k] == i;
      assert order[..f + 1][k] == i && order[k] == i;
    }
    assert order[..f + 1][f] == order[f];
  }

  /** The target that answered starts over; the ones that failed before it in
      order get a strike, since it proves them at fault. */
  function Settle(ts: seq<Target>, order: seq<nat>, f: nat): (r: seq<Target>)
    requires f < |order|
  {
    StrikeAll(Forgive(ts, order[f]), order[..f])
  }

  function Forgive(ts: seq<Target>, i: nat): (r: seq<Target>)
    ensures |r| == |ts|
  {
    if i < |ts| then ts[i := ts[i].(strikes := 0)] else ts
  }

  lemma SettlingKeepsEnoughTargets(ts: seq<Target>, order: seq<nat>, f: nat)
    requires f < |order|
    ensures |Active(Settle(ts, order, f))| >= 5 || Active(Settle(ts, order, f)) == Active(ts)
  {
    if order[f] < |ts| {
      ActiveAfterUpdate(ts, order[f], ts[order[f]].(strikes := 0));
    }
    StrikesKeepEnoughTargets(Forgive(ts, order[f]), order[..f]);
  }

  /** What a check that found count > 0 active targets did. */
  ghost predicate Checked(ts: seq<Target>, start: nat, answers: set<nat>, account: bool,
                          ok: bool, probed: seq<nat>, ts': seq<Target>, position': nat)
    requires start < |Active(ts)|
  {
    var count := |Active(ts)|;
    var order := Rotated(Active(ts), start);
    if ok then
      exists f: nat :: && FirstAnswer(order, answers, f)
                       && probed == order[..ProbedUpTo(f, count)]
                       && position' == (start + f + 1) % count
                       && ts' == if account then Settle(ts, order, f) else ts
    else
      // Every active target was asked, each once, and none answered.
      && probed == order && (forall k :: 0 <= k < count ==> order[k] !in answers)
      && position' == (start + 1) % count && ts' == ts
  }

  lemma AnsweredAt(ts: seq<Target>, start: nat, answers: set<nat>, account: bool, f: nat,
                   probed: seq<nat>, ts': seq<Target>, position': nat)
    requires start < |Active(ts)|
    requires FirstAnswer(Rotated(Active(ts), start), answers, f)
    requires probed == Rotated(Active(ts), start)[..ProbedUpTo(f, |Active(ts)|)]
    requires position' == (start + f + 1) % |Active(ts)|
    requires ts' == if account then Settle(ts, Rotated(Active(ts), start), f) else ts
    ensures Reaches(ts, answers) && Checked(ts, start, answers, account, true, probed, ts', position')
  {
    var count := |Active(ts)|;
    assert Active(ts)[if f < count - start then start + f else f - (count - start)] in answers;
  }

  lemma NoneAnswered(ts: seq<Target>, start: nat, answers: set<nat>)
    requires start < |Active(ts)|
    requires forall k :: 0 <= k < |Active(ts)| ==> Rotated(Active(ts), start)[k] !in answers
    ensures !Reaches(ts, answers)
  {
    var a := Active(ts);
    forall k | 0 <= k < |a|
      ensures a[k] !in answers
    {
      assert a[k] == Rotated(a, start)[if k < start then k + (|a| - start) else k - start];
    }
  }

  class Rotation {
    var targets: seq<Target>
    var position: nat

    constructor (targets: seq<Target>)
      ensures this.targets == targets && position == 0
    {
      this.targets := targets;
      position := 0;
    }

    /** Whether some active target answers. `probed` lists the targets asked, in order:
        the one whose turn it is alone, and then batches of those after it. */
    method Check(answers: set<nat>, account: bool) returns (ok: bool, probed: seq<nat>)
      modifies this
      ensures ok <==> Reaches(old(targets), answers)
      ensures var active := Active(old(targets));
              if active == [] then probed == [] && position == old(position) && targets == old(targets)
              else Checked(old(targets), old(position) % |active|, answers, account, ok, probed, targets, position)
      ensures !account ==> targets == old(targets)
      ensures |Active(targets)| >= 5 || Active(targets) == Active(old(targets))
    {
      var active := Active(targets);
      if active == [] {
        return false, [];
      }
      var count := |active|;
      var start := position % count;
      var order := OrderFrom(active, start);
      position := (start + 1) % count;
      if order[0] in answers {
        AnswerAt(order, 0, account);
        AnsweredAt(old(targets), start, answers, account, 0, order[..1], targets, position);
        return true, order[..1];
      }
      ok, probed := AskBatches(order, start, answers, account);
    }

    /** The rest of a check whose first target did not answer. */
    method AskBatches(order: seq<nat>, start: nat, answers: set<nat>, account: bool)
      returns (ok: bool, probed: seq<nat>)
      requires start < |Active(targets)| && order == Rotated(Active(targets), start) && order[0] !in answers
      requires position == (start + 1) % |order|
      modifies this
      ensures ok <==> Reaches(old(targets), answers)
      ensures Checked(old(targets), start, answers, account, ok, probed, targets, position)
      ensures !account ==> targets == old(targets)
      ensures |Active(targets)| >= 5 || Active(targets) == Active(old(targets))
    {
      var count := |order|;
      var failed := 1;
      while failed < count
        invariant 1 <= failed <= count
        invariant forall k :: 0 <= k < failed ==> order[k] !in answers
        invariant targets == old(targets) && position == old(position)
        invariant failed < count ==> (failed - 1) % PARALLEL_PROBES == 0
      {
        var next := if failed + PARALLEL_PROBES < count then failed + PARALLEL_PROBES else count;
        var k := FirstIn(order, failed, next, answers);
        if k < next {
          // The one after it is asked first next time.
          AnswerAt(order, k, account);
          position := ((start + k) % count + 1) % count;
          NextPosition(start, k, count);
          BatchEnd(k, failed, count);
          AnsweredAt(old(targets), start, answers, account, k, order[..next], targets, position);
          return true, order[..next];
        }
        failed := next;
      }
      NoneAnswered(targets, start, answers);
      return false, order;
    }

    /** The accounting of a check that order[f] answered. */
    method AnswerAt(order: seq<nat>, f: nat, account: bool)
      requires f < |order|
      modifies this
      ensures position == old(position)
      ensures targets == if account then Settle(old(targets), order, f) else old(targets)
      ensures |Active(targets)| >= 5 || Active(targets) == Active(old(targets))
    {
      if !account {
        return;
      }
      targets := Forgive(targets, order[f]);
      ghost var cleared := targets;
      for b := 0 to f
        invariant |targets| == |cleared| == |old(targets)| && position == old(position)
        invariant targets == StrikeAll(cleared, order[..b])
      {
        assert order[..b + 1][..b] == order[..b];
        targets := Strike(targets, order[b]);
      }
      SettlingKeepsEnoughTargets(old(targets), order, f);
    }
  }

  /** The first target of a batch to answer, or the batch's end. */
  method FirstIn(order: seq<nat>, begin: nat, end: nat, answers: set<nat>) returns (k: nat)
    requires begin <= end <= |order|
    ensures begin <= k <= end
    ensures forall j :: begin <= j < k ==> order[j] !in answers
    ensures k < end ==> order[k] in answers
  {
    k := begin;
    while k < end && order[k] !in answers
      invariant begin <= k <= end
      invariant forall j :: begin <= j < k ==> order[j] !in answers
    {
      k := k + 1;
    }
  }

  lemma NextPosition(start: nat, k: nat, count: nat)
    requires 0 < count && start < count && k < count
    ensures ((start + k) % count + 1) % count == (start + k + 1) % count
  {
    Wrap(start + k, count);
    Wrap((start + k) % count + 1, count);
    Wrap(start + k + 1, count);
  }

  lemma BatchEnd(k: nat, failed: nat, count: nat)
    requires 1 <= failed <= k < count && k < failed + PARALLEL_PROBES
    requires (failed - 1) % PARALLEL_PROBES == 0
    ensures ProbedUpTo(k, count) == if failed + PARALLEL_PROBES < count then failed + PARALLEL_PROBES else count
  {
  }

  // Fallback ------------------------------------------------------------------

  /** The other host slots, starting just after this one and wrapping around. */
  function FallbackOrder(own: nat, maxHosts: nat): (order: seq<nat>)
    requires 1 <= own <= maxHosts
    ensures |order| == maxHosts - 1
  {
    seq(maxHosts - 1, i requires 0 <= i < maxHosts - 1 => (own - 1 + (i + 1)) % maxHosts + 1)
  }

  lemma FallbackOrderIsTheOtherHosts(own: nat, maxHosts: nat)
    requires 1 <= own <= maxHosts
    ensures Distinct(FallbackOrder(own, maxHosts))
    ensures forall h: nat :: h in FallbackOrder(own, maxHosts) <==> 1 <= h <= maxHosts && h != own
  {
    var order := FallbackOrder(own, maxHosts);
    forall i | 0 <= i < |order|
      ensures order[i] == if own + i + 1 <= maxHosts then own + i + 1 else own + i + 1 - maxHosts
    {
      Wrap(own + i, maxHosts);
    }
    forall h: nat | 1 <= h <= maxHosts && h != own ensures h in order {
      assert order[if h > own then h - own - 1 else h + maxHosts - own - 1] == h;
    }
  }

  /** How far another host is after this one, around the hosts. */
  function Distance(own: nat, maxHosts: nat, h: nat): int {
    if h > own then h - own else h + maxHosts - own
  }

  /** The i-th host that is tried is the one at distance i + 1. */
  lemma TriedAt(own: nat, maxHosts: nat, i: nat)
    requires 1 <= own <= maxHosts && i < maxHosts - 1
    ensures var h := FallbackOrder(own, maxHosts)[i];
            1 <= h <= maxHosts && h != own && Distance(own, maxHosts, h) == i + 1
  {
    Wrap(own + i, maxHosts);
  }

  lemma TriedSomewhere(own: nat, maxHosts: nat, h: nat)
    requires 1 <= own <= maxHosts && 1 <= h <= maxHosts && h != own
    ensures var i := Distance(own, maxHosts, h) - 1; 0 <= i < maxHosts - 1 && FallbackOrder(own, maxHosts)[i] == h
  {
    var i := Distance(own, maxHosts, h) - 1;
    TriedAt(own, maxHosts, i);
  }

  /** Of the other hosts that answer, the nearest after this one is found. */
  lemma TheNearestIsFound(own: nat, maxHosts: nat, reachable: set<nat>)
    requires 1 <= own <= maxHosts
    ensures var found := FirstReachable(FallbackOrder(own, maxHosts), reachable);
            found.Some? ==> forall h: nat :: 1 <= h <= maxHosts && h != own && h in reachable ==>
                              Distance(own, maxHosts, found.value) <= Distance(own, maxHosts, h)
  {
    var order := FallbackOrder(own, maxHosts);
    var found := FirstReachable(order, reachable);
    FirstOf(order, reachable);
    if found.Some? {
      var k :| 0 <= k < |order| && order[k] == found.value && forall j :: 0 <= j < k ==> order[j] !in reachable;
      TriedAt(own, maxHosts, k);
      forall h: nat | 1 <= h <= maxHosts && h != own && h in reachable
        ensures Distance(own, maxHosts, found.value) <= Distance(own, maxHosts, h)
      {
        TriedSomewhere(own, maxHosts, h);
      }
    }
  }

  lemma {:induction false} FirstOf(order: seq<nat>, reachable: set<nat>)
    ensures var found := FirstReachable(order, reachable);
            found.Some? ==> exists k :: 0 <= k < |order| && order[k] == found.value
                                        && forall j :: 0 <= j < k ==> order[j] !in reachable
  {
    if order != [] && order[0] !in reachable {
      FirstOf(order[1..], reachable);
      var found := FirstReachable(order, reachable);
      if found.Some? {
        var k :| 0 <= k < |order[1..]| && order[1..][k] == found.value
            && forall j :: 0 <= j < k ==> order[1..][j] !in reachable;
        assert order[k + 1] == found.value;
        assert forall j :: 0 < j < k + 1 ==> order[j] == order[1..][j - 1];
      }
    } else if order != [] {
      assert order[0] in reachable;
    }
  }

  datatype Mode = Own | Fallback | Nowhere

  /** What the service keeps between ticks, and the route it last set
      (None is this host's own connection). */
  datatype HealthState = HealthState(ownOk: bool, failures: nat, successes: nat,
                                     fallback: Option<nat>, mode: Mode, route: Option<nat>)

  const INITIAL := HealthState(true, 0, 0, None, Own, None)

  /** What one tick observes: its own connection, the host it falls back through
      (asked first, and only when there is one), and the hosts that answer when it
      looks for one. */
  datatype Observation = Observation(own: bool, current: bool, reachable: set<nat>)

  function FirstReachable(order: seq<nat>, reachable: set<nat>): (r: Option<nat>)
    ensures r.Some? ==> r.value in order && r.value in reachable
    ensures r.None? ==> forall h :: h in order ==> h !in reachable
  {
    if order == [] then None
    else if order[0] in reachable then Some(order[0])
    else FirstReachable(order[1..], reachable)
  }

  function Choose(s: HealthState, own: nat, maxHosts: nat, reachable: set<nat>): HealthState
    requires 1 <= own <= maxHosts
  {
    match FirstReachable(FallbackOrder(own, maxHosts), reachable)
    case Some(h) => s.(fallback := Some(h), mode := Fallback, route := Some(h))
    case None => s.(fallback := None, mode := Nowhere, route := None)
  }

  function Tick(s: HealthState, own: nat, maxHosts: nat, o: Observation): HealthState
    requires 1 <= own <= maxHosts
  {
    var c := if o.own then s.(failures := 0, successes := s.successes + 1)
             else s.(successes := 0, failures := s.failures + 1);
    if c.mode.Own? then
      if c.failures >= FAILURES_BEFORE_FALLBACK then Choose(c.(ownOk := false), own, maxHosts, o.reachable) else c
    else if c.successes >= SUCCESSES_BEFORE_RETURN then
      c.(ownOk := true, fallback := None, mode := Own, route := None)
    else if c.fallback.Some? && o.current then c
    else Choose(c, own, maxHosts, o.reachable)
  }

  function Run(own: nat, maxHosts: nat, os: seq<Observation>): HealthState
    requires 1 <= own <= maxHosts
  {
    if os == [] then INITIAL else Tick(Run(own, maxHosts, os[..|os| - 1]), own, maxHosts, os[|os| - 1])
  }

  function OwnHistory(os: seq<Observation>): seq<H.Obs> {
    seq(|os|, i requires 0 <= i < |os| => if os[i].own then H.Pass else H.Fail)
  }

  /** Guest egress is off this host's own connection exactly when a run of three
      failed checks has not been followed by five good ones in a row. */
  lemma {:induction false} ModeFollowsTheHistory(own: nat, maxHosts: nat, os: seq<Observation>)
    requires 1 <= own <= maxHosts
    ensures var s := Run(own, maxHosts, os);
            var h := OwnHistory(os);
            && s.failures == H.Trailing(h, H.Fail)
            && s.successes == H.Trailing(h, H.Pass)
            && (!s.mode.Own? <==> H.OpenByHistory(h, 3, 5))
            && (s.ownOk <==> s.mode.Own?)
  {
    CountersFollowTheHistory(own, maxHosts, os);
    H.OpenIsOpenByHistory(OwnHistory(os), FAILURES_BEFORE_FALLBACK, SUCCESSES_BEFORE_RETURN);
  }

  lemma {:induction false} CountersFollowTheHistory(own: nat, maxHosts: nat, os: seq<Observation>)
    requires 1 <= own <= maxHosts
    ensures var s := Run(own, maxHosts, os);
            var h := OwnHistory(os);
            && s.failures == H.Trailing(h, H.Fail)
            && s.successes == H.Trailing(h, H.Pass)
            && (!s.mode.Own? <==> H.Open(h, FAILURES_BEFORE_FALLBACK, SUCCESSES_BEFORE_RETURN))
            && (s.ownOk <==> s.mode.Own?)
  {
    if os != [] {
      var init := os[..|os| - 1];
      CountersFollowTheHistory(own, maxHosts, init);
      var o := if os[|os| - 1].own then H.Pass else H.Fail;
      assert OwnHistory(os) == OwnHistory(init) + [o];
      H.OneMore(OwnHistory(init), o, FAILURES_BEFORE_FALLBACK, SUCCESSES_BEFORE_RETURN);
    }
  }

  /** After every tick of every run the route set last is the one the mode and the
      fallback name; a fallback host is another host that answered in that very
      tick; and egress is nowhere only when no other host answered. */
  lemma {:induction false} RouteMatchesTheMode(own: nat, maxHosts: nat, os: seq<Observation>)
    requires 1 <= own <= maxHosts
    ensures var s := Run(own, maxHosts, os);
            && s.route == s.fallback
            && (s.mode.Fallback? <==> s.fallback.Some?)
            && (s.mode.Fallback? ==>
                  && os != []
                  && 1 <= s.fallback.value <= maxHosts && s.fallback.value != own
                  && var now := os[|os| - 1];
                  && ((s.fallback.value in now.reachable
                       && forall h: nat :: 1 <= h <= maxHosts && h != own && h in now.reachable ==>
                            Distance(own, maxHosts, s.fallback.value) <= Distance(own, maxHosts, h))
                      || (now.current && Run(own, maxHosts, os[..|os| - 1]).fallback == s.fallback)))
            && (s.mode.Nowhere? ==>
                  os != [] && forall h :: h in FallbackOrder(own, maxHosts) ==> h !in os[|os| - 1].reachable)
  {
    if os != [] {
      RouteMatchesTheMode(own, maxHosts, os[..|os| - 1]);
      FallbackOrderIsTheOtherHosts(own, maxHosts);
      TheNearestIsFound(own, maxHosts, os[|os| - 1].reachable);
    }
  }

  class Health {
    const own: nat
    const maxHosts: nat
    const rotation: Rotation
    var ownOk: bool
    var failures: nat
    var successes: nat
    var fallback: Option<nat>
    var mode: Mode
    var route: Option<nat>

    ghost predicate Valid() {
      1 <= own <= maxHosts
    }

    ghost function View(): HealthState
      reads this
    {
      HealthState(ownOk, failures, successes, fallback, mode, route)
    }

    constructor (rotation: Rotation, own: nat, maxHosts: nat)
      requires 1 <= own <= maxHosts
      ensures Valid() && View() == INITIAL && this.rotation == rotation && this.own == own && this.maxHosts == maxHosts
    {
      this.rotation := rotation;
      this.own := own;
      this.maxHosts := maxHosts;
      ownOk, failures, successes := true, 0, 0;
      fallback, mode, route := None, Own, None;
    }

    /** `viaSelf`, `viaCurrent` and `via(h)` are the targets that answer through this
        host, through the current fallback host, and through host h. */
    method TickOnce(viaSelf: set<nat>, viaCurrent: set<nat>, via: nat -> set<nat>)
      requires Valid()
      modifies this, rotation
      ensures View() == Tick(old(View()), own, maxHosts,
                             Observation(Reaches(old(rotation.targets), viaSelf),
                                         Reaches(rotation.targets, viaCurrent),
                                         ReachableHosts(own, maxHosts, rotation.targets, via)))
      ensures |Active(rotation.targets)| >= 5
              || Active(rotation.targets) == Active(old(rotation.targets))
    {
      var ok, probed := rotation.Check(viaSelf, true);
      if ok {
        failures, successes := 0, successes + 1;
      } else {
        failures, successes := failures + 1, 0;
      }
      if mode == Own {
        if failures >= FAILURES_BEFORE_FALLBACK {
          ownOk := false;
          ChooseFallback(via);
        }
        return;
      }
      if successes >= SUCCESSES_BEFORE_RETURN {
        ownOk, fallback, mode, route := true, None, Own, None;
        return;
      }
      KeepFallback(viaCurrent, via);
    }

    /** Stays with a fallback host that still answers, or chooses one. */
    method KeepFallback(viaCurrent: set<nat>, via: nat -> set<nat>)
      requires Valid()
      modifies this, rotation
      ensures View() == var s := old(View());
                        if s.fallback.Some? && Reaches(rotation.targets, viaCurrent) then s
                        else Choose(s, own, maxHosts, ReachableHosts(own, maxHosts, rotation.targets, via))
      ensures rotation.targets == old(rotation.targets)
    {
      if fallback.Some? {
        var ok := Ask(viaCurrent);
        if ok {
          return;
        }
      }
      ChooseFallback(via);
    }

    method ChooseFallback(via: nat -> set<nat>)
      requires Valid()
      modifies this, rotation
      ensures View() == Choose(old(View()), own, maxHosts, ReachableHosts(own, maxHosts, old(rotation.targets), via))
      ensures rotation.targets == old(rotation.targets)
    {
      var order := FallbackOrder(own, maxHosts);
      ghost var targets0 := rotation.targets;
      ghost var reachable := ReachableHosts(own, maxHosts, targets0, via);
      ReachableInOrder(own, maxHosts, targets0, via);
      var i := 0;
      while i < |order|
        invariant 0 <= i <= |order|
        invariant View() == old(View()) && rotation.targets == targets0
        invariant FirstReachable(order, reachable) == FirstReachable(order[i..], reachable)
      {
        var ok := Ask(via(order[i]));
        assert order[i..][1..] == order[i + 1..];
        if ok {
          fallback, mode, route := Some(order[i]), Fallback, Some(order[i]);
          return;
        }
        i := i + 1;
      }
      fallback, mode, route := None, Nowhere, None;
    }

    /** A probe through another host, which counts no strikes. */
    method Ask(answers: set<nat>) returns (ok: bool)
      modifies rotation
      ensures ok <==> Reaches(old(rotation.targets), answers)
      ensures rotation.targets == old(rotation.targets)
    {
      var asked;
      ok, asked := rotation.Check(answers, false);
    }
  }

  lemma ReachableInOrder(own: nat, maxHosts: nat, targets: seq<Target>, via: nat -> set<nat>)
    requires 1 <= own <= maxHosts
    ensures var order := FallbackOrder(own, maxHosts);
            forall i :: 0 <= i < |order| ==>
                          (order[i] in ReachableHosts(own, maxHosts, targets, via) <==> Reaches(targets, via(order[i])))
  {
    FallbackOrderIsTheOtherHosts(own, maxHosts);
    var order := FallbackOrder(own, maxHosts);
    forall i | 0 <= i < |order|
      ensures order[i] in ReachableHosts(own, maxHosts, targets, via) <==> Reaches(targets, via(order[i]))
    {
      assert order[i] in order;
    }
  }

  ghost function ReachableHosts(own: nat, maxHosts: nat, targets: seq<Target>, via: nat -> set<nat>): set<nat> {
    set h: nat | 1 <= h <= maxHosts && h != own && Reaches(targets, via(h)) :: h
  }
}
