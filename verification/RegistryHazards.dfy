/** Two ways in which the registry's commands can leave it in a state that they
    themselves then refuse, with the exact conditions.
 */
module RegistryHazards {
  import opened Common
  import opened RegistryTypes
  import opened RegistryRules
  import opened RegistryPlans
  import opened RegistrySafety
  import opened RegistryRuns
  import opened RegistryWrites

  // A release that dies between its two removals ----------------------------------------

  /** Every orchestration record belongs to the guest registered under its name. */
  ghost predicate NoOrphans(s: Store) {
    forall n :: n in s.orchestration ==> Registered(s.resources, n, s.orchestration[n].resourceId)
  }

  ghost predicate DropsNoOrchestrated(s: Store, writes: seq<Write>) {
    forall w :: w in writes && w.DropResource? ==> w.name !in s.orchestration
  }

  lemma NoOrphanFrom(s: Store, w: Write)
    requires Safe(s, w) && NoOrphans(s) && (w.DropResource? ==> w.name !in s.orchestration)
    ensures NoOrphans(Perform(s, w))
  {
  }

  /** Writes that add no orchestration record. */
  predicate AddsNoOrchestration(writes: seq<Write>) {
    forall w :: w in writes ==> !w.PutOrchestration?
  }

  lemma {:induction false} NoOrphanAfter(s: Store, writes: seq<Write>)
    requires SafeAll(s, writes) && NoOrphans(s) && DropsNoOrchestrated(s, writes)
    requires AddsNoOrchestration(writes)
    ensures NoOrphans(After(s, writes)) && After(s, writes).orchestration.Keys <= s.orchestration.Keys
  {
    if writes != [] {
      NoOrphanAfter(s, writes[..|writes| - 1]);
      NoOrphanFrom(After(s, writes[..|writes| - 1]), writes[|writes| - 1]);
    }
  }

  /** Only production guests are orchestrated. */
  ghost predicate ProdKeys(s: Store) {
    forall n :: n in s.orchestration ==> n.Prod?
  }

  lemma {:induction false} NoOrphanFromStaging(s: Store, writes: seq<Write>)
    requires SafeAll(s, writes) && NoOrphans(s) && ProdKeys(s)
    requires OnlyStagingDropped(writes)
    ensures NoOrphans(After(s, writes)) && ProdKeys(After(s, writes))
  {
    if writes != [] {
      NoOrphanFromStaging(s, writes[..|writes| - 1]);
      assert writes[|writes| - 1] in writes;
      NoOrphanFrom(After(s, writes[..|writes| - 1]), writes[|writes| - 1]);
    }
  }

  predicate OnlyStagingDropped(writes: seq<Write>) {
    forall w :: w in writes && w.DropResource? ==> w.name.Stage?
  }

  lemma DropsOnlyStaging(c: Command, writes: seq<Write>, k: nat)
    requires AllFit(c, writes) && !c.CRelease? && k <= |writes|
    ensures OnlyStagingDropped(writes[..k])
  {
    forall w | w in writes[..k] && w.DropResource? ensures w.name.Stage? {
      assert w in writes;
    }
  }

  lemma OtherCommandsLeaveNoOrphan(s: Store, c: Command, k: nat)
    requires Inv(s) && FreshIds(s, c) && NoOrphans(s) && !c.CRelease? && k <= |PlanOf(s, s.policy, c).writes|
    ensures NoOrphans(After(s, PlanOf(s, s.policy, c).writes[..k]))
  {
    var writes := PlanOf(s, s.policy, c).writes;
    PlansAreSafe(s, c);
    EveryWriteFits(s, s.policy, c);
    PrefixLeavesNoOrphan(s, c, writes, k);
  }

  lemma PrefixLeavesNoOrphan(s: Store, c: Command, writes: seq<Write>, k: nat)
    requires Inv(s) && NoOrphans(s) && !c.CRelease? && k <= |writes| && SafeAll(s, writes) && AllFit(c, writes)
    ensures NoOrphans(After(s, writes[..k]))
  {
    SafePrefix(s, writes, k);
    DropsOnlyStaging(c, writes, k);
    NoOrphanFromStaging(s, writes[..k]);
  }

  /** The write removes no other guest's record, and adds no orchestration record. */
  predicate OnlyDrops(w: Write, name: Name) {
    !w.PutOrchestration? && (w.DropResource? ==> w.name == name)
  }

  lemma UnorchestratedRelease(s: Store, name: Name, force: bool, now: real)
    requires name !in s.orchestration
    ensures forall w :: w in Release(s, name, force, now).writes ==> OnlyDrops(w, name)
  {
    ReleaseFits(s, name, force, now);
  }

  lemma ReleaseOfAnUnorchestrated(s: Store, name: Name, reached: seq<Write>)
    requires NoOrphans(s) && name !in s.orchestration && SafeAll(s, reached)
    requires forall w :: w in reached ==> OnlyDrops(w, name)
    ensures NoOrphans(After(s, reached))
  {
    NoOrphanAfter(s, reached);
  }

  lemma HalfReleased(s: Store, name: Name)
    requires name in s.orchestration
    ensures !NoOrphans(After(s, [DropResource(name)]))
  {
    AfterSingle(s, DropResource(name));
  }

  lemma OrchestratedRelease(s: Store, name: Name, force: bool, now: real)
    requires name in s.orchestration && Release(s, name, force, now).outcome == Done
    ensures var prune := Prune(s.cleanup, Ids(s.resources) - {s.resources[name].id});
            Release(s, name, force, now).writes == [DropResource(name)] + [DropOrchestration(name)] + prune
            && forall w :: w in prune ==> w.DropCleanup?
  {
    DropsOnlyDrop(Victims(s.cleanup, Ids(s.resources) - {s.resources[name].id}));
  }

  lemma ReleaseOfAnOrchestrated(s: Store, name: Name, force: bool, now: real, reached: seq<Write>)
    requires NoOrphans(s) && name in s.orchestration && Release(s, name, force, now).outcome == Done
    requires reached <= Release(s, name, force, now).writes && SafeAll(s, reached)
    ensures NoOrphans(After(s, reached)) <==> |reached| != 1
  {
    OrchestratedRelease(s, name, force, now);
    if |reached| == 1 {
      assert reached == [DropResource(name)];
      HalfReleased(s, name);
    } else if |reached| >= 2 {
      BothDropped(s, name, reached, Prune(s.cleanup, Ids(s.resources) - {s.resources[name].id}));
    }
  }

  /** Release's first removal orphans the orchestration record; its second mends it. */
  lemma ReleaseAndOrphans(s: Store, name: Name, force: bool, now: real, diesAfter: Option<nat>)
    requires Inv(s) && NoOrphans(s)
    ensures NoOrphans(After(s, Reached(Release(s, name, force, now).writes, diesAfter)))
            <==> !(Release(s, name, force, now).outcome == Done && name in s.orchestration && diesAfter == Some(1))
  {
    var plan := Release(s, name, force, now);
    var reached := Reached(plan.writes, diesAfter);
    ReleaseIsSafe(s, name, force, now);
    SafePrefix(s, plan.writes, |reached|);
    assert plan.writes[..|reached|] == reached;
    if name !in s.orchestration {
      UnorchestratedRelease(s, name, force, now);
      ReleaseOfAnUnorchestrated(s, name, reached);
    } else if plan.outcome == Done {
      OrchestratedRelease(s, name, force, now);
      ReleaseOfAnOrchestrated(s, name, force, now, reached);
    }
  }

  lemma BothDropped(s: Store, name: Name, reached: seq<Write>, prune: seq<Write>)
    requires NoOrphans(s) && |reached| >= 2
    requires reached <= [DropResource(name)] + [DropOrchestration(name)] + prune
    requires forall w :: w in prune ==> w.DropCleanup?
    ensures NoOrphans(After(s, reached))
  {
    var rest := reached[2..];
    assert reached == [DropResource(name)] + [DropOrchestration(name)] + rest;
    assert forall w :: w in rest ==> w in prune;
    AfterSplits(s, [DropResource(name)] + [DropOrchestration(name)], rest);
    AfterSplits(s, [DropResource(name)], [DropOrchestration(name)]);
    AfterSingle(s, DropResource(name));
    var t := Perform(s, DropResource(name));
    AfterSingle(t, DropOrchestration(name));
    CleanupDropsKeep(Perform(t, DropOrchestration(name)), rest);
  }

  lemma {:induction false} CleanupDropsKeep(s: Store, writes: seq<Write>)
    requires forall w :: w in writes ==> w.DropCleanup?
    ensures After(s, writes).resources == s.resources && After(s, writes).orchestration == s.orchestration
  {
    if writes != [] {
      assert writes[|writes| - 1] in writes;
      CleanupDropsKeep(s, writes[..|writes| - 1]);
    }
  }

  lemma OthersStepLeavesNoOrphan(s: Store, e: Event)
    requires Inv(s) && FreshIds(s, e.command) && NoOrphans(s) && !e.command.CRelease?
    ensures NoOrphans(Step(s, e))
  {
    var writes := PlanOf(s, s.policy, e.command).writes;
    var k := |Reached(writes, e.diesAfter)|;
    assert writes[..|writes|] == writes;
    OtherCommandsLeaveNoOrphan(s, e.command, k);
    assert Step(s, e) == After(s, writes[..k]);
  }

  /** An orchestration record outlives its guest exactly when a release dies between
      removing the guest's record and removing the orchestration record. */
  lemma OrphansComeFromAnInterruptedRelease(s: Store, e: Event)
    requires Inv(s) && FreshIds(s, e.command) && NoOrphans(s)
    ensures NoOrphans(Step(s, e)) <==>
            !(&& e.command.CRelease? && Release(s, e.command.name, e.command.force, e.command.now).outcome == Done
              && e.command.name in s.orchestration && e.diesAfter == Some(1))
  {
    if e.command.CRelease? {
      ReleaseAndOrphans(s, e.command.name, e.command.force, e.command.now, e.diesAfter);
      assert Step(s, e) == After(s, Reached(Release(s, e.command.name, e.command.force, e.command.now).writes,
          e.diesAfter));
    } else {
      OthersStepLeavesNoOrphan(s, e);
    }
  }

  /** A production guest whose orchestration record is another guest's. */
  predicate Stuck(s: Store, n: Name, id: Id, gone: Id) {
    n.Prod? && Registered(s.resources, n, id) && Orchestrates(s, n, gone) && id != gone
  }

  lemma AllocatedProd(t: Store, a: ProdArgs)
    requires AllocateProd(t, t.policy, a).outcome == Done
    ensures var plan := AllocateProd(t, t.policy, a);
            plan.writes == [PutResource(plan.writes[0].record)] && plan.writes[0].record.id == a.newId
            && plan.writes[0].record.name.Prod? && After(t, plan.writes) == Perform(t, plan.writes[0])
  {
    var plan := AllocateProd(t, t.policy, a);
    AfterSingle(t, plan.writes[0]);
    assert plan.writes == [plan.writes[0]];
  }

  /** The next guest allocated in the slot of an orphaned record is stuck. */
  lemma TheNextGuestIsStuck(s: Store, n: Name, force: bool, now: real, a: ProdArgs)
    requires Inv(s) && NoOrphans(s) && n in s.orchestration && Release(s, n, force, now).outcome == Done
    requires a.newId !in s.issued
    ensures var t := After(s, Release(s, n, force, now).writes[..1]);
            var plan := AllocateProd(t, t.policy, a);
            plan.outcome == Done && plan.writes[0].record.name == n ==>
              Stuck(After(t, plan.writes), n, a.newId, s.resources[n].id)
  {
    OrchestratedRelease(s, n, force, now);
    assert Release(s, n, force, now).writes[..1] == [DropResource(n)];
    AfterSingle(s, DropResource(n));
    var t := Perform(s, DropResource(n));
    if AllocateProd(t, t.policy, a).outcome == Done {
      AllocatedProd(t, a);
    }
  }

  /** No command releases a stuck guest, with or without force, or orchestrates it. */
  lemma AStuckGuestIsRefused(s: Store, n: Name, id: Id, gone: Id)
    requires Inv(s) && Stuck(s, n, id, gone)
    ensures forall force, now :: Release(s, n, force, now) == REFUSED
    ensures forall a: AcquireArgs :: a.name == n ==> Acquire(s, a) == REFUSED
    ensures forall a: PhaseArgs :: a.name == n ==> SetPhase(s, a) == REFUSED
    ensures forall nonce :: ReleaseLease(s, n, nonce) == REFUSED
  {
  }

  predicate Spares(writes: seq<Write>, n: Name) {
    forall w :: w in writes && w.DropResource? ==> w.name != n
  }

  lemma ReleaseSparesAStuckGuest(s: Store, name: Name, force: bool, now: real, n: Name, id: Id, gone: Id)
    requires Stuck(s, n, id, gone)
    ensures Spares(Release(s, name, force, now).writes, n)
  {
    if MayRelease(s, name, now) {
      DropsOnlyDrop(Victims(s.cleanup, Ids(s.resources) - {s.resources[name].id}));
    }
  }

  lemma OthersSpareProduction(s: Store, c: Command, n: Name)
    requires !c.CRelease? && n.Prod?
    ensures Spares(PlanOf(s, s.policy, c).writes, n)
  {
    EveryWriteFits(s, s.policy, c);
  }

  lemma NothingDropsAStuckGuest(s: Store, c: Command, n: Name, id: Id, gone: Id)
    requires Stuck(s, n, id, gone)
    ensures Spares(PlanOf(s, s.policy, c).writes, n)
  {
    match c
    case CRelease(name, force, now) => ReleaseSparesAStuckGuest(s, name, force, now, n, id, gone);
    case _ => OthersSpareProduction(s, c, n);
  }

  lemma StuckThrough(s: Store, w: Write, n: Name, id: Id, gone: Id)
    requires Safe(s, w) && Stuck(s, n, id, gone) && (w.DropResource? ==> w.name != n)
    ensures Stuck(Perform(s, w), n, id, gone)
  {
  }

  lemma {:induction false} StuckAfter(s: Store, writes: seq<Write>, n: Name, id: Id, gone: Id)
    requires SafeAll(s, writes) && Stuck(s, n, id, gone) && Spares(writes, n)
    ensures Stuck(After(s, writes), n, id, gone)
  {
    if writes != [] {
      StuckAfter(s, writes[..|writes| - 1], n, id, gone);
      StuckThrough(After(s, writes[..|writes| - 1]), writes[|writes| - 1], n, id, gone);
    }
  }

  lemma StuckStep(s: Store, e: Event, n: Name, id: Id, gone: Id)
    requires Inv(s) && FreshIds(s, e.command) && Stuck(s, n, id, gone)
    ensures Stuck(Step(s, e), n, id, gone)
  {
    var writes := PlanOf(s, s.policy, e.command).writes;
    var reached := Reached(writes, e.diesAfter);
    PlansAreSafe(s, e.command);
    NothingDropsAStuckGuest(s, e.command, n, id, gone);
    SafePrefix(s, writes, |reached|);
    assert writes[..|writes|] == writes;
    assert reached == writes[..|reached|];
    StuckAfter(s, reached, n, id, gone);
  }

  /** A stuck guest stays registered and stuck through every later command. */
  lemma {:induction false} StuckForever(p: Policy, es: seq<Event>, i: nat, n: Name, id: Id, gone: Id)
    requires ValidPolicy(p) && Fresh(p, es) && i <= |es| && Stuck(Run(p, es[..i]), n, id, gone)
    ensures Stuck(Run(p, es), n, id, gone)
  {
    if i == |es| {
      assert es[..i] == es;
    } else {
      assert es[..|es| - 1][..i] == es[..i];
      StuckForever(p, es[..|es| - 1], i, n, id, gone);
      EveryRunKeepsTheInvariant(p, es[..|es| - 1]);
      StuckStep(Run(p, es[..|es| - 1]), es[|es| - 1], n, id, gone);
    }
  }

  // A policy that was read too early ---------------------------------------------------------

  /** Two policies that differ at most in their slots. */
  predicate SlotsOnly(p: Policy, q: Policy) {
    q == p.(slots := q.slots)
  }

  lemma ValidUnderBoth(r: Resource, p: Policy, q: Policy)
    requires SlotsOnly(p, q) && ValidResource(r, q)
    ensures ValidResource(r, p) <==> q.slots.start == p.slots.start && InSlots(p, r.name)
  {
  }

  /** An allocation that read its policy before the slots were changed leaves the
      registry readable exactly when the slots still start at the same address and
      the new guest's slot still exists. */
  lemma AllocationUnderAnOldPolicy(s: Store, q: Policy, c: Command)
    requires Inv(s) && FreshIds(s, c) && SlotsOnly(s.policy, q) && (c.CAllocateProd? || c.CAllocateStaging?)
    requires PlanOf(s, q, c).outcome == Done
    ensures |PlanOf(s, q, c).writes| == 1 && PlanOf(s, q, c).writes[0].PutResource?
    ensures var r := PlanOf(s, q, c).writes[0].record;
            Readable(After(s, PlanOf(s, q, c).writes)) <==>
                  q.slots.start == s.policy.slots.start && InSlots(s.policy, r.name)
  {
    var writes := PlanOf(s, q, c).writes;
    var r := writes[0].record;
    assert writes == [writes[0]];
    AfterSingle(s, writes[0]);
    ValidUnderBoth(r, s.policy, q);
    OldPolicyReadable(s, r);
  }

  lemma OldPolicyReadable(s: Store, r: Resource)
    requires Readable(s) && Consistent(s.resources[r.name := r])
    ensures Readable(Perform(s, PutResource(r))) <==> ValidResource(r, s.policy)
  {
    assert Perform(s, PutResource(r)).resources[r.name] == r;
  }

  /** The guests that the plan makes have the same address under the current policy,
      and their slots still exist. */
  ghost predicate FitsNow(s: Store, q: Policy, plan: Plan) {
    forall w :: w in plan.writes && w.PutResource? ==>
          q.slots.start == s.policy.slots.start && InSlots(s.policy, w.record.name)
  }

  /** Only an allocation can be too late. */
  ghost predicate Timely(s: Store, q: Policy, c: Command) {
    match c
    case CAllocateProd(a) => FitsNow(s, q, AllocateProd(s, q, a))
    case CAllocateStaging(a) => FitsNow(s, q, AllocateStaging(s, q, a))
    case _ => true
  }

  lemma SameNewGuest(s: Store, q: Policy, r: Resource)
    requires Readable(s) && SlotsOnly(s.policy, q) && q.slots.start == s.policy.slots.start && InSlots(s.policy, r.name)
    ensures Replace(s, q, r) != REFUSED ==> Replace(s, q, r) == Replace(s, s.policy, r)
  {
    if ValidResource(r, q) {
      ValidUnderBoth(r, s.policy, q);
    }
  }

  lemma TimelyProd(s: Store, q: Policy, a: ProdArgs)
    requires Inv(s) && SlotsOnly(s.policy, q) && Timely(s, q, CAllocateProd(a)) && AllocateProd(s, q, a).writes != []
    ensures AllocateProd(s, q, a) == AllocateProd(s, s.policy, a)
  {
    ProdPlan(s, q, a);
    SameGuest(s, q, NewProd(a, ProdNumber(s, q, a).value, q), AllocateProd(s, q, a));
    ProdPlanNow(s, q, a);
  }

  function ProdNumber(s: Store, q: Policy, a: ProdArgs): Option<nat> {
    ProdIndex(a, s.resources.Keys, q)
  }

  lemma ProdPlan(s: Store, q: Policy, a: ProdArgs)
    requires AllocateProd(s, q, a).writes != []
    ensures Readable(s) && a.placement != [] && ProdNumber(s, q, a).Some?
    ensures AllocateProd(s, q, a) == Replace(s, q, NewProd(a, ProdNumber(s, q, a).value, q))
  {
  }

  lemma ProdPlanNow(s: Store, q: Policy, a: ProdArgs)
    requires SlotsOnly(s.policy, q) && q.slots.start == s.policy.slots.start && AllocateProd(s, q, a).writes != []
    requires ProdNumber(s, q, a).Some? && ProdNumber(s, q, a).value <= s.policy.slots.maxProduction && a.placement != []
    ensures AllocateProd(s, s.policy, a) == Replace(s, s.policy, NewProd(a, ProdNumber(s, q, a).value, q))
  {
    assert ProdNumber(s, s.policy, a) == ProdNumber(s, q, a);
  }

  /** The new guest of a plan that fits now is accepted now. */
  lemma SameGuest(s: Store, q: Policy, r: Resource, plan: Plan)
    requires Readable(s) && SlotsOnly(s.policy, q) && plan == Replace(s, q, r) && plan.writes != []
             && FitsNow(s, q, plan)
    ensures q.slots.start == s.policy.slots.start && InSlots(s.policy, r.name) && plan == Replace(s, s.policy, r)
  {
    assert PutResource(r) in plan.writes;
    SameNewGuest(s, q, r);
  }

  function StageNumber(s: Store, q: Policy, a: StagingArgs): Option<nat> {
    FirstFreeStage(s.resources.Keys, a.source.n, 1, q.slots.maxStaging)
  }

  lemma StagingPlan(s: Store, q: Policy, a: StagingArgs)
    requires AllocateStaging(s, q, a).writes != []
    ensures Readable(s) && a.source in s.resources && StageNumber(s, q, a).Some?
    ensures AllocateStaging(s, q, a) == Replace(s, q,
            NewStaging(a, StageNumber(s, q, a).value, s.resources[a.source], q))
  {
  }

  lemma StagingPlanNow(s: Store, q: Policy, a: StagingArgs)
    requires SlotsOnly(s.policy, q) && q.slots.start == s.policy.slots.start && AllocateStaging(s, q, a).writes != []
    requires StageNumber(s, q, a).Some? && StageNumber(s, q, a).value <= s.policy.slots.maxStaging
    ensures a.source in s.resources
    ensures AllocateStaging(s, s.policy, a)
            == Replace(s, s.policy, NewStaging(a, StageNumber(s, q, a).value, s.resources[a.source], q))
  {
    assert StageNumber(s, s.policy, a) == StageNumber(s, q, a);
  }

  lemma TimelyStaging(s: Store, q: Policy, a: StagingArgs)
    requires Inv(s) && SlotsOnly(s.policy, q) && Timely(s, q, CAllocateStaging(a))
             && AllocateStaging(s, q, a).writes != []
    ensures AllocateStaging(s, q, a) == AllocateStaging(s, s.policy, a)
  {
    StagingPlan(s, q, a);
    SameGuest(s, q, NewStaging(a, StageNumber(s, q, a).value, s.resources[a.source], q), AllocateStaging(s, q, a));
    StagingPlanNow(s, q, a);
  }

  /** A timely command, under an old policy, writes what it does under the current one,
      or nothing. */
  lemma TimelyCommands(s: Store, q: Policy, c: Command)
    requires Inv(s) && SlotsOnly(s.policy, q) && Timely(s, q, c)
    ensures PlanOf(s, q, c).writes == [] || PlanOf(s, q, c).writes == PlanOf(s, s.policy, c).writes
  {
    match c
    case CAllocateProd(a) => if AllocateProd(s, q, a).writes != [] { TimelyProd(s, q, a); }
    case CAllocateStaging(a) => if AllocateStaging(s, q, a).writes != [] { TimelyStaging(s, q, a); }
    case _ => OnlyAllocationsNeedTheCurrentPolicy(s, q, c);
  }

  /** An unreadable registry is not changed by any command again. */
  lemma UnreadableForGood(s: Store, q: Policy, c: Command)
    requires !Readable(s)
    ensures PlanOf(s, q, c).writes == []
  {
  }

  lemma ReplaceUnderAnOldPolicy(s: Store, q: Policy, r: Resource)
    requires Readable(s) && SlotsOnly(s.policy, q) && r.name in s.resources && r.octet == s.resources[r.name].octet
    ensures Replace(s, q, r) == REFUSED || Replace(s, q, r) == Replace(s, s.policy, r)
  {
    var cur := s.resources[r.name];
    assert ValidResource(cur, s.policy);
    if ValidResource(r, q) {
      ValidUnderBoth(r, s.policy, q);
    }
  }

  lemma UpdateUnderAnOldPolicy(s: Store, q: Policy, name: Name, a: UpdateArgs)
    requires Inv(s) && SlotsOnly(s.policy, q)
    ensures Update(s, q, name, a) == REFUSED || Update(s, q, name, a) == Update(s, s.policy, name, a)
  {
    if name in s.resources {
      var cur := s.resources[name];
      var ds := Dependents(s.resources, name);
      assert AcceptsFirst(cur, a, q, ds) == AcceptsFirst(cur, a, s.policy, ds);
      if a.placement.Some? ==> a.placement.value != [] {
        ReplaceUnderAnOldPolicy(s, q, Updated(cur, a));
      }
    }
  }

  lemma SnapshotIntentUnderAnOldPolicy(s: Store, q: Policy, a: IntentArgs)
    requires Inv(s) && SlotsOnly(s.policy, q)
    ensures SnapshotIntent(s, q, a) == REFUSED || SnapshotIntent(s, q, a) == SnapshotIntent(s, s.policy, a)
  {
    var plan := SnapshotIntent(s, q, a);
    if plan.writes != [] {
      ReplaceUnderAnOldPolicy(s, q, plan.writes[0].record);
    }
  }

  lemma RecordSnapshotUnderAnOldPolicy(s: Store, q: Policy, a: RecordArgs)
    requires Inv(s) && SlotsOnly(s.policy, q)
    ensures RecordSnapshot(s, q, a) == REFUSED || RecordSnapshot(s, q, a) == RecordSnapshot(s, s.policy, a)
  {
    var plan := RecordSnapshot(s, q, a);
    if plan.writes != [] {
      ReplaceUnderAnOldPolicy(s, q, plan.writes[0].record);
    }
  }

  lemma ShareSnapshotUnderAnOldPolicy(s: Store, q: Policy, a: ShareArgs)
    requires Inv(s) && SlotsOnly(s.policy, q)
    ensures ShareSnapshot(s, q, a) == REFUSED || ShareSnapshot(s, q, a) == ShareSnapshot(s, s.policy, a)
  {
    var plan := ShareSnapshot(s, q, a);
    if plan.writes != [] {
      ReplaceUnderAnOldPolicy(s, q, plan.writes[0].record);
    }
  }

  lemma RecordOwnerUnderAnOldPolicy(s: Store, q: Policy, a: OwnerArgs)
    requires Inv(s) && SlotsOnly(s.policy, q)
    ensures RecordOwner(s, q, a) == REFUSED || RecordOwner(s, q, a) == RecordOwner(s, s.policy, a)
  {
    var plan := RecordOwner(s, q, a);
    if plan.writes != [] {
      ReplaceUnderAnOldPolicy(s, q, plan.writes[0].record);
    }
  }

  /** Every other command, under an old policy, does what it does under the current
      one or refuses. */
  lemma OnlyAllocationsNeedTheCurrentPolicy(s: Store, q: Policy, c: Command)
    requires Inv(s) && SlotsOnly(s.policy, q) && !c.CAllocateProd? && !c.CAllocateStaging?
    ensures PlanOf(s, q, c) == REFUSED || PlanOf(s, q, c) == PlanOf(s, s.policy, c)
  {
    match c
    case CUpdate(name, a) => UpdateUnderAnOldPolicy(s, q, name, a);
    case CSnapshotIntent(a) => SnapshotIntentUnderAnOldPolicy(s, q, a);
    case CRecordSnapshot(a) => RecordSnapshotUnderAnOldPolicy(s, q, a);
    case CShareSnapshot(a) => ShareSnapshotUnderAnOldPolicy(s, q, a);
    case CRecordOwner(a) => RecordOwnerUnderAnOldPolicy(s, q, a);
    case CFinalize(name, id) => FinalizeUnderAnOldPolicy(s, q, name, id);
    case CReconcile(stale, seen) => ReconcileUnderAnOldPolicy(s, q, stale, seen);
    case _ =>
  }

  lemma FinalizeUnderAnOldPolicy(s: Store, q: Policy, name: Name, id: Id)
    requires Inv(s)
    ensures Finalize(s, q, name, id) == REFUSED || Finalize(s, q, name, id) == Finalize(s, s.policy, name, id)
  {
  }

  lemma ReconcileUnderAnOldPolicy(s: Store, q: Policy, stale: seq<Name>, seen: set<CleanupKey>)
    requires Inv(s)
    ensures Reconcile(s, q, stale, seen) == REFUSED
            || Reconcile(s, q, stale, seen) == Reconcile(s, s.policy, stale, seen)
  {
    var changes := GiveUps(s.resources, stale) + Completions(s.cleanup, seen);
    ReconcileIsSafe(s, stale, seen);
    ReconcileReadable(s, stale, seen);
  }
}
