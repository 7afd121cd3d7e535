/** When a guest may leave the registry, what each way of leaving it needs, and which
    cleanup records go with it; on the records' own fields.
 */
module RegistryRemovals {
  import opened Common
  import opened RegistryTypes
  import opened RegistryRules
  import opened RegistryPlans
  import opened RegistrySafety
  import opened RegistryRuns
  import opened RegistryWrites
  import opened RegistryCleanup

  // Release -----------------------------------------------------------------------------

  /** Nothing is staged from the guest. */
  ghost predicate NoCopies(s: Store, name: Name) {
    forall d :: d in s.resources && d.Stage? ==> Prod(d.n) != name
  }

  ghost predicate NothingPending(s: Store, id: Id) {
    forall c :: c in s.cleanup && c.key.resourceId == id ==> c.completed
  }

  /** Its orchestration record, if any, is its own, and its lease has run out. */
  predicate NobodyInstalls(s: Store, name: Name, id: Id, now: real) {
    name in s.orchestration ==>
      && s.orchestration[name].resourceId == id
      && (s.orchestration[name].lease.Some? ==> s.orchestration[name].lease.value.expires as real <= now)
  }

  /** The record says that nothing of the guest is left. */
  predicate OwnsNothing(r: Resource) {
    r.owner == None && r.volume == None && r.snapshot == None && |r.haNodes| == 0 && |r.targets| == 0
  }

  /** A release is done or refused. It is done exactly for a registered guest without
      copies, pending cleanups and a live lease; and, unless forced, only in four
      states and when the record owns nothing. */
  lemma AReleaseIsDoneIff(s: Store, name: Name, force: bool, now: real)
    requires Readable(s)
    ensures Release(s, name, force, now).outcome == Done <==>
            && name in s.resources && NoCopies(s, name) && NothingPending(s, s.resources[name].id)
            && NobodyInstalls(s, name, s.resources[name].id, now)
            && (force || (OwnsNothing(s.resources[name])
                          && s.resources[name].state in {Reserved, Stopped, Failed, CleanupPending}))
    ensures Release(s, name, force, now).outcome != Done ==> Release(s, name, force, now) == Plan(Refused, [])
  {
    if name in s.resources {
      assert NoCopies(s, name) <==> Dependents(s.resources, name) == {} by {
        if Dependents(s.resources, name) != {} {
          var d :| d in Dependents(s.resources, name);
          assert SourceOf(d) == name;
        }
        assert forall d :: d in s.resources && d.Stage? && Prod(d.n) == name ==> d in Dependents(s.resources, name);
      }
    }
  }

  lemma {:induction false} OnlyCleanupsDropped(s: Store, writes: seq<Write>)
    requires forall w :: w in writes ==> w.DropCleanup?
    ensures After(s, writes) == s.(cleanup := After(s, writes).cleanup)
  {
    if writes != [] {
      assert writes[|writes| - 1] in writes;
      OnlyCleanupsDropped(s, writes[..|writes| - 1]);
    }
  }

  lemma DroppedThenPruned(s: Store, name: Name, drops: seq<Write>)
    requires forall w :: w in drops ==> w.DropCleanup?
    ensures var t := After(s, [DropResource(name)] + drops);
            t.resources == s.resources - {name} && t.orchestration == s.orchestration
    ensures var t := After(s, [DropResource(name)] + [DropOrchestration(name)] + drops);
            t.resources == s.resources - {name} && t.orchestration == s.orchestration - {name}
  {
    var first := [DropResource(name)];
    var both := first + [DropOrchestration(name)];
    BothDropped(s, name);
    AfterSplits(s, first, drops);
    AfterSplits(s, both, drops);
    OnlyCleanupsDropped(After(s, first), drops);
    OnlyCleanupsDropped(After(s, both), drops);
  }

  lemma BothDropped(s: Store, name: Name)
    ensures var t := After(s, [DropResource(name)]);
            t.resources == s.resources - {name} && t.orchestration == s.orchestration
    ensures var t := After(s, [DropResource(name)] + [DropOrchestration(name)]);
            t.resources == s.resources - {name} && t.orchestration == s.orchestration - {name}
  {
    AfterSplits(s, [DropResource(name)], [DropOrchestration(name)]);
    AfterSingle(s, DropResource(name));
    AfterSingle(After(s, [DropResource(name)]), DropOrchestration(name));
  }

  /** A release removes the guest and its orchestration record, and no other guest. */
  lemma WhatAReleaseLeaves(s: Store, name: Name, force: bool, now: real)
    requires Release(s, name, force, now).outcome == Done
    ensures var t := After(s, Release(s, name, force, now).writes);
            t.resources == s.resources - {name} && t.orchestration == s.orchestration - {name}
  {
    var drops := Prune(s.cleanup, Ids(s.resources) - {s.resources[name].id});
    DropsOnlyDrop(Victims(s.cleanup, Ids(s.resources) - {s.resources[name].id}));
    DroppedThenPruned(s, name, drops);
    ReleaseWrites(s, name, force, now, drops);
    if name !in s.orchestration {
      assert s.orchestration - {name} == s.orchestration;
    }
  }

  lemma ReleaseWrites(s: Store, name: Name, force: bool, now: real, drops: seq<Write>)
    requires Release(s, name, force, now).outcome == Done
    requires drops == Prune(s.cleanup, Ids(s.resources) - {s.resources[name].id})
    ensures Release(s, name, force, now).writes
            == if name in s.orchestration then [DropResource(name)] + [DropOrchestration(name)] + drops
               else [DropResource(name)] + drops
  {
    assert [DropResource(name)] + [] == [DropResource(name)];
  }

  // How a guest leaves --------------------------------------------------------------------

  /** The removals of its VM, of its volume or overlay, and of its snapshot on every
      node of its source, that a final release looks for. */
  ghost predicate AllRemoved(s: Store, r: Resource) {
    && r.name.Stage? && Prod(r.name.n) in s.resources && |r.placement| > 0
    && (r.owner.Some? ==> Removed(s.cleanup, r.id, r.owner.value, DestroyVm, VmTarget(r.vmid)))
    && (r.volume.Some? ==>
          Removed(s.cleanup, r.id, if r.owner.Some? then r.owner.value else r.placement[0],
                  if r.backup.Some? then DestroyOverlay else DestroyVolume, VolumeTarget(r.volume.value)))
    && (r.snapshot.Some? ==>
          var source := s.resources[Prod(r.name.n)];
          forall n :: n in source.placement ==>
            Removed(s.cleanup, r.id, n, DeleteSnapshot, SnapshotTarget(source.vmid, r.snapshot.value.name)))
  }

  lemma EvidenceIsRemoved(cleanup: seq<Cleanup>, id: Id, node: Node, action: Action, target: Target)
    ensures (node, action, target) in Evidence(cleanup, id) <==> Removed(cleanup, id, node, action, target)
  {
    if Removed(cleanup, id, node, action, target) {
      var c :| c in cleanup && c.completed && c.key.resourceId == id && c.key.node == node && c.key.action == action
          && c.key.target == target;
      assert (c.key.node, c.key.action, c.key.target) in Evidence(cleanup, id);
    }
  }

  lemma AccountedMeans(s: Store, r: Resource)
    requires |r.placement| > 0 && r.name.Stage? && Prod(r.name.n) in s.resources
    ensures Accounted(r, s.resources[Prod(r.name.n)], Evidence(s.cleanup, r.id)) <==> AllRemoved(s, r)
  {
    forall n: Node, a, t ensures (n, a, t) in Evidence(s.cleanup, r.id) <==> Removed(s.cleanup, r.id, n, a, t) {
      EvidenceIsRemoved(s.cleanup, r.id, n, a, t);
    }
  }

  /** A final release is done exactly for the registered staging guest of that id, in
      the state for it, with nothing pending and everything removed. */
  lemma AFinalReleaseIsDoneIff(s: Store, name: Name, id: Id)
    requires Inv(s)
    ensures Finalize(s, s.policy, name, id).outcome == Done <==>
            && name in s.resources && s.resources[name].id == id && s.resources[name].state == CleanupPending
            && NothingPending(s, id) && AllRemoved(s, s.resources[name])
    ensures Finalize(s, s.policy, name, id).outcome == Unchanged <==> name !in s.resources
  {
    if name in s.resources && name.Stage? && !PendingFor(s.cleanup, id) {
      var r := s.resources[name];
      assert ValidResource(r, s.policy) && Linked(s.resources, r) && r.name == name;
      assert Dependents(s.resources, name) == {};
      AccountedMeans(s, r);
      DropResourceReadable(s, name);
    }
  }

  lemma {:induction false} DroppedIsGone(s: Store, writes: seq<Write>, n: Name)
    requires n in s.resources && DropResource(n) !in writes
    ensures n in After(s, writes).resources
  {
    if writes != [] {
      assert writes[|writes| - 1] in writes;
      DroppedIsGone(s, writes[..|writes| - 1], n);
    }
  }

  /** The guest is released with nothing left of it, or by force, or finally; nothing
      depends on it and nothing is pending. */
  ghost predicate LeavesWith(s: Store, c: Command, n: Name)
    requires n in s.resources
  {
    var r := s.resources[n];
    && NothingPending(s, r.id) && NoCopies(s, n)
    && match c
       case CRelease(name, force, _) =>
         name == n && (force || (OwnsNothing(r) && r.state in {Reserved, Stopped, Failed, CleanupPending}))
       case CFinalize(name, id) => name == n && id == r.id && r.state == CleanupPending && AllRemoved(s, r)
       case _ => false
  }

  /** In every run, wherever a process dies: a guest leaves the registry only with no
      copies and nothing pending, by a release, which was forced or found that it owned
      nothing, or by a final release, which found everything removed. */
  lemma HowAGuestLeaves(p: Policy, es: seq<Event>, e: Event, n: Name)
    requires ValidPolicy(p) && Fresh(p, es)
    requires n in Run(p, es).resources && n !in Step(Run(p, es), e).resources
    ensures LeavesWith(Run(p, es), e.command, n)
  {
    EveryRunKeepsTheInvariant(p, es);
    LeavesIf(Run(p, es), e, n);
  }

  lemma LeavesIf(s: Store, e: Event, n: Name)
    requires Inv(s) && n in s.resources && n !in Step(s, e).resources
    ensures LeavesWith(s, e.command, n)
  {
    WhoDropsAGuest(s, e, n);
    if e.command.CRelease? {
      AReleaseIsDoneIff(s, n, e.command.force, e.command.now);
    } else {
      AFinalReleaseIsDone(s, n, e.command.id);
    }
  }

  lemma AFinalReleaseIsDone(s: Store, name: Name, id: Id)
    requires Inv(s) && name in s.resources && Finalize(s, s.policy, name, id).outcome == Done
    ensures s.resources[name].id == id && s.resources[name].state == CleanupPending && NothingPending(s, id)
            && NoCopies(s, name) && AllRemoved(s, s.resources[name])
  {
    AFinalReleaseIsDoneIff(s, name, id);
    assert s.resources[name].name == name;
  }

  lemma WhoDropsAGuest(s: Store, e: Event, n: Name)
    requires n in s.resources && n !in Step(s, e).resources
    ensures (e.command.CRelease? || e.command.CFinalize?) && e.command.name == n
            && PlanOf(s, s.policy, e.command).outcome == Done
  {
    var writes := PlanOf(s, s.policy, e.command).writes;
    if DropResource(n) !in Reached(writes, e.diesAfter) {
      DroppedIsGone(s, Reached(writes, e.diesAfter), n);
    }
    EveryWriteFits(s, s.policy, e.command);
    assert Fits(e.command, DropResource(n));
  }

  // Deferred cleanups ------------------------------------------------------------------------

  /** Which targets an action may name. */
  predicate Names(action: Action, target: Target) {
    match target
    case VmTarget(_) => action == DestroyVm
    case VolumeTarget(volume) => if volume.Overlay? then action == DestroyOverlay else action == DestroyVolume
    case SnapshotTarget(_, _) => action == DeleteSnapshot
    case JobTarget(_) => action == RemoveReplication
  }

  ghost predicate OnRecord(s: Store, key: CleanupKey) {
    exists c :: c in s.cleanup && c.key == key
  }

  /** A cleanup is deferred once for a registered guest, while there is room. */
  lemma ACleanupIsDeferredIff(s: Store, a: DeferArgs, id: Id)
    requires Inv(s) && Registered(s.resources, a.resource, id)
    ensures var key := CleanupKey(a.resource, id, a.node, a.action, a.target);
            var plan := DeferCleanup(s, s.policy, a);
            var pruned := After(s, Prune(s.cleanup, Ids(s.resources)));
            var asked := 1 <= a.node <= s.policy.maxHosts && Names(a.action, a.target);
            && (plan.outcome == Unchanged <==> asked && OnRecord(s, key))
            && (plan.outcome == Done <==> asked && !OnRecord(s, key) && |pruned.cleanup| < 4096)
            && (plan.outcome == Done ==>
                  After(s, plan.writes) == pruned.(cleanup := pruned.cleanup + [Cleanup(key, false, 0, 1)]))
  {
    var key := CleanupKey(a.resource, id, a.node, a.action, a.target);
    var drops := Prune(s.cleanup, Ids(s.resources));
    DeferralPlan(s, a, key, drops);
    RecordedMeans(s.cleanup, key);
    if !Recorded(s.cleanup, key) {
      AddedAfter(s, drops, key);
    }
  }

  lemma DeferralPlan(s: Store, a: DeferArgs, key: CleanupKey, drops: seq<Write>)
    requires Readable(s) && Registered(s.resources, a.resource, key.resourceId)
    requires key == CleanupKey(a.resource, key.resourceId, a.node, a.action, a.target)
    requires drops == Prune(s.cleanup, Ids(s.resources))
    ensures DeferCleanup(s, s.policy, a)
            == if !(1 <= a.node <= s.policy.maxHosts && Names(a.action, a.target)) then REFUSED
               else if Recorded(s.cleanup, key) then UNCHANGED
               else if |After(s, drops).cleanup| >= 4096 then Plan(Refused, drops)
               else Plan(Done, drops + [PutCleanup(Cleanup(key, false, 0, 1))])
  {
    OneNodeOk(a.node, s.policy);
    NamesFits(a.action, a.target);
  }

  lemma OneNodeOk(node: Node, p: Policy)
    ensures NodesOk([node], p) <==> 1 <= node <= p.maxHosts
  {
    assert node in [node] && Distinct([node]);
  }

  lemma NamesFits(action: Action, target: Target)
    ensures TargetFits(action, target) <==> Names(action, target)
  {
  }

  lemma AddedAfter(s: Store, drops: seq<Write>, key: CleanupKey)
    requires Inv(s) && !Recorded(s.cleanup, key) && drops == Prune(s.cleanup, Ids(s.resources))
    ensures var c := Cleanup(key, false, 0, 1);
            var pruned := After(s, drops);
            After(s, drops + [PutCleanup(c)]) == pruned.(cleanup := pruned.cleanup + [c])
  {
    PruneOnlyDrops(s);
    RecordedMeans(s.cleanup, key);
    RecordedMeans(After(s, drops).cleanup, key);
    AfterSplits(s, drops, [PutCleanup(Cleanup(key, false, 0, 1))]);
    AfterSingle(After(s, drops), PutCleanup(Cleanup(key, false, 0, 1)));
  }

  // Pruning -----------------------------------------------------------------------------------

  /** A completed record of a guest that is gone. */
  predicate MayGo(c: Cleanup, active: set<Id>) {
    c.completed && c.key.resourceId !in active
  }

  function Completed(cleanup: seq<Cleanup>): set<Cleanup> {
    set c | c in cleanup && c.completed
  }

  lemma {:induction false} SizeOf(cleanup: seq<Cleanup>)
    requires Keyed(cleanup)
    ensures |Completed(cleanup)| == |CompletedOf(cleanup)|
  {
    if cleanup == [] {
      assert Completed(cleanup) == {};
    } else {
      var init, last := cleanup[..|cleanup| - 1], cleanup[|cleanup| - 1];
      KeyedInit(cleanup);
      SizeOf(init);
      assert forall c :: c in cleanup <==> c in init || c == last;
      assert Completed(cleanup) == Completed(init) + if last.completed then {last} else {};
    }
  }

  lemma {:induction false} FirstOnes(cleanup: seq<Cleanup>, active: set<Id>, m: nat, i: nat, j: nat)
    requires Keyed(cleanup) && i < j < |cleanup| && MayGo(cleanup[i], active) && MayGo(cleanup[j], active)
    requires m <= |Gone(CompletedOf(cleanup), active)| && cleanup[j] in Gone(CompletedOf(cleanup), active)[..m]
    ensures cleanup[i] in Gone(CompletedOf(cleanup), active)[..m]
  {
    var init, last := cleanup[..|cleanup| - 1], cleanup[|cleanup| - 1];
    var before := Gone(CompletedOf(init), active);
    var all := Gone(CompletedOf(cleanup), active);
    KeyedInit(cleanup);
    GoneSnoc(init, last, active);
    assert cleanup == init + [last];
    if m == |all| {
      MayGoMeans(cleanup, active);
    } else {
      assert m <= |before| && all[..m] == before[..m];
      MayGoMeans(init, active);
      assert last !in before;
      if j < |init| {
        FirstOnes(init, active, m, i, j);
      }
    }
  }

  lemma GoneSnoc(init: seq<Cleanup>, last: Cleanup, active: set<Id>)
    ensures Gone(CompletedOf(init + [last]), active)
            == Gone(CompletedOf(init), active) + if MayGo(last, active) then [last] else []
  {
    CompletedSnoc(init, last);
    assert (CompletedOf(init) + [last])[..|CompletedOf(init)|] == CompletedOf(init);
  }

  lemma MayGoMeans(cleanup: seq<Cleanup>, active: set<Id>)
    ensures forall c :: c in Gone(CompletedOf(cleanup), active) <==> c in cleanup && MayGo(c, active)
  {
    CompletedMeans(cleanup);
    GoneMeans(CompletedOf(cleanup), active);
  }

  /** Pruning removes completed records of guests that are gone and nothing else, an
      older one before a newer one; it removes as many as bring the completed ones down
      to 512, or as there are. */
  lemma WhatPruningRemoves(s: Store)
    requires Keyed(s.cleanup)
    ensures var t := After(s, Prune(s.cleanup, Ids(s.resources)));
            && (forall c :: c in t.cleanup ==> c in s.cleanup)
            && (forall c :: c in s.cleanup && c !in t.cleanup ==> MayGo(c, Ids(s.resources)))
            && (forall i, j :: 0 <= i < j < |s.cleanup| && s.cleanup[j] !in t.cleanup ==>
                                 !MayGo(s.cleanup[i], Ids(s.resources)) || s.cleanup[i] !in t.cleanup)
            && (|Completed(t.cleanup)| > 512 ==> forall c :: c in t.cleanup ==> !MayGo(c, Ids(s.resources)))
            && ((exists c :: c in s.cleanup && c !in t.cleanup) ==> |Completed(t.cleanup)| >= 512)
  {
    var active := Ids(s.resources);
    var victims := Victims(s.cleanup, active);
    var t := After(s, Prune(s.cleanup, active));
    PruneLeavesTheBound(s);
    PruneOnlyDrops(s);
    VictimsMean(s.cleanup, active);
    WithoutRecordsMeans(s.cleanup, victims);
    HowManyGo(s.cleanup, active);
    SizeOf(t.cleanup);
    forall i, j | 0 <= i < j < |s.cleanup| && MayGo(s.cleanup[i], active) && s.cleanup[j] !in t.cleanup
      ensures s.cleanup[i] !in t.cleanup
    {
      FirstOnes(s.cleanup, active, |victims|, i, j);
    }
  }

  lemma HowManyGo(cleanup: seq<Cleanup>, active: set<Id>)
    requires Keyed(cleanup)
    ensures var victims := Victims(cleanup, active);
            var left := |CompletedOf(WithoutRecords(cleanup, victims))|;
            && victims <= Gone(CompletedOf(cleanup), active)
            && (left > 512 ==> victims == Gone(CompletedOf(cleanup), active))
            && (victims != [] ==> left >= 512)
    ensures forall c :: c in Gone(CompletedOf(cleanup), active) <==> c in cleanup && MayGo(c, active)
  {
    var victims := Victims(cleanup, active);
    VictimsDistinct(cleanup, active);
    VictimsMean(cleanup, active);
    CompletedMeans(cleanup);
    CountLeft(cleanup, victims);
    MayGoMeans(cleanup, active);
  }

  // Reconcile -----------------------------------------------------------------------------------

  /** A reservation that was seen to be past its time fails. */
  predicate FailsIf(was: Resource, now: Resource, stale: seq<Name>) {
    if was.name in stale && (was.state == Reserved || (was.state == Provisioning && was.name.Prod?))
    then now == was.(state := Failed, revision := was.revision + 1)
    else now == was
  }

  /** A pending cleanup that was seen done is completed. */
  predicate CompletesIf(was: Cleanup, now: Cleanup, seen: set<CleanupKey>) {
    if was.key in seen && !was.completed
    then now == Cleanup(was.key, true, was.attempts + 1, was.revision + 1)
    else now == was
  }

  lemma {:induction false} AfterGiveUps(s: Store, stale: seq<Name>)
    requires forall n :: n in s.resources ==> s.resources[n].name == n
    ensures var t := After(s, GiveUps(s.resources, stale));
            && t == s.(resources := t.resources, issued := t.issued) && t.resources.Keys == s.resources.Keys
            && forall n :: n in s.resources ==> FailsIf(s.resources[n], t.resources[n], stale)
  {
    if stale != [] {
      var name := stale[|stale| - 1];
      var init := GiveUps(s.resources, stale[..|stale| - 1]);
      AfterGiveUps(s, stale[..|stale| - 1]);
      assert forall n :: n in stale <==> n in stale[..|stale| - 1] || n == name;
      if name in s.resources && GivesUp(s.resources[name]) {
        AfterSplits(s, init, [PutResource(GivenUp(s.resources[name]))]);
        AfterSingle(After(s, init), PutResource(GivenUp(s.resources[name])));
      }
    }
  }

  /** Of the first k cleanups exactly those that were seen are completed. */
  ghost predicate CompletedTo(s: Store, t: Store, k: nat, seen: set<CleanupKey>) {
    && t == s.(cleanup := t.cleanup) && |t.cleanup| == |s.cleanup| && k <= |s.cleanup|
    && (forall i :: 0 <= i < k ==> CompletesIf(s.cleanup[i], t.cleanup[i], seen))
    && (forall i :: k <= i < |s.cleanup| ==> t.cleanup[i] == s.cleanup[i])
  }

  lemma CompletedNext(s: Store, t: Store, k: nat, seen: set<CleanupKey>)
    requires Keyed(s.cleanup) && CompletedTo(s, t, k, seen) && k < |s.cleanup|
    ensures var c := s.cleanup[k];
            var next := if c.key in seen && !c.completed then Perform(t, PutCleanup(Completion(c))) else t;
            CompletedTo(s, next, k + 1, seen)
  {
    forall j | 0 <= j < k ensures t.cleanup[j].key != s.cleanup[k].key {
      assert CompletesIf(s.cleanup[j], t.cleanup[j], seen);
    }
    IndexIs(t.cleanup, s.cleanup[k].key, k);
  }

  lemma {:induction false} AfterCompletions(s: Store, k: nat, seen: set<CleanupKey>)
    requires Keyed(s.cleanup) && k <= |s.cleanup|
    ensures CompletedTo(s, After(s, Completions(s.cleanup[..k], seen)), k, seen)
  {
    if k == 0 {
      assert s.cleanup[..k] == [];
    } else {
      var c := s.cleanup[k - 1];
      var before := Completions(s.cleanup[..k - 1], seen);
      AfterCompletions(s, k - 1, seen);
      CompletionsSplit(s.cleanup, k, seen);
      CompletedNext(s, After(s, before), k - 1, seen);
      if c.key in seen && !c.completed {
        AfterSplits(s, before, [PutCleanup(Completion(c))]);
        AfterSingle(After(s, before), PutCleanup(Completion(c)));
      } else {
        assert before + [] == before;
      }
    }
  }

  /** The registry with exactly the stale reservations failed and exactly the seen
      cleanups completed. */
  ghost predicate Reconciled(s: Store, t: Store, stale: seq<Name>, seen: set<CleanupKey>) {
    && t.resources.Keys == s.resources.Keys && t.orchestration == s.orchestration && t.policy == s.policy
    && (forall n :: n in s.resources ==> FailsIf(s.resources[n], t.resources[n], stale))
    && |t.cleanup| == |s.cleanup|
    && (forall i :: 0 <= i < |s.cleanup| ==> CompletesIf(s.cleanup[i], t.cleanup[i], seen))
  }

  lemma ChangesReconcile(s: Store, stale: seq<Name>, seen: set<CleanupKey>)
    requires Inv(s)
    ensures Reconciled(s, After(s, GiveUps(s.resources, stale) + Completions(s.cleanup, seen)), stale, seen)
  {
    var gives, completions := GiveUps(s.resources, stale), Completions(s.cleanup, seen);
    var u := After(s, gives);
    AfterSplits(s, gives, completions);
    AfterGiveUps(s, stale);
    AfterCompletions(u, |u.cleanup|, seen);
    assert u.cleanup[..|u.cleanup|] == s.cleanup;
  }

  /** Reconcile is always done, and what it makes is that registry, pruned. */
  lemma WhatReconcileDoes(s: Store, stale: seq<Name>, seen: set<CleanupKey>)
    requires Inv(s)
    ensures var plan := Reconcile(s, s.policy, stale, seen);
            plan.outcome == Done
            && exists t :: Reconciled(s, t, stale, seen)
                           && After(s, plan.writes) == After(t, Prune(t.cleanup, Ids(t.resources)))
  {
    var changes := GiveUps(s.resources, stale) + Completions(s.cleanup, seen);
    var t := After(s, changes);
    ReconcileReadable(s, stale, seen);
    ChangesReconcile(s, stale, seen);
    FailingKeepsIds(s, t, stale);
    AfterSplits(s, changes, Prune(t.cleanup, Ids(s.resources)));
  }

  lemma FailingKeepsIds(s: Store, t: Store, stale: seq<Name>)
    requires t.resources.Keys == s.resources.Keys
    requires forall n :: n in s.resources ==> FailsIf(s.resources[n], t.resources[n], stale)
    ensures Ids(t.resources) == Ids(s.resources)
  {
    forall id ensures id in Ids(t.resources) <==> id in Ids(s.resources) {
      IdsMean(t.resources, id);
      IdsMean(s.resources, id);
      assert forall n :: Registered(t.resources, n, id) <==> Registered(s.resources, n, id);
    }
  }
}
