/** Production guests under an instant restore: nothing clones their disk, and the
    mark on their record follows the restore.
 */
module RegistryInstant {
  import opened Common
  import opened RegistryTypes
  import opened RegistryRules
  import opened RegistryPlans
  import opened RegistrySafety
  import opened RegistryRuns
  import opened RegistryWrites

  // Instant restores ----------------------------------------------------------------

  /** In no reachable registry does a staging guest clone the disk of a production
      guest under an instant restore, or claim one of its snapshots. */
  lemma InstantRestoreHasNoLinkedGuest(p: Policy, es: seq<Event>, n: Name, d: Name)
    requires ValidPolicy(p) && Fresh(p, es)
    requires n in Run(p, es).resources && Run(p, es).resources[n].instant.Some?
    requires d in Dependents(Run(p, es).resources, n)
    ensures Run(p, es).resources[d].backup.Some? && Run(p, es).resources[d].snapshot.None?
  {
    EveryRunKeepsTheInvariant(p, es);
    assert ValidResource(Run(p, es).resources[d], Run(p, es).policy);
  }

  predicate InstantKept(was: map<Name, Resource>, now: map<Name, Resource>, n: Name) {
    n in was && Registered(now, n, was[n].id) ==> InstantStep(was[n].instant, now[n].instant)
  }

  lemma StepKeepsInstant(s: Store, w: Write, n: Name)
    requires Inv(s) && Safe(s, w)
    ensures InstantKept(s.resources, Perform(s, w).resources, n)
  {
    if n in s.resources && s.resources[n].instant.Some? {
      assert InstantStep(s.resources[n].instant, s.resources[n].instant);
    }
  }

  predicate KeepsInstants(was: map<Name, Resource>, now: map<Name, Resource>) {
    forall n :: n in was && Registered(now, n, was[n].id) ==> now[n].instant == was[n].instant
  }

  /** Only resource writes change resources. */
  predicate WritesNoResource(writes: seq<Write>) {
    forall w :: w in writes ==> !w.PutResource?
  }

  lemma {:induction false} NoResourceWritten(s: Store, writes: seq<Write>)
    requires WritesNoResource(writes)
    ensures var t := After(s, writes);
            forall n :: n in t.resources ==> n in s.resources && t.resources[n] == s.resources[n]
  {
    if writes != [] {
      NoResourceWritten(s, writes[..|writes| - 1]);
    }
  }

  /** A command other than reconcile writes at most one resource, and only that. */
  lemma OneResourceWrite(s: Store, c: Command)
    requires !c.CReconcile?
    ensures var writes := PlanOf(s, s.policy, c).writes;
            |writes| <= 1 || WritesNoResource(writes)
  {
    EveryWriteFits(s, s.policy, c);
  }

  /** The write leaves every registered guest's mark as it is. */
  predicate LeavesMark(resources: map<Name, Resource>, w: Write) {
    w.PutResource? ==> w.record.name in resources && w.record.instant == resources[w.record.name].instant
  }

  lemma {:induction false} MarksLeft(s: Store, writes: seq<Write>)
    requires forall w :: w in writes ==> LeavesMark(s.resources, w)
    ensures KeepsInstants(s.resources, After(s, writes).resources)
  {
    if writes != [] {
      assert writes[|writes| - 1] in writes;
      MarksLeft(s, writes[..|writes| - 1]);
    }
  }

  lemma {:induction false} GiveUpsLeaveMarks(resources: map<Name, Resource>, stale: seq<Name>)
    requires forall n :: n in resources ==> resources[n].name == n
    ensures forall w :: w in GiveUps(resources, stale) ==> LeavesMark(resources, w)
  {
    if stale != [] {
      GiveUpsLeaveMarks(resources, stale[..|stale| - 1]);
    }
  }

  lemma ReconcileLeavesMarks(s: Store, stale: seq<Name>, seen: set<CleanupKey>)
    requires forall n :: n in s.resources ==> s.resources[n].name == n
    ensures forall w :: w in Reconcile(s, s.policy, stale, seen).writes ==> LeavesMark(s.resources, w)
  {
    GiveUpsLeaveMarks(s.resources, stale);
    CompletionsFit(s.cleanup, seen);
    DropsOnlyDrop(Victims(After(s, GiveUps(s.resources, stale) + Completions(s.cleanup, seen)).cleanup,
        Ids(s.resources)));
  }

  lemma ReconcileKeepsInstants(s: Store, stale: seq<Name>, seen: set<CleanupKey>, k: nat)
    requires Inv(s) && k <= |Reconcile(s, s.policy, stale, seen).writes|
    ensures KeepsInstants(s.resources, After(s, Reconcile(s, s.policy, stale, seen).writes[..k]).resources)
  {
    ReconcileLeavesMarks(s, stale, seen);
    MarksLeft(s, Reconcile(s, s.policy, stale, seen).writes[..k]);
  }

  lemma OneWriteStepsInstant(s: Store, w: Write, k: nat, n: Name)
    requires Inv(s) && SafeAll(s, [w]) && k <= 1
    ensures InstantKept(s.resources, After(s, [w][..k]).resources, n)
  {
    SelfStep(s, n);
    if k == 1 {
      SafePrefix(s, [w], 0);
      assert [w][..0] == [] && [w][..1] == [w];
      StepKeepsInstant(s, w, n);
      AfterSingle(s, w);
    } else {
      assert [w][..0] == [];
    }
  }

  lemma FewWritesStepInstant(s: Store, writes: seq<Write>, k: nat, n: Name)
    requires Inv(s) && SafeAll(s, writes) && k <= |writes| && (|writes| <= 1 || WritesNoResource(writes))
    ensures InstantKept(s.resources, After(s, writes[..k]).resources, n)
  {
    SelfStep(s, n);
    if WritesNoResource(writes) {
      NoResourceWritten(s, writes[..k]);
    } else {
      assert writes == [writes[0]];
      OneWriteStepsInstant(s, writes[0], k, n);
    }
  }

  lemma ReconcileStepsInstant(s: Store, stale: seq<Name>, seen: set<CleanupKey>, k: nat, n: Name)
    requires Inv(s) && k <= |Reconcile(s, s.policy, stale, seen).writes|
    ensures InstantKept(s.resources, After(s, Reconcile(s, s.policy, stale, seen).writes[..k]).resources, n)
  {
    ReconcileKeepsInstants(s, stale, seen, k);
    SelfStep(s, n);
  }

  lemma WritesStepInstant(s: Store, c: Command, k: nat, n: Name)
    requires Inv(s) && FreshIds(s, c) && k <= |PlanOf(s, s.policy, c).writes|
    ensures InstantKept(s.resources, After(s, PlanOf(s, s.policy, c).writes[..k]).resources, n)
  {
    match c
    case CReconcile(stale, seen) => ReconcileStepsInstant(s, stale, seen, k, n);
    case _ =>
      PlansAreSafe(s, c);
      OneResourceWrite(s, c);
      FewWritesStepInstant(s, PlanOf(s, s.policy, c).writes, k, n);
  }

  /** What one command, complete or interrupted, does to a guest's instant restore:
      its phase never goes back, its restore point stays, and the mark is not
      cleared while the guest's disk is freed. */
  lemma CommandsStepInstant(s: Store, e: Event, n: Name)
    requires Inv(s) && FreshIds(s, e.command)
    ensures InstantKept(s.resources, Step(s, e).resources, n)
  {
    var writes := PlanOf(s, s.policy, e.command).writes;
    assert writes[..|writes|] == writes;
    WritesStepInstant(s, e.command, |Reached(writes, e.diesAfter)|, n);
  }

  lemma SelfStep(s: Store, n: Name)
    ensures n in s.resources ==> InstantStep(s.resources[n].instant, s.resources[n].instant)
  {
  }

  /** The guest is registered and its freed disk waits for this restore. */
  predicate FreedFor(s: Store, n: Name, id: Id, restore: InstantRestore) {
    Registered(s.resources, n, id) && s.resources[n].instant == Some(restore) && restore.phase == Freed
  }

  predicate SwitchedNow(s: Store, n: Name) {
    n in s.resources && s.resources[n].instant.Some? && s.resources[n].instant.value.phase == Switched
  }

  /** Consecutive registries: ids are not reused, and the guest's mark goes forward. */
  predicate Follows(s: Store, t: Store, n: Name, id: Id) {
    && s.issued <= t.issued
    && (Registered(t.resources, n, id) && id in s.issued ==> Registered(s.resources, n, id))
    && InstantKept(s.resources, t.resources, n)
  }

  ghost predicate Chained(ss: seq<Store>, n: Name, id: Id) {
    forall k :: 0 < k < |ss| ==> Follows(ss[k - 1], ss[k], n, id)
  }

  lemma FollowsFreed(s: Store, t: Store, n: Name, id: Id, restore: InstantRestore)
    requires Follows(s, t, n, id) && FreedFor(s, n, id, restore) && Registered(t.resources, n, id) && !SwitchedNow(t, n)
    ensures FreedFor(t, n, id, restore)
  {
  }

  lemma {:induction false} RegisteredAlong(ss: seq<Store>, n: Name, id: Id)
    requires ss != [] && Chained(ss, n, id) && id in ss[0].issued && Registered(ss[|ss| - 1].resources, n, id)
    ensures id in ss[|ss| - 1].issued && forall s :: s in ss ==> Registered(s.resources, n, id)
  {
    IssuedAlong(ss, n, id);
    if |ss| > 1 {
      var init := ss[..|ss| - 1];
      IssuedAlong(init, n, id);
      assert Follows(ss[|ss| - 2], ss[|ss| - 1], n, id);
      RegisteredAlong(init, n, id);
      assert ss == init + [ss[|ss| - 1]];
    }
  }

  lemma {:induction false} IssuedAlong(ss: seq<Store>, n: Name, id: Id)
    requires ss != [] && Chained(ss, n, id) && id in ss[0].issued
    ensures id in ss[|ss| - 1].issued
  {
    if |ss| > 1 {
      IssuedAlong(ss[..|ss| - 1], n, id);
      assert Follows(ss[|ss| - 2], ss[|ss| - 1], n, id);
    }
  }

  lemma {:induction false} FreedAlong(ss: seq<Store>, n: Name, id: Id, restore: InstantRestore)
    requires ss != [] && Chained(ss, n, id) && FreedFor(ss[0], n, id, restore)
    requires forall s :: s in ss ==> Registered(s.resources, n, id) && !SwitchedNow(s, n)
    ensures FreedFor(ss[|ss| - 1], n, id, restore)
  {
    if |ss| > 1 {
      FreedAlong(ss[..|ss| - 1], n, id, restore);
      assert Follows(ss[|ss| - 2], ss[|ss| - 1], n, id);
      FollowsFreed(ss[|ss| - 2], ss[|ss| - 1], n, id, restore);
    }
  }

  /** The registries of a run from its i-th event on. */
  ghost function Stores(p: Policy, es: seq<Event>, i: nat): (ss: seq<Store>)
    requires i <= |es|
    ensures ss != [] && ss[0] == Run(p, es[..i]) && ss[|ss| - 1] == Run(p, es)
    decreases |es|
  {
    if i == |es| then
      assert es[..i] == es;
      [Run(p, es)]
    else
      assert es[..|es| - 1][..i] == es[..i];
      Stores(p, es[..|es| - 1], i) + [Run(p, es)]
  }

  lemma StepFollows(s: Store, e: Event, n: Name, id: Id)
    requires Inv(s) && FreshIds(s, e.command)
    ensures Follows(s, Step(s, e), n, id)
  {
    StepKeeps(s, e);
    CommandsStepInstant(s, e, n);
  }

  lemma ChainedSnoc(ss: seq<Store>, t: Store, n: Name, id: Id)
    requires ss != [] && Chained(ss, n, id) && Follows(ss[|ss| - 1], t, n, id)
    ensures Chained(ss + [t], n, id)
  {
  }

  lemma {:induction false} StoresAreChained(p: Policy, es: seq<Event>, i: nat, n: Name, id: Id)
    requires ValidPolicy(p) && Fresh(p, es) && i <= |es|
    ensures Chained(Stores(p, es, i), n, id)
    decreases |es|
  {
    if i < |es| {
      var init := es[..|es| - 1];
      StoresAreChained(p, init, i, n, id);
      EveryRunKeepsTheInvariant(p, init);
      StepFollows(Run(p, init), es[|es| - 1], n, id);
      ChainedSnoc(Stores(p, init, i), Run(p, es), n, id);
    }
  }

  /** Once a guest's disk is freed, its mark stays as it is until the phase becomes
      switched or the guest is released. */
  lemma FreedLastsUntilSwitched(p: Policy, es: seq<Event>, i: nat, n: Name, id: Id, restore: InstantRestore)
    requires ValidPolicy(p) && Fresh(p, es) && i <= |es|
    requires var ss := Stores(p, es, i);
             FreedFor(ss[0], n, id, restore) && Registered(ss[|ss| - 1].resources, n, id)
             && forall s :: s in ss ==> !SwitchedNow(s, n)
    ensures var ss := Stores(p, es, i); FreedFor(ss[|ss| - 1], n, id, restore)
  {
    StoresAreChained(p, es, i, n, id);
    FreshPrefix(p, es, i);
    EveryRunKeepsTheInvariant(p, es[..i]);
    RegisteredAlong(Stores(p, es, i), n, id);
    FreedAlong(Stores(p, es, i), n, id, restore);
  }
}
