/** Which files each registry command may write at all.
 */
module RegistryWrites {
  import opened Common
  import opened RegistryTypes
  import opened RegistryPlans

  predicate OrchestrationCommand(c: Command) {
    c.CAcquire? || c.CSetPhase? || c.CReleaseLease?
  }

  /** Most commands write at most one file. */
  predicate OneWriteCommand(c: Command) {
    !c.CReconcile? && !c.CRelease? && !c.CFinalize? && !c.CDeferCleanup?
  }

  function Orchestrated(c: Command): Option<Name> {
    match c
    case CAcquire(a) => Some(a.name)
    case CSetPhase(a) => Some(a.name)
    case CReleaseLease(name, _) => Some(name)
    case CRelease(name, _, _) => Some(name)
    case _ => None
  }

  predicate Fits(c: Command, w: Write) {
    match w
    case PutResource(r) =>
      ((OneWriteCommand(c) && !OrchestrationCommand(c) && !c.CUpdateSlots?) || c.CReconcile?)
      && (c.CAllocateStaging? ==> r.name.Stage?)
    case DropResource(name) => (c.CRelease? && c.name == name) || (c.CFinalize? && c.name == name && name.Stage?)
    case PutCleanup(_) => c.CDeferCleanup? || c.CReconcile?
    case DropCleanup(_) => !OneWriteCommand(c)
    case PutOrchestration(name, _) => OrchestrationCommand(c) && Orchestrated(c) == Some(name)
    case DropOrchestration(name) => c.CRelease? && c.name == name
    case PutPolicy(_) => c.CUpdateSlots?
  }

  predicate AllFit(c: Command, writes: seq<Write>) {
    forall w :: w in writes ==> Fits(c, w)
  }

  /** A plan whose writes are all of the command's kind, and not more than it may make. */
  predicate Fitting(c: Command, plan: Plan) {
    AllFit(c, plan.writes) && (OneWriteCommand(c) ==> |plan.writes| <= 1)
  }

  lemma {:induction false} GiveUpsFit(resources: map<Name, Resource>, stale: seq<Name>)
    ensures forall w :: w in GiveUps(resources, stale) ==> w.PutResource?
  {
    if stale != [] {
      GiveUpsFit(resources, stale[..|stale| - 1]);
    }
  }

  lemma {:induction false} CompletionsFit(cleanup: seq<Cleanup>, seen: set<CleanupKey>)
    ensures forall w :: w in Completions(cleanup, seen) ==> w.PutCleanup?
  {
    if cleanup != [] {
      CompletionsFit(cleanup[..|cleanup| - 1], seen);
    }
  }

  lemma DropsOnlyDrop(records: seq<Cleanup>)
    ensures forall w :: w in Drops(records) ==> w.DropCleanup?
  {
  }

  lemma ReconcileFits(s: Store, q: Policy, stale: seq<Name>, seen: set<CleanupKey>)
    ensures Fitting(CReconcile(stale, seen), Reconcile(s, q, stale, seen))
  {
    GiveUpsFit(s.resources, stale);
    CompletionsFit(s.cleanup, seen);
    DropsOnlyDrop(Victims(After(s, GiveUps(s.resources, stale) + Completions(s.cleanup, seen)).cleanup,
        Ids(s.resources)));
  }

  lemma ReleaseFits(s: Store, name: Name, force: bool, now: real)
    ensures Fitting(CRelease(name, force, now), Release(s, name, force, now))
  {
    if name in s.resources {
      DropsOnlyDrop(Victims(s.cleanup, Ids(s.resources) - {s.resources[name].id}));
    }
  }

  lemma FinalizeFits(s: Store, q: Policy, name: Name, id: Id)
    ensures Fitting(CFinalize(name, id), Finalize(s, q, name, id))
  {
    DropsOnlyDrop(Victims(s.cleanup, Ids(s.resources)));
    DropsOnlyDrop(Victims(s.cleanup, Ids(s.resources) - {id}));
  }

  lemma DeferFits(s: Store, q: Policy, a: DeferArgs)
    ensures Fitting(CDeferCleanup(a), DeferCleanup(s, q, a))
  {
    DropsOnlyDrop(Victims(s.cleanup, Ids(s.resources)));
  }

  lemma UpdateSlotsFits(s: Store, q: Policy, slots: Slots)
    ensures Fitting(CUpdateSlots(slots), UpdateSlots(s, slots))
  {
  }

  lemma AcquireFits(s: Store, a: AcquireArgs)
    ensures Fitting(CAcquire(a), Acquire(s, a))
  {
  }

  lemma SetPhaseFits(s: Store, a: PhaseArgs)
    ensures Fitting(CSetPhase(a), SetPhase(s, a))
  {
  }

  lemma ReleaseLeaseFits(s: Store, name: Name, nonce: string)
    ensures Fitting(CReleaseLease(name, nonce), ReleaseLease(s, name, nonce))
  {
  }

  lemma AllocateProdFits(s: Store, q: Policy, a: ProdArgs)
    ensures Fitting(CAllocateProd(a), AllocateProd(s, q, a))
  {
  }

  lemma AllocateStagingFits(s: Store, q: Policy, a: StagingArgs)
    ensures Fitting(CAllocateStaging(a), AllocateStaging(s, q, a))
  {
  }

  /** At most one file is replaced, and it is a guest's record. */
  predicate OneRecord(plan: Plan) {
    plan.writes == [] || (|plan.writes| == 1 && plan.writes[0].PutResource?)
  }

  lemma OneRecordFits(c: Command, plan: Plan)
    requires OneRecord(plan) && (c.CSnapshotIntent? || c.CRecordSnapshot? || c.CShareSnapshot?)
    ensures Fitting(c, plan)
  {
  }

  lemma SnapshotIntentFits(s: Store, q: Policy, a: IntentArgs)
    ensures Fitting(CSnapshotIntent(a), SnapshotIntent(s, q, a))
  {
    assert OneRecord(SnapshotIntent(s, q, a));
    OneRecordFits(CSnapshotIntent(a), SnapshotIntent(s, q, a));
  }

  lemma RecordSnapshotFits(s: Store, q: Policy, a: RecordArgs)
    ensures Fitting(CRecordSnapshot(a), RecordSnapshot(s, q, a))
  {
    assert OneRecord(RecordSnapshot(s, q, a));
    OneRecordFits(CRecordSnapshot(a), RecordSnapshot(s, q, a));
  }

  lemma ShareSnapshotFits(s: Store, q: Policy, a: ShareArgs)
    ensures Fitting(CShareSnapshot(a), ShareSnapshot(s, q, a))
  {
    assert OneRecord(ShareSnapshot(s, q, a));
    OneRecordFits(CShareSnapshot(a), ShareSnapshot(s, q, a));
  }

  lemma RecordOwnerFits(s: Store, q: Policy, a: OwnerArgs)
    ensures Fitting(CRecordOwner(a), RecordOwner(s, q, a))
  {
  }

  lemma UpdateFits(s: Store, q: Policy, name: Name, a: UpdateArgs)
    ensures Fitting(CUpdate(name, a), Update(s, q, name, a))
  {
  }

  /** A command writes only files of its own kind. */
  lemma EveryWriteFits(s: Store, q: Policy, c: Command)
    ensures Fitting(c, PlanOf(s, q, c))
  {
    match c
    case CAllocateProd(a) => AllocateProdFits(s, q, a);
    case CAllocateStaging(a) => AllocateStagingFits(s, q, a);
    case CUpdateSlots(slots) => UpdateSlotsFits(s, q, slots);
    case CSnapshotIntent(a) => SnapshotIntentFits(s, q, a);
    case CRecordSnapshot(a) => RecordSnapshotFits(s, q, a);
    case CShareSnapshot(a) => ShareSnapshotFits(s, q, a);
    case CUpdate(name, a) => UpdateFits(s, q, name, a);
    case CRecordOwner(a) => RecordOwnerFits(s, q, a);
    case CAcquire(a) => AcquireFits(s, a);
    case CSetPhase(a) => SetPhaseFits(s, a);
    case CReleaseLease(name, nonce) => ReleaseLeaseFits(s, name, nonce);
    case CRelease(name, force, now) => ReleaseFits(s, name, force, now);
    case CDeferCleanup(a) => DeferFits(s, q, a);
    case CFinalize(name, id) => FinalizeFits(s, q, name, id);
    case CReconcile(stale, seen) => ReconcileFits(s, q, stale, seen);
  }
}
