/** Every write that a registry command performs is safe, so every reachable
    registry keeps the invariant, also when processes die between two writes.
 */
module RegistryRuns {
  import opened Common
  import opened RegistryTypes
  import opened RegistryRules
  import opened RegistryPlans
  import opened RegistrySafety

  // Lists of writes -----------------------------------------------------------------

  /** Each write is safe when its turn comes. */
  ghost predicate SafeAll(s: Store, writes: seq<Write>) {
    writes == [] || (SafeAll(s, writes[..|writes| - 1]) && Safe(After(s, writes[..|writes| - 1]), writes[|writes| - 1]))
  }

  lemma {:induction false} AfterSplits(s: Store, a: seq<Write>, b: seq<Write>)
    ensures After(s, a + b) == After(After(s, a), b)
  {
    if b == [] {
      assert a + b == a;
    } else {
      AfterSplits(s, a, b[..|b| - 1]);
      assert (a + b)[..|a + b| - 1] == a + b[..|b| - 1];
    }
  }

  lemma {:induction false} SafeAllAppend(s: Store, a: seq<Write>, b: seq<Write>)
    requires SafeAll(s, a) && SafeAll(After(s, a), b)
    ensures SafeAll(s, a + b)
  {
    if b == [] {
      assert a + b == a;
    } else {
      SafeAllAppend(s, a, b[..|b| - 1]);
      AfterSplits(s, a, b[..|b| - 1]);
      assert (a + b)[..|a + b| - 1] == a + b[..|b| - 1];
    }
  }

  lemma SafeOne(s: Store, w: Write)
    requires Safe(s, w)
    ensures SafeAll(s, [w])
  {
    assert [w][..0] == [];
  }

  lemma AfterSingle(s: Store, w: Write)
    ensures After(s, [w]) == Perform(s, w)
  {
    assert [w][..0] == [];
  }

  lemma {:induction false} SafePrefix(s: Store, writes: seq<Write>, k: nat)
    requires SafeAll(s, writes) && k <= |writes|
    ensures SafeAll(s, writes[..k])
    ensures k < |writes| ==> Safe(After(s, writes[..k]), writes[k])
  {
    if k == |writes| {
      assert writes[..k] == writes;
    } else if k < |writes| - 1 {
      SafePrefix(s, writes[..|writes| - 1], k);
      assert writes[..|writes| - 1][..k] == writes[..k];
    }
  }

  lemma {:induction false} SafeAllKeeps(s: Store, writes: seq<Write>)
    requires Inv(s) && SafeAll(s, writes)
    ensures Inv(After(s, writes)) && Later(s, After(s, writes))
  {
    if writes == [] {
      LaterIsReflexive(s);
    } else {
      var init := writes[..|writes| - 1];
      var last := writes[|writes| - 1];
      SafeAllKeeps(s, init);
      SafeKeepsInv(After(s, init), last);
      SafeIsLater(After(s, init), last);
      LaterIsTransitive(s, After(s, init), After(s, writes));
    }
  }

  // Pruning -----------------------------------------------------------------------------

  lemma {:induction false} CompletedMeans(cleanup: seq<Cleanup>)
    ensures forall c :: c in CompletedOf(cleanup) <==> c in cleanup && c.completed
  {
    if cleanup != [] {
      CompletedMeans(cleanup[..|cleanup| - 1]);
    }
  }

  lemma {:induction false} GoneMeans(cleanup: seq<Cleanup>, active: set<Id>)
    ensures forall c :: c in Gone(cleanup, active) <==> c in cleanup && c.key.resourceId !in active
  {
    if cleanup != [] {
      GoneMeans(cleanup[..|cleanup| - 1], active);
    }
  }

  ghost predicate Prunable(s: Store, records: seq<Cleanup>) {
    forall c :: c in records ==> c in s.cleanup && c.completed && c.key.resourceId !in Ids(s.resources)
  }

  lemma SameKeySameRecord(cleanup: seq<Cleanup>, c: Cleanup, d: Cleanup)
    requires Keyed(cleanup) && c in cleanup && d in cleanup && c.key == d.key
    ensures c == d
  {
    var i :| 0 <= i < |cleanup| && cleanup[i] == c;
    var j :| 0 <= j < |cleanup| && cleanup[j] == d;
  }

  lemma DropsInit(records: seq<Cleanup>)
    requires records != []
    ensures var drops := Drops(records);
            drops[..|drops| - 1] == Drops(records[..|records| - 1])
                && drops[|drops| - 1] == DropCleanup(records[|records| - 1].key)
  {
  }

  /** Dropping records changes only the list of records, which shrinks. */
  lemma {:induction false} AfterDrops(s: Store, records: seq<Cleanup>)
    requires Keyed(s.cleanup)
    ensures var t := After(s, Drops(records));
            t == s.(cleanup := t.cleanup) && Keyed(t.cleanup) && forall c :: c in t.cleanup ==> c in s.cleanup
  {
    if records != [] {
      DropsInit(records);
      AfterDrops(s, records[..|records| - 1]);
      DropFromMeans(After(s, Drops(records[..|records| - 1])).cleanup, records[|records| - 1].key);
    }
  }

  lemma {:induction false} DropsAreSafe(s: Store, records: seq<Cleanup>)
    requires Keyed(s.cleanup) && Prunable(s, records)
    ensures SafeAll(s, Drops(records))
  {
    if records != [] {
      var last := records[|records| - 1];
      DropsInit(records);
      DropsAreSafe(s, records[..|records| - 1]);
      AfterDrops(s, records[..|records| - 1]);
      var t := After(s, Drops(records[..|records| - 1]));
      forall c | c in t.cleanup && c.key == last.key ensures c.completed && c.key.resourceId !in Ids(t.resources) {
        SameKeySameRecord(s.cleanup, c, last);
      }
    }
  }

  lemma VictimsMean(cleanup: seq<Cleanup>, active: set<Id>)
    ensures forall c :: c in Victims(cleanup, active) ==> c in cleanup && c.completed && c.key.resourceId !in active
  {
    CompletedMeans(cleanup);
    GoneMeans(CompletedOf(cleanup), active);
  }

  lemma PruneIsSafe(s: Store)
    requires Keyed(s.cleanup)
    ensures SafeAll(s, Prune(s.cleanup, Ids(s.resources)))
  {
    VictimsMean(s.cleanup, Ids(s.resources));
    DropsAreSafe(s, Victims(s.cleanup, Ids(s.resources)));
  }

  // Commands that replace one record ----------------------------------------------------------

  /** The ids a command hands out are new. */
  predicate FreshIds(s: Store, c: Command) {
    match c
    case CAllocateProd(a) => a.newId !in s.issued
    case CAllocateStaging(a) => a.newId !in s.issued
    case _ => true
  }

  lemma AllocateProdIsSafe(s: Store, a: ProdArgs)
    requires Inv(s) && a.newId !in s.issued
    ensures SafeAll(s, AllocateProd(s, s.policy, a).writes)
  {
    var index := ProdIndex(a, s.resources.Keys, s.policy);
    if ProdArgsOk(a, s.policy) && index.Some? {
      var r := NewProd(a, index.value, s.policy);
      if Replace(s, s.policy, r) != REFUSED {
        SafeOne(s, PutResource(r));
      }
    }
  }

  lemma AllocateStagingIsSafe(s: Store, a: StagingArgs)
    requires Inv(s) && a.newId !in s.issued
    ensures SafeAll(s, AllocateStaging(s, s.policy, a).writes)
  {
    if a.source in s.resources && CanStage(s.resources[a.source], a) {
      var k := FirstFreeStage(s.resources.Keys, a.source.n, 1, s.policy.slots.maxStaging);
      if k.Some? {
        var r := NewStaging(a, k.value, s.resources[a.source], s.policy);
        assert s.resources[a.source].name == a.source;
        if Replace(s, s.policy, r) != REFUSED {
          SafeOne(s, PutResource(r));
        }
      }
    }
  }

  lemma ReplacementIsSafe(s: Store, name: Name, r: Resource)
    requires Inv(s) && name in s.resources && SafeReplacement(s, s.resources[name], r)
    ensures SafeAll(s, Replace(s, s.policy, r).writes)
  {
    if Replace(s, s.policy, r) != REFUSED {
      SafeOne(s, PutResource(r));
    }
  }

  lemma SnapshotIntentIsSafe(s: Store, a: IntentArgs)
    requires Inv(s)
    ensures SafeAll(s, SnapshotIntent(s, s.policy, a).writes)
  {
    if StagedFrom(s, a.name) {
      var cur := s.resources[a.name];
      ReplacementIsSafe(s, a.name, Revised(cur.(snapshot := Some(IntentSnapshot(a, SourceOf(a.name))))));
    }
  }

  lemma RecordSnapshotIsSafe(s: Store, a: RecordArgs)
    requires Inv(s)
    ensures SafeAll(s, RecordSnapshot(s, s.policy, a).writes)
  {
    var plan := RecordSnapshot(s, s.policy, a);
    if plan.writes != [] {
      ReplacementIsSafe(s, a.name, plan.writes[0].record);
    }
  }

  lemma ShareSnapshotIsSafe(s: Store, a: ShareArgs)
    requires Inv(s)
    ensures SafeAll(s, ShareSnapshot(s, s.policy, a).writes)
  {
    var plan := ShareSnapshot(s, s.policy, a);
    if plan.writes != [] {
      ReplacementIsSafe(s, a.name, plan.writes[0].record);
    }
  }

  lemma RecordOwnerIsSafe(s: Store, a: OwnerArgs)
    requires Inv(s)
    ensures SafeAll(s, RecordOwner(s, s.policy, a).writes)
  {
    var plan := RecordOwner(s, s.policy, a);
    if plan.writes != [] {
      ReplacementIsSafe(s, a.name, plan.writes[0].record);
    }
  }

  lemma UpdateIsSafe(s: Store, name: Name, a: UpdateArgs)
    requires Inv(s)
    ensures SafeAll(s, Update(s, s.policy, name, a).writes)
  {
    var plan := Update(s, s.policy, name, a);
    if plan.writes != [] {
      var cur := s.resources[name];
      UpdateStepsInstant(cur, a, ProdLinked(s, name));
      ReplacementIsSafe(s, name, Updated(cur, a));
    }
  }

  lemma UpdateStepsInstant(cur: Resource, a: UpdateArgs, prodLinked: bool)
    requires AcceptsInstant(cur, a, prodLinked)
    ensures InstantStep(cur.instant, NewInstant(cur, a))
    ensures cur.instant.None? && NewInstant(cur, a).Some? ==> !prodLinked
  {
  }

  lemma AcquireIsSafe(s: Store, a: AcquireArgs)
    requires Inv(s)
    ensures SafeAll(s, Acquire(s, a).writes)
  {
    var plan := Acquire(s, a);
    if plan.writes != [] {
      assert SafeOrchestration(s, a.name, plan.writes[0].orchestration);
      SafeOne(s, plan.writes[0]);
    }
  }

  lemma SetPhaseIsSafe(s: Store, a: PhaseArgs)
    requires Inv(s)
    ensures SafeAll(s, SetPhase(s, a).writes)
  {
    var plan := SetPhase(s, a);
    if plan.writes != [] {
      assert SafeOrchestration(s, a.name, plan.writes[0].orchestration);
      SafeOne(s, plan.writes[0]);
    }
  }

  lemma ReleaseLeaseIsSafe(s: Store, name: Name, nonce: string)
    requires Inv(s)
    ensures SafeAll(s, ReleaseLease(s, name, nonce).writes)
  {
    var plan := ReleaseLease(s, name, nonce);
    if plan.writes != [] {
      assert SafeOrchestration(s, name, plan.writes[0].orchestration);
      SafeOne(s, plan.writes[0]);
    }
  }

  // Commands that write more than one file -----------------------------------------------------

  lemma IdsWithout(resources: map<Name, Resource>, name: Name)
    requires UniqueIds(resources) && name in resources
    ensures Ids(resources - {name}) == Ids(resources) - {resources[name].id}
  {
    forall id | id in Ids(resources) && id != resources[name].id ensures id in Ids(resources - {name}) {
      var n :| n in resources && resources[n].id == id;
      assert n in resources - {name};
    }
    forall id | id in Ids(resources - {name}) ensures id in Ids(resources) && id != resources[name].id {
      var n :| n in resources - {name} && (resources - {name})[n].id == id;
      assert n in resources && resources[n].id == id;
    }
  }

  /** Dropping a guest, its orchestration record, and then pruning. */
  lemma DropAndPruneIsSafe(s: Store, name: Name)
    requires Inv(s) && Safe(s, DropResource(name))
    ensures var prune := Prune(s.cleanup, Ids(s.resources) - {s.resources[name].id});
            SafeAll(s, [DropResource(name)] + prune)
            && SafeAll(s, [DropResource(name)] + [DropOrchestration(name)] + prune)
  {
    var t := Perform(s, DropResource(name));
    var u := Perform(t, DropOrchestration(name));
    SafeOne(s, DropResource(name));
    SafeOne(t, DropOrchestration(name));
    AfterSingle(s, DropResource(name));
    AfterSingle(t, DropOrchestration(name));
    SafeAllAppend(s, [DropResource(name)], [DropOrchestration(name)]);
    AfterSplits(s, [DropResource(name)], [DropOrchestration(name)]);
    IdsWithout(s.resources, name);
    PruneIsSafe(t);
    PruneIsSafe(u);
    SafeAllAppend(s, [DropResource(name)], Prune(t.cleanup, Ids(t.resources)));
    SafeAllAppend(s, [DropResource(name)] + [DropOrchestration(name)], Prune(u.cleanup, Ids(u.resources)));
  }

  lemma ReleaseIsSafe(s: Store, name: Name, force: bool, now: real)
    requires Inv(s)
    ensures SafeAll(s, Release(s, name, force, now).writes)
  {
    if MayRelease(s, name, now) {
      DropAndPruneIsSafe(s, name);
      assert [DropResource(name)] + [] == [DropResource(name)];
    }
  }

  lemma FinalizeIsSafe(s: Store, name: Name, id: Id)
    requires Inv(s)
    ensures SafeAll(s, Finalize(s, s.policy, name, id).writes)
  {
    if name !in s.resources {
      PruneIsSafe(s);
    } else if name.Stage? && s.resources[name].id == id && !PendingFor(s.cleanup, id) {
      assert Dependents(s.resources, name) == {};
      DropAndPruneIsSafe(s, name);
    }
  }

  lemma DeferIsSafe(s: Store, a: DeferArgs)
    requires Inv(s)
    ensures SafeAll(s, DeferCleanup(s, s.policy, a).writes)
  {
    PruneIsSafe(s);
    if a.resource in s.resources {
      var key := CleanupKey(a.resource, s.resources[a.resource].id, a.node, a.action, a.target);
      var drops := Prune(s.cleanup, Ids(s.resources));
      if !Recorded(s.cleanup, key) {
        PruneOnlyDrops(s);
        var t := After(s, drops);
        RecordedMeans(s.cleanup, key);
        RecordedMeans(t.cleanup, key);
        SafeOne(t, PutCleanup(Cleanup(key, false, 0, 1)));
        SafeAllAppend(s, drops, [PutCleanup(Cleanup(key, false, 0, 1))]);
      }
    }
  }

  lemma PruneOnlyDrops(s: Store)
    requires Keyed(s.cleanup)
    ensures var t := After(s, Prune(s.cleanup, Ids(s.resources)));
            t == s.(cleanup := t.cleanup) && Keyed(t.cleanup) && forall c :: c in t.cleanup ==> c in s.cleanup
  {
    AfterDrops(s, Victims(s.cleanup, Ids(s.resources)));
  }

  // Reconcile -----------------------------------------------------------------------------------

  /** Some reservations of the first were given up in the second. */
  ghost predicate SomeGivenUp(was: map<Name, Resource>, now: map<Name, Resource>) {
    && was.Keys == now.Keys
    && (forall n :: n in was ==> now[n] == was[n] || (GivesUp(was[n]) && now[n] == GivenUp(was[n])))
  }

  /** Only a staging guest without a verified snapshot looks at its own state, and
      having failed is among the states it may be in. */
  lemma GivingUpKeepsPairs(a: Resource, b: Resource, a': Resource, b': Resource)
    requires Compatible(a, b) && (a' == a || a' == GivenUp(a)) && (b' == b || b' == GivenUp(b))
    ensures Compatible(a', b')
  {
    assert Domains(a') == Domains(a) && Domains(b') == Domains(b);
  }

  lemma GivingUpKeepsLinks(was: map<Name, Resource>, now: map<Name, Resource>, n: Name)
    requires SomeGivenUp(was, now) && n in was && Linked(was, was[n])
    ensures Linked(now, now[n])
  {
  }

  lemma GivingUpKeepsConsistent(was: map<Name, Resource>, now: map<Name, Resource>)
    requires Consistent(was) && SomeGivenUp(was, now)
    ensures Consistent(now)
  {
    forall a, b | a in now && b in now && a != b ensures Compatible(now[a], now[b]) {
      assert a in was && b in was;
      GivingUpKeepsPairs(was[a], was[b], now[a], now[b]);
    }
    forall n | n in now ensures Linked(now, now[n]) {
      assert n in was;
      GivingUpKeepsLinks(was, now, n);
    }
  }

  lemma FailedIsValid(r: Resource, p: Policy)
    requires ValidResource(r, p)
    ensures ValidResource(GivenUp(r), p)
  {
  }

  lemma GivingUpIsSafe(was: map<Name, Resource>, t: Store, name: Name)
    requires Consistent(was) && SomeGivenUp(was, t.resources) && name in was && was[name].name == name
    requires GivesUp(was[name]) && ValidResource(GivenUp(was[name]), t.policy)
    ensures Safe(t, PutResource(GivenUp(was[name])))
    ensures SomeGivenUp(was, t.resources[name := GivenUp(was[name])])
  {
    GivingUpKeepsConsistent(was, t.resources[name := GivenUp(was[name])]);
  }

  /** The store after some give-ups differs only in those records. */
  ghost predicate AfterGivingUp(s: Store, t: Store) {
    SomeGivenUp(s.resources, t.resources) && t == s.(resources := t.resources, issued := t.issued)
  }

  lemma GiveUpOne(s: Store, t: Store, name: Name)
    requires Readable(s) && AfterGivingUp(s, t) && name in s.resources && GivesUp(s.resources[name])
    ensures SafeAll(t, [PutResource(GivenUp(s.resources[name]))])
    ensures AfterGivingUp(s, After(t, [PutResource(GivenUp(s.resources[name]))]))
  {
    var w := PutResource(GivenUp(s.resources[name]));
    FailedIsValid(s.resources[name], s.policy);
    GivingUpIsSafe(s.resources, t, name);
    SafeOne(t, w);
    AfterSingle(t, w);
  }

  lemma {:induction false} GiveUpsAreSafe(s: Store, stale: seq<Name>)
    requires Readable(s)
    ensures SafeAll(s, GiveUps(s.resources, stale)) && AfterGivingUp(s, After(s, GiveUps(s.resources, stale)))
  {
    if stale != [] {
      var init := GiveUps(s.resources, stale[..|stale| - 1]);
      var name := stale[|stale| - 1];
      GiveUpsAreSafe(s, stale[..|stale| - 1]);
      if name in s.resources && GivesUp(s.resources[name]) {
        var w := PutResource(GivenUp(s.resources[name]));
        GiveUpOne(s, After(s, init), name);
        SafeAllAppend(s, init, [w]);
        AfterSplits(s, init, [w]);
      }
    }
  }

  function KeySet(cleanup: seq<Cleanup>): set<CleanupKey> {
    set c | c in cleanup :: c.key
  }

  /** The store after some completions differs only in the records of the same keys. */
  ghost predicate AfterCompleting(s: Store, t: Store) {
    Keyed(t.cleanup) && KeySet(t.cleanup) == KeySet(s.cleanup) && t == s.(cleanup := t.cleanup)
  }

  lemma PutInKeepsKeys(cleanup: seq<Cleanup>, c: Cleanup)
    requires Keyed(cleanup) && c.key in KeySet(cleanup)
    ensures Recorded(cleanup, c.key) && Keyed(PutIn(cleanup, c)) && KeySet(PutIn(cleanup, c)) == KeySet(cleanup)
  {
    RecordedMeans(cleanup, c.key);
    PutInMeans(cleanup, c);
    forall key | key in KeySet(cleanup) ensures key in KeySet(PutIn(cleanup, c)) {
      var x :| x in cleanup && x.key == key;
      assert x.key != c.key ==> x in PutIn(cleanup, c);
      assert c in PutIn(cleanup, c);
    }
    forall key | key in KeySet(PutIn(cleanup, c)) ensures key in KeySet(cleanup) {
      var x :| x in PutIn(cleanup, c) && x.key == key;
      assert x == c || x in cleanup;
    }
  }

  lemma CompleteOne(s: Store, t: Store, c: Cleanup)
    requires AfterCompleting(s, t) && c.key in KeySet(s.cleanup) && c.completed
    ensures SafeAll(t, [PutCleanup(c)]) && AfterCompleting(s, After(t, [PutCleanup(c)]))
  {
    PutInKeepsKeys(t.cleanup, c);
    SafeOne(t, PutCleanup(c));
    AfterSingle(t, PutCleanup(c));
  }

  lemma CompleteNext(s: Store, before: seq<Write>, c: Cleanup)
    requires SafeAll(s, before) && AfterCompleting(s, After(s, before)) && c.key in KeySet(s.cleanup) && c.completed
    ensures SafeAll(s, before + [PutCleanup(c)]) && AfterCompleting(s, After(s, before + [PutCleanup(c)]))
  {
    CompleteOne(s, After(s, before), c);
    SafeAllAppend(s, before, [PutCleanup(c)]);
    AfterSplits(s, before, [PutCleanup(c)]);
  }

  lemma KeyOf(cleanup: seq<Cleanup>, i: nat)
    requires i < |cleanup|
    ensures cleanup[i].key in KeySet(cleanup)
  {
    assert cleanup[i] in cleanup;
  }

  lemma CompletionsSplit(cleanup: seq<Cleanup>, k: nat, seen: set<CleanupKey>)
    requires 0 < k <= |cleanup|
    ensures var c := cleanup[k - 1];
            Completions(cleanup[..k], seen)
            == Completions(cleanup[..k - 1], seen)
               + if c.key in seen && !c.completed then [PutCleanup(Completion(c))] else []
  {
    assert cleanup[..k][..k - 1] == cleanup[..k - 1];
  }

  lemma {:induction false} CompletionsAreSafe(s: Store, k: nat, seen: set<CleanupKey>)
    requires Keyed(s.cleanup) && k <= |s.cleanup|
    ensures SafeAll(s, Completions(s.cleanup[..k], seen))
            && AfterCompleting(s, After(s, Completions(s.cleanup[..k], seen)))
  {
    if k == 0 {
      assert s.cleanup[..k] == [];
    } else {
      var c := s.cleanup[k - 1];
      var before := Completions(s.cleanup[..k - 1], seen);
      CompletionsAreSafe(s, k - 1, seen);
      CompletionsSplit(s.cleanup, k, seen);
      if c.key in seen && !c.completed {
        KeyOf(s.cleanup, k - 1);
        CompleteNext(s, before, Completion(c));
      } else {
        assert before + [] == before;
      }
    }
  }

  lemma ChangesAreSafe(s: Store, stale: seq<Name>, seen: set<CleanupKey>)
    requires Inv(s)
    ensures var changes := GiveUps(s.resources, stale) + Completions(s.cleanup, seen);
            SafeAll(s, changes) && Keyed(After(s, changes).cleanup) && After(s, changes).policy == s.policy
            && SomeGivenUp(s.resources, After(s, changes).resources)
  {
    var gives := GiveUps(s.resources, stale);
    var completions := Completions(s.cleanup, seen);
    GiveUpsAreSafe(s, stale);
    var t := After(s, gives);
    assert t.cleanup[..|t.cleanup|] == s.cleanup;
    CompletionsAreSafe(t, |t.cleanup|, seen);
    SafeAllAppend(s, gives, completions);
    AfterSplits(s, gives, completions);
  }

  lemma ReconcileIsSafe(s: Store, stale: seq<Name>, seen: set<CleanupKey>)
    requires Inv(s)
    ensures SafeAll(s, Reconcile(s, s.policy, stale, seen).writes)
  {
    var changes := GiveUps(s.resources, stale) + Completions(s.cleanup, seen);
    ChangesAreSafe(s, stale, seen);
    var u := After(s, changes);
    SameIds(s.resources, u.resources);
    PruneIsSafe(u);
    SafeAllAppend(s, changes, Prune(u.cleanup, Ids(u.resources)));
  }

  /** The registry that reconcile validates before it writes is always valid. */
  lemma ReconcileReadable(s: Store, stale: seq<Name>, seen: set<CleanupKey>)
    requires Inv(s)
    ensures Inv(After(s, GiveUps(s.resources, stale) + Completions(s.cleanup, seen)))
    ensures After(s, GiveUps(s.resources, stale) + Completions(s.cleanup, seen)).policy == s.policy
  {
    var gives := GiveUps(s.resources, stale);
    var completions := Completions(s.cleanup, seen);
    ChangesAreSafe(s, stale, seen);
    SafeAllKeeps(s, gives + completions);
  }

  lemma SameIds(was: map<Name, Resource>, now: map<Name, Resource>)
    requires SomeGivenUp(was, now)
    ensures Ids(now) == Ids(was)
  {
    forall n | n in was ensures was[n].id == now[n].id && n in now {
    }
    forall id | id in Ids(now) ensures id in Ids(was) {
      var n :| n in now && now[n].id == id;
      assert n in was;
    }
  }

  // Every command and every run -----------------------------------------------------------------------

  /** Whatever a command writes, each single write is safe when it is performed. */
  lemma PlansAreSafe(s: Store, c: Command)
    requires Inv(s) && FreshIds(s, c)
    ensures SafeAll(s, PlanOf(s, s.policy, c).writes)
  {
    match c
    case CAllocateProd(a) => AllocateProdIsSafe(s, a);
    case CAllocateStaging(a) => AllocateStagingIsSafe(s, a);
    case CUpdateSlots(slots) =>
      if UpdateSlots(s, slots).writes != [] {
        SafeOne(s, UpdateSlots(s, slots).writes[0]);
      }
    case CSnapshotIntent(a) => SnapshotIntentIsSafe(s, a);
    case CRecordSnapshot(a) => RecordSnapshotIsSafe(s, a);
    case CShareSnapshot(a) => ShareSnapshotIsSafe(s, a);
    case CUpdate(name, a) => UpdateIsSafe(s, name, a);
    case CRecordOwner(a) => RecordOwnerIsSafe(s, a);
    case CAcquire(a) => AcquireIsSafe(s, a);
    case CSetPhase(a) => SetPhaseIsSafe(s, a);
    case CReleaseLease(name, nonce) => ReleaseLeaseIsSafe(s, name, nonce);
    case CRelease(name, force, now) => ReleaseIsSafe(s, name, force, now);
    case CDeferCleanup(a) => DeferIsSafe(s, a);
    case CFinalize(name, id) => FinalizeIsSafe(s, name, id);
    case CReconcile(stale, seen) => ReconcileIsSafe(s, stale, seen);
  }

  /** A command that ran to its end, or whose process died after some writes. */
  datatype Event = Event(command: Command, diesAfter: Option<nat>)

  /** The writes that were performed. */
  function Reached(writes: seq<Write>, diesAfter: Option<nat>): seq<Write> {
    if diesAfter.Some? && diesAfter.value < |writes| then writes[..diesAfter.value] else writes
  }

  ghost function Step(s: Store, e: Event): Store {
    After(s, Reached(PlanOf(s, s.policy, e.command).writes, e.diesAfter))
  }

  function Initial(p: Policy): Store {
    Store(p, map[], [], map[], {})
  }

  ghost function Run(p: Policy, es: seq<Event>): Store {
    if es == [] then Initial(p) else Step(Run(p, es[..|es| - 1]), es[|es| - 1])
  }

  /** Every allocation of the run hands out a new id. */
  ghost predicate Fresh(p: Policy, es: seq<Event>) {
    es == [] || (Fresh(p, es[..|es| - 1]) && FreshIds(Run(p, es[..|es| - 1]), es[|es| - 1].command))
  }

  lemma {:induction false} FreshPrefix(p: Policy, es: seq<Event>, i: nat)
    requires Fresh(p, es) && i <= |es|
    ensures Fresh(p, es[..i])
  {
    if i == |es| {
      assert es[..i] == es;
    } else {
      FreshPrefix(p, es[..|es| - 1], i);
      assert es[..|es| - 1][..i] == es[..i];
    }
  }

  lemma StepKeeps(s: Store, e: Event)
    requires Inv(s) && FreshIds(s, e.command)
    ensures Inv(Step(s, e)) && Later(s, Step(s, e))
  {
    var writes := PlanOf(s, s.policy, e.command).writes;
    PlansAreSafe(s, e.command);
    if e.diesAfter.Some? && e.diesAfter.value < |writes| {
      SafePrefix(s, writes, e.diesAfter.value);
      SafeAllKeeps(s, writes[..e.diesAfter.value]);
    } else {
      SafeAllKeeps(s, writes);
    }
  }

  /** In every reachable registry: every record is well formed and fits the others,
      ids are unique, no guest under an instant restore has a prod-linked copy, and
      every pending cleanup is for a registered guest. */
  lemma {:induction false} EveryRunKeepsTheInvariant(p: Policy, es: seq<Event>)
    requires ValidPolicy(p) && Fresh(p, es)
    ensures Inv(Run(p, es))
  {
    if es != [] {
      EveryRunKeepsTheInvariant(p, es[..|es| - 1]);
      StepKeeps(Run(p, es[..|es| - 1]), es[|es| - 1]);
    }
  }

  /** From any point of a run to any later one, things only move forward. */
  lemma {:induction false} RunsMoveForward(p: Policy, es: seq<Event>, i: nat)
    requires ValidPolicy(p) && Fresh(p, es) && i <= |es|
    ensures Later(Run(p, es[..i]), Run(p, es))
  {
    if i == |es| {
      assert es[..i] == es;
      LaterIsReflexive(Run(p, es));
    } else {
      var init := es[..|es| - 1];
      assert init[..i] == es[..i];
      RunsMoveForward(p, init, i);
      FreshPrefix(p, es, i);
      EveryRunKeepsTheInvariant(p, es[..i]);
      EveryRunKeepsTheInvariant(p, init);
      StepKeeps(Run(p, init), es[|es| - 1]);
      LaterIsTransitive(Run(p, es[..i]), Run(p, init), Run(p, es));
    }
  }
}
