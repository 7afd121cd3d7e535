/** What every reachable registry keeps, and which single file writes keep it.

    `Inv` holds several facts that no validator checks and that only hold because
    two or three commands work together. `Safe` says what one write must respect;
    safe writes keep `Inv`, and what they change is bounded by `Later`.
 */
module RegistrySafety {
  import opened Common
  import opened RegistryTypes
  import opened RegistryRules
  import opened RegistryPlans

  // The invariant ---------------------------------------------------------------------

  ghost predicate UniqueIds(resources: map<Name, Resource>) {
    forall a, b :: a in resources && b in resources && a != b ==> resources[a].id != resources[b].id
  }

  /** A production guest under an instant restore has no prod-linked staging guest. */
  ghost predicate InstantClear(resources: map<Name, Resource>) {
    forall d :: d in resources && d.Stage? && resources[d].backup.None? && SourceOf(d) in resources ==>
      resources[SourceOf(d)].instant.None?
  }

  ghost predicate Keyed(cleanup: seq<Cleanup>) {
    forall i, j :: 0 <= i < j < |cleanup| ==> cleanup[i].key != cleanup[j].key
  }

  predicate Registered(resources: map<Name, Resource>, name: Name, id: Id) {
    name in resources && resources[name].id == id
  }

  /** Every pending cleanup is for a registered resource. */
  ghost predicate PendingRegistered(cleanup: seq<Cleanup>, resources: map<Name, Resource>) {
    forall c :: c in cleanup && !c.completed ==> Registered(resources, c.key.resource, c.key.resourceId)
  }

  /** Every id in use was handed out, every guest has the MAC address of its name, and
      only production guests are orchestrated. */
  ghost predicate AllIssued(s: Store) {
    && (forall n :: n in s.resources ==> s.resources[n].id in s.issued && s.resources[n].mac == MacFor(n))
    && (forall c :: c in s.cleanup ==> c.key.resourceId in s.issued)
    && (forall n :: n in s.orchestration ==> n.Prod? && s.orchestration[n].resourceId in s.issued)
  }

  ghost predicate Inv(s: Store) {
    && ValidPolicy(s.policy) && Readable(s) && UniqueIds(s.resources) && InstantClear(s.resources)
    && Keyed(s.cleanup) && PendingRegistered(s.cleanup, s.resources) && AllIssued(s)
  }

  // Safe writes --------------------------------------------------------------------------

  /** What no command changes on a record. */
  predicate SameIdentity(a: Resource, b: Resource) {
    && a.id == b.id && a.name == b.name && a.vmid == b.vmid && a.octet == b.octet && a.mac == b.mac
    && a.allocation == b.allocation && a.request == b.request && a.backup == b.backup
  }

  /** How an instant restore's mark may change: its phase goes forward, its restore
      point stays, and it is cleared only while nothing was freed. */
  predicate InstantStep(was: Option<InstantRestore>, now: Option<InstantRestore>) {
    match (was, now)
    case (None, _) => true
    case (Some(a), None) => a.phase != Freed
    case (Some(a), Some(b)) => a.storage == b.storage && a.point == b.point && Order(a.phase) <= Order(b.phase)
  }

  ghost predicate SafeReplacement(s: Store, cur: Resource, r: Resource) {
    && SameIdentity(cur, r) && InstantStep(cur.instant, r.instant)
    && (cur.instant.None? && r.instant.Some? ==> !ProdLinked(s, r.name))
  }

  ghost predicate SafeAddition(s: Store, r: Resource) {
    && r.id !in s.issued && r.instant.None? && r.mac == MacFor(r.name)
    && (r.name.Stage? && r.backup.None? && SourceOf(r.name) in s.resources ==>
          s.resources[SourceOf(r.name)].instant.None?)
  }

  predicate OrchestrationStep(was: Orchestration, now: Orchestration) {
    && (was.phase == now.phase || MayFollow(was.phase, now.phase))
    && (was.network.Some? ==> now.network == was.network)
    && (was.installer.Some? ==> now.installer == was.installer)
  }

  ghost predicate SafeOrchestration(s: Store, name: Name, o: Orchestration) {
    && name.Prod? && Registered(s.resources, name, o.resourceId)
    && (name in s.orchestration ==>
          s.orchestration[name].resourceId == o.resourceId && OrchestrationStep(s.orchestration[name], o))
  }

  ghost predicate SafeCleanup(s: Store, c: Cleanup) {
    if Recorded(s.cleanup, c.key) then c.completed
    else !c.completed && Registered(s.resources, c.key.resource, c.key.resourceId)
  }

  ghost predicate SafeDrop(s: Store, key: CleanupKey) {
    forall c :: c in s.cleanup && c.key == key ==> c.completed && c.key.resourceId !in Ids(s.resources)
  }

  ghost predicate Safe(s: Store, w: Write) {
    match w
    case PutResource(r) =>
      && ValidResource(r, s.policy) && Consistent(s.resources[r.name := r])
      && (if r.name in s.resources then SafeReplacement(s, s.resources[r.name], r) else SafeAddition(s, r))
    case DropResource(name) =>
      name in s.resources && Dependents(s.resources, name) == {} && !PendingFor(s.cleanup, s.resources[name].id)
    case PutCleanup(c) => SafeCleanup(s, c)
    case DropCleanup(key) => SafeDrop(s, key)
    case PutOrchestration(name, o) => SafeOrchestration(s, name, o)
    case DropOrchestration(name) => name !in s.resources
    case PutPolicy(p) => ValidPolicy(p) && forall n :: n in s.resources ==> ValidResource(s.resources[n], p)
  }

  // Cleanup records ---------------------------------------------------------------------------

  lemma PutInMeans(cleanup: seq<Cleanup>, c: Cleanup)
    requires Keyed(cleanup)
    ensures Keyed(PutIn(cleanup, c))
    ensures forall x :: x in PutIn(cleanup, c) <==> x == c || (x in cleanup && x.key != c.key)
  {
    var i := IndexOf(cleanup, c.key);
    var r := PutIn(cleanup, c);
    if i < |cleanup| {
      forall x | x in cleanup && x.key != c.key ensures x in r {
        var j :| 0 <= j < |cleanup| && cleanup[j] == x;
        assert r[j] == x;
      }
      assert r[i] == c;
    }
  }

  lemma DropFromMeans(cleanup: seq<Cleanup>, key: CleanupKey)
    requires Keyed(cleanup)
    ensures Keyed(DropFrom(cleanup, key))
    ensures forall x :: x in DropFrom(cleanup, key) <==> x in cleanup && x.key != key
  {
    var i := IndexOf(cleanup, key);
    var r := DropFrom(cleanup, key);
    if i < |cleanup| {
      assert forall j :: 0 <= j < |r| ==> r[j] == if j < i then cleanup[j] else cleanup[j + 1];
      forall x | x in cleanup && x.key != key ensures x in r {
        var j :| 0 <= j < |cleanup| && cleanup[j] == x;
        assert x == if j < i then r[j] else r[j - 1];
      }
    }
  }

  lemma RecordedMeans(cleanup: seq<Cleanup>, key: CleanupKey)
    ensures Recorded(cleanup, key) <==> exists c :: c in cleanup && c.key == key
  {
    var i := IndexOf(cleanup, key);
    if i < |cleanup| {
      assert cleanup[i] in cleanup;
    }
  }

  // Safe writes keep the invariant ----------------------------------------------------------------

  lemma PutResourceReadable(s: Store, r: Resource)
    requires Readable(s) && ValidResource(r, s.policy) && Consistent(s.resources[r.name := r])
    ensures Readable(Perform(s, PutResource(r)))
  {
  }

  lemma AdditionKeepsInstantClear(s: Store, r: Resource)
    requires InstantClear(s.resources) && Readable(s) && r.name !in s.resources && SafeAddition(s, r)
    ensures InstantClear(s.resources[r.name := r])
  {
  }

  lemma ReplacementKeepsInstantClear(s: Store, r: Resource)
    requires InstantClear(s.resources) && Readable(s) && r.name in s.resources
             && SafeReplacement(s, s.resources[r.name], r)
    ensures InstantClear(s.resources[r.name := r])
  {
    var cur := s.resources[r.name];
    forall d | d in s.resources && d.Stage? && s.resources[d].backup.None? && SourceOf(d) == r.name && cur.instant.None?
      ensures r.instant.None?
    {
      assert d in Dependents(s.resources, r.name);
    }
  }

  lemma PutResourceBooks(s: Store, r: Resource)
    requires UniqueIds(s.resources) && PendingRegistered(s.cleanup, s.resources) && AllIssued(s)
    requires r.mac == MacFor(r.name)
    requires if r.name in s.resources then s.resources[r.name].id == r.id else r.id !in s.issued
    ensures var t := Perform(s, PutResource(r));
            UniqueIds(t.resources) && PendingRegistered(t.cleanup, t.resources) && AllIssued(t)
  {
  }

  lemma PutResourceKeeps(s: Store, r: Resource)
    requires Inv(s) && Safe(s, PutResource(r))
    ensures Inv(Perform(s, PutResource(r)))
  {
    PutResourceReadable(s, r);
    PutResourceBooks(s, r);
    if r.name in s.resources {
      ReplacementKeepsInstantClear(s, r);
    } else {
      AdditionKeepsInstantClear(s, r);
    }
  }

  lemma DropResourceReadable(s: Store, name: Name)
    requires Readable(s) && name in s.resources && Dependents(s.resources, name) == {}
    ensures Readable(Perform(s, DropResource(name)))
  {
    var left := s.resources - {name};
    forall n | n in left ensures Linked(left, left[n]) {
      assert Linked(s.resources, s.resources[n]);
      assert n.Stage? && SourceOf(n) == name ==> n in Dependents(s.resources, name);
    }
    forall a, b | a in left && b in left && a != b ensures Compatible(left[a], left[b]) {
      assert Compatible(s.resources[a], s.resources[b]);
    }
  }

  lemma DropResourceBooks(s: Store, name: Name)
    requires UniqueIds(s.resources) && InstantClear(s.resources) && PendingRegistered(s.cleanup, s.resources)
             && AllIssued(s)
    requires name in s.resources && !PendingFor(s.cleanup, s.resources[name].id)
    ensures var t := Perform(s, DropResource(name));
            UniqueIds(t.resources) && InstantClear(t.resources) && PendingRegistered(t.cleanup, t.resources)
                && AllIssued(t)
  {
  }

  lemma DropResourceKeeps(s: Store, name: Name)
    requires Inv(s) && Safe(s, DropResource(name))
    ensures Inv(Perform(s, DropResource(name)))
  {
    DropResourceReadable(s, name);
    DropResourceBooks(s, name);
  }

  lemma PutCleanupKeeps(s: Store, c: Cleanup)
    requires Inv(s) && SafeCleanup(s, c)
    ensures Inv(Perform(s, PutCleanup(c)))
  {
    PutInMeans(s.cleanup, c);
    RecordedMeans(s.cleanup, c.key);
  }

  lemma DropCleanupKeeps(s: Store, key: CleanupKey)
    requires Inv(s) && SafeDrop(s, key)
    ensures Inv(Perform(s, DropCleanup(key)))
  {
    DropFromMeans(s.cleanup, key);
  }

  lemma SafeKeepsInv(s: Store, w: Write)
    requires Inv(s) && Safe(s, w)
    ensures Inv(Perform(s, w))
  {
    match w
    case PutResource(r) => PutResourceKeeps(s, r);
    case DropResource(name) => DropResourceKeeps(s, name);
    case PutCleanup(c) => PutCleanupKeeps(s, c);
    case DropCleanup(key) => DropCleanupKeeps(s, key);
    case PutOrchestration(_, _) =>
    case DropOrchestration(_) =>
    case PutPolicy(_) =>
  }

  // What a later registry may differ in ---------------------------------------------------------------

  function Rank(p: Phase): nat {
    match p
    case Unknown => 0
    case Unstarted => 0
    case MediaAttached => 1
    case InstallerStarted => 1
    case InstalledConfirmed => 2
    case GuestVerified => 3
    case NetworkFinalized => 4
  }

  predicate Orchestrates(s: Store, name: Name, id: Id) {
    name in s.orchestration && s.orchestration[name].resourceId == id
  }

  /** Ids are never reused: what is registered later was registered before under
      the same name, or its id is new. */
  ghost predicate NoReuse(s: Store, t: Store) {
    && s.issued <= t.issued
    && (forall n :: n in t.resources && t.resources[n].id in s.issued ==> Registered(s.resources, n, t.resources[n].id))
  }

  /** A guest that is still registered is the same guest. */
  ghost predicate SameGuests(s: Store, t: Store) {
    forall n :: n in s.resources && Registered(t.resources, n, s.resources[n].id) ==>
      SameIdentity(s.resources[n], t.resources[n])
  }

  /** A guest's cleanup records are kept while it is registered, and none is reopened. */
  ghost predicate EvidenceKept(s: Store, t: Store) {
    forall c :: c in s.cleanup && c.key.resourceId in Ids(t.resources) ==>
      exists d :: d in t.cleanup && d.key == c.key && (c.completed ==> d.completed)
  }

  /** A guest's orchestration record lives as long as the guest, appears only for a
      registered guest, keeps its contract, and its install phase never goes back. */
  ghost predicate OrchestrationKept(s: Store, t: Store) {
    && (forall n :: n in s.orchestration && Registered(t.resources, n, s.orchestration[n].resourceId) ==>
          Orchestrates(t, n, s.orchestration[n].resourceId))
    && (forall n :: n in t.orchestration && t.orchestration[n].resourceId in s.issued ==>
          Orchestrates(s, n, t.orchestration[n].resourceId)
              || Registered(s.resources, n, t.orchestration[n].resourceId))
    && (forall n :: n in s.orchestration && Orchestrates(t, n, s.orchestration[n].resourceId) ==>
          Forward(s.orchestration[n], t.orchestration[n]))
  }

  predicate Forward(was: Orchestration, now: Orchestration) {
    && Rank(was.phase) <= Rank(now.phase)
    && (was.network.Some? ==> now.network == was.network)
    && (was.installer.Some? ==> now.installer == was.installer)
  }

  ghost predicate Later(s: Store, t: Store) {
    NoReuse(s, t) && SameGuests(s, t) && EvidenceKept(s, t) && OrchestrationKept(s, t)
  }

  lemma IdsMean(resources: map<Name, Resource>, id: Id)
    ensures id in Ids(resources) <==> exists n :: Registered(resources, n, id)
  {
    if id in Ids(resources) {
      var n :| n in resources && resources[n].id == id;
      assert Registered(resources, n, id);
    }
  }

  lemma LaterIsReflexive(s: Store)
    ensures Later(s, s)
  {
  }

  lemma EvidenceIsTransitive(s: Store, t: Store, u: Store)
    requires NoReuse(t, u) && AllIssued(t) && s.issued <= t.issued && AllIssued(s)
    requires EvidenceKept(s, t) && EvidenceKept(t, u)
    ensures EvidenceKept(s, u)
  {
    forall c | c in s.cleanup && c.key.resourceId in Ids(u.resources)
      ensures exists d :: d in u.cleanup && d.key == c.key && (c.completed ==> d.completed)
    {
      IdsMean(u.resources, c.key.resourceId);
      var n :| Registered(u.resources, n, c.key.resourceId);
      assert Registered(t.resources, n, c.key.resourceId);
      IdsMean(t.resources, c.key.resourceId);
      var d :| d in t.cleanup && d.key == c.key && (c.completed ==> d.completed);
      var e :| e in u.cleanup && e.key == d.key && (d.completed ==> e.completed);
    }
  }

  lemma OrchestrationIsTransitive(s: Store, t: Store, u: Store)
    requires AllIssued(s) && AllIssued(t) && NoReuse(s, t) && NoReuse(t, u)
    requires OrchestrationKept(s, t) && OrchestrationKept(t, u)
    ensures OrchestrationKept(s, u)
  {
    forall n | n in s.orchestration && Registered(u.resources, n, s.orchestration[n].resourceId)
      ensures Orchestrates(u, n, s.orchestration[n].resourceId)
    {
      assert Registered(t.resources, n, s.orchestration[n].resourceId);
    }
    forall n | n in u.orchestration && u.orchestration[n].resourceId in s.issued
      ensures Orchestrates(s, n, u.orchestration[n].resourceId)
              || Registered(s.resources, n, u.orchestration[n].resourceId)
    {
      assert Orchestrates(t, n, u.orchestration[n].resourceId)
          || Registered(t.resources, n, u.orchestration[n].resourceId);
    }
    forall n | n in s.orchestration && Orchestrates(u, n, s.orchestration[n].resourceId)
      ensures Forward(s.orchestration[n], u.orchestration[n])
    {
      var id := s.orchestration[n].resourceId;
      assert Orchestrates(t, n, id) || Registered(t.resources, n, id);
      assert Orchestrates(t, n, id);
    }
  }

  lemma LaterIsTransitive(s: Store, t: Store, u: Store)
    requires AllIssued(s) && AllIssued(t) && Later(s, t) && Later(t, u)
    ensures Later(s, u)
  {
    EvidenceIsTransitive(s, t, u);
    OrchestrationIsTransitive(s, t, u);
    forall n | n in u.resources && u.resources[n].id in s.issued ensures Registered(s.resources, n, u.resources[n].id) {
      assert Registered(t.resources, n, u.resources[n].id);
    }
    forall n | n in s.resources && Registered(u.resources, n, s.resources[n].id)
      ensures SameIdentity(s.resources[n], u.resources[n])
    {
      assert Registered(t.resources, n, s.resources[n].id);
    }
  }

  // Safe writes only move forward ---------------------------------------------------------------------------

  lemma SafeCleanupLater(s: Store, c: Cleanup)
    requires Keyed(s.cleanup) && SafeCleanup(s, c)
    ensures Later(s, Perform(s, PutCleanup(c)))
  {
    PutInMeans(s.cleanup, c);
    RecordedMeans(s.cleanup, c.key);
  }

  lemma SafeDropLater(s: Store, key: CleanupKey)
    requires Keyed(s.cleanup) && SafeDrop(s, key)
    ensures Later(s, Perform(s, DropCleanup(key)))
  {
    DropFromMeans(s.cleanup, key);
  }

  lemma SafePutLater(s: Store, r: Resource)
    requires AllIssued(s)
    requires if r.name in s.resources then SameIdentity(s.resources[r.name], r) else r.id !in s.issued
    ensures Later(s, Perform(s, PutResource(r)))
  {
  }

  lemma StepIsForward(was: Orchestration, now: Orchestration)
    requires OrchestrationStep(was, now)
    ensures Forward(was, now)
  {
  }

  lemma SafeOrchestrationLater(s: Store, name: Name, o: Orchestration)
    requires SafeOrchestration(s, name, o)
    ensures Later(s, Perform(s, PutOrchestration(name, o)))
  {
    if name in s.orchestration {
      StepIsForward(s.orchestration[name], o);
    }
  }

  lemma DropsAreLater(s: Store, name: Name)
    requires AllIssued(s)
    ensures Later(s, Perform(s, DropResource(name)))
    ensures name !in s.resources ==> Later(s, Perform(s, DropOrchestration(name)))
  {
  }

  lemma SafeIsLater(s: Store, w: Write)
    requires Inv(s) && Safe(s, w)
    ensures Later(s, Perform(s, w))
  {
    match w
    case PutResource(r) => SafePutLater(s, r);
    case DropResource(name) => DropsAreLater(s, name);
    case PutCleanup(c) => SafeCleanupLater(s, c);
    case DropCleanup(key) => SafeDropLater(s, key);
    case PutOrchestration(name, o) => SafeOrchestrationLater(s, name, o);
    case DropOrchestration(name) => DropsAreLater(s, name);
    case PutPolicy(_) => LaterIsReflexive(s);
  }
}
