/** The registry object: each command reads the record files, builds a changed copy
    of a record step by step, validates the whole, and replaces or removes files.
    Every command is proved to do exactly its plan.
 */
module RegistryStore {
  import opened Common
  import opened RegistryTypes
  import opened RegistryRules
  import opened RegistryValidator
  import P = RegistryPlans
  import opened RegistryRuns

  /** The records listed so far are those of every name but the ones still to read. */
  ghost predicate Loaded(records: seq<Resource>, all: map<Name, Resource>, policy: Policy, names: set<Name>) {
    && names <= all.Keys
    && (forall n :: n in all && n !in names ==> all[n].name == n && ValidResource(all[n], policy) && all[n] in records)
    && (forall r :: r in records ==> r.name in all && r.name !in names && all[r.name] == r && Distinct(Domains(r)))
    && (forall i, j :: 0 <= i < j < |records| ==> records[i].name != records[j].name)
  }

  lemma OneMoreLoaded(records: seq<Resource>, all: map<Name, Resource>, policy: Policy, names: set<Name>, n: Name)
    requires Loaded(records, all, policy, names) && n in names && all[n].name == n && ValidResource(all[n], policy)
    ensures Loaded(records + [all[n]], all, policy, names - {n})
  {
  }

  lemma AllLoaded(records: seq<Resource>, all: map<Name, Resource>, policy: Policy)
    requires Loaded(records, all, policy, {})
    ensures ListsAll(records, all) && forall r :: r in records ==> Distinct(Domains(r))
    ensures forall n :: n in all ==> all[n].name == n && ValidResource(all[n], policy)
    ensures AllApart(records) && AllLinked(records) <==> Consistent(all)
  {
    ValidatorMeansConsistent(records, all);
  }

  class Registry {
    var policy: Policy
    var resources: map<Name, Resource>
    var cleanup: seq<Cleanup>
    var orchestration: map<Name, Orchestration>
    ghost var issued: set<Id>

    ghost function View(): Store
      reads this
    {
      Store(policy, resources, cleanup, orchestration, issued)
    }

    constructor (p: Policy)
      ensures View() == Initial(p)
    {
      policy, resources, cleanup, orchestration := p, map[], [], map[];
      issued := {};
    }

    // Files -------------------------------------------------------------------------

    method Put(r: Resource)
      modifies this`resources, this`issued
      ensures View() == P.After(old(View()), [P.PutResource(r)])
    {
      resources := resources[r.name := r];
      issued := issued + {r.id};
      AfterSingle(old(View()), P.PutResource(r));
    }

    method PutLease(name: Name, o: Orchestration)
      modifies this`orchestration
      ensures View() == P.After(old(View()), [P.PutOrchestration(name, o)])
    {
      orchestration := orchestration[name := o];
      AfterSingle(old(View()), P.PutOrchestration(name, o));
    }

    /** Every record, each validated by itself, and then all of them together. */
    method Load() returns (records: seq<Resource>, ok: bool)
      ensures ok <==> Readable(View())
      ensures ok ==> ListsAll(records, resources) && forall r :: r in records ==> Distinct(Domains(r))
    {
      records := [];
      var names := resources.Keys;
      while names != {}
        invariant Loaded(records, resources, policy, names)
        decreases |names|
      {
        var n :| n in names;
        var r := resources[n];
        if r.name != n || !ValidResource(r, policy) {
          return [], false;
        }
        OneMoreLoaded(records, resources, policy, names, n);
        names := names - {n};
        records := records + [r];
      }
      AllLoaded(records, resources, policy);
      ok := ValidateRegistry(records);
    }

    // Allocation and changed records ---------------------------------------------------

    /** The list with the record in the place of the one of its name, or at the end. */
    static method WithRecord(records: seq<Resource>, r: Resource, ghost all: map<Name, Resource>)
      returns (revised: seq<Resource>)
      requires ListsAll(records, all)
      ensures ListsAll(revised, all[r.name := r])
      ensures forall x :: x in revised ==> x == r || x in records
    {
      revised := [];
      var found := false;
      var i := 0;
      while i < |records|
        invariant i <= |records| && |revised| == i
        invariant forall j :: 0 <= j < i ==> revised[j] == if records[j].name == r.name then r else records[j]
        invariant found <==> exists j :: 0 <= j < i && records[j].name == r.name
      {
        if records[i].name == r.name {
          revised := revised + [r];
          found := true;
        } else {
          revised := revised + [records[i]];
        }
        i := i + 1;
      }
      ghost var same := revised;
      if !found {
        revised := revised + [r];
      }
      RevisedLists(records, same, revised, r, found, all);
    }

    /** Validates a changed or new record with all the others, and writes it. */
    method Commit(records: seq<Resource>, r: Resource, q: Policy) returns (outcome: P.Outcome)
      requires ListsAll(records, resources) && forall x :: x in records ==> Distinct(Domains(x))
      modifies this`resources, this`issued
      ensures View() == P.After(old(View()), P.Replace(old(View()), q, r).writes)
      ensures outcome == P.Replace(old(View()), q, r).outcome
    {
      if !ValidResource(r, q) {
        return P.Refused;
      }
      var revised := WithRecord(records, r, resources);
      var ok := ValidateRegistry(revised);
      ValidatorMeansConsistent(revised, resources[r.name := r]);
      if !ok {
        return P.Refused;
      }
      Put(r);
      return P.Done;
    }

    /** The guest that an earlier allocation with this id made. */
    method FindAllocation(records: seq<Resource>, allocation: Option<string>) returns (found: Option<Resource>)
      requires ListsAll(records, resources)
      ensures found.Some? ==> found.value in records && P.HasAllocation(View(), allocation, found.value.name)
      ensures found.None? ==> forall n :: !P.HasAllocation(View(), allocation, n)
    {
      if allocation.None? {
        return None;
      }
      var i := 0;
      while i < |records|
        invariant i <= |records|
        invariant forall j :: 0 <= j < i ==> records[j].allocation != allocation
      {
        if records[i].allocation == allocation {
          return Some(records[i]);
        }
        i := i + 1;
      }
      NobodyHas(View(), records, allocation);
      return None;
    }

    static method LowestFreeProd(names: set<Name>, last: int) returns (index: Option<nat>)
      ensures index == P.FirstFreeProd(names, 1, last)
    {
      var i := 1;
      while i <= last
        invariant 1 <= i && P.FirstFreeProd(names, 1, last) == P.FirstFreeProd(names, i, last)
      {
        if Prod(i) !in names {
          return Some(i);
        }
        i := i + 1;
      }
      return None;
    }

    static method LowestFreeStage(names: set<Name>, n: nat, last: int) returns (index: Option<nat>)
      ensures index == P.FirstFreeStage(names, n, 1, last)
    {
      var i := 1;
      while i <= last
        invariant 1 <= i && P.FirstFreeStage(names, n, 1, last) == P.FirstFreeStage(names, n, i, last)
      {
        if Stage(i, n) !in names {
          return Some(i);
        }
        i := i + 1;
      }
      return None;
    }

    method AllocateProd(q: Policy, a: P.ProdArgs) returns (outcome: P.Outcome)
      modifies this`resources, this`issued
      ensures View() == P.After(old(View()), P.AllocateProd(old(View()), q, a).writes)
      ensures outcome == P.AllocateProd(old(View()), q, a).outcome
    {
      if !P.ProdArgsOk(a, q) {
        return P.Refused;
      }
      var records, ok := Load();
      if !ok {
        return P.Refused;
      }
      var existing := FindAllocation(records, a.allocation);
      if existing.Some? {
        OnlyHolder(View(), a.allocation, existing.value.name);
        return if existing.value.name.Prod? && existing.value.request == P.ProdRequest(a) then P.Unchanged
            else P.Refused;
      }
      var index: Option<nat>;
      if a.index.Some? {
        if !(1 <= a.index.value <= q.slots.maxProduction) || Prod(a.index.value) in resources {
          return P.Refused;
        }
        index := a.index;
      } else {
        index := LowestFreeProd(resources.Keys, q.slots.maxProduction);
      }
      if index.None? {
        return P.Refused;
      }
      outcome := Commit(records, P.NewProd(a, index.value, q), q);
    }

    /** How many staging guests are placed on the node. */
    method PlacedOn(records: seq<Resource>, node: Node) returns (count: nat)
      requires ListsAll(records, resources)
      ensures count == |P.StagedOn(resources, node)|
    {
      count := 0;
      ghost var counted: set<Name> := {};
      var i := 0;
      while i < |records|
        invariant i <= |records| && count == |counted|
        invariant forall n :: n in counted <==>
                    exists j :: 0 <= j < i && records[j].name == n && n.Stage? && records[j].placement == [node]
      {
        if records[i].name.Stage? && records[i].placement == [node] {
          count := count + 1;
          counted := counted + {records[i].name};
        }
        i := i + 1;
      }
      CountedAll(records, resources, node, counted);
    }

    method AllocateStaging(q: Policy, a: P.StagingArgs) returns (outcome: P.Outcome)
      modifies this`resources, this`issued
      ensures View() == P.After(old(View()), P.AllocateStaging(old(View()), q, a).writes)
      ensures outcome == P.AllocateStaging(old(View()), q, a).outcome
    {
      if !NodesOk([a.node], q) || !(100 <= a.vmid <= 999_999_999) {
        return P.Refused;
      }
      var records, ok := Load();
      if !ok || a.source !in resources || !P.CanStage(resources[a.source], a) {
        return P.Refused;
      }
      var source := resources[a.source];
      var existing := FindAllocation(records, a.allocation);
      if existing.Some? {
        OnlyHolder(View(), a.allocation, existing.value.name);
        var request := StagingRequest(a.source, a.vmid, [a.node], P.BackupOf(a));
        return if existing.value.name.Stage? && existing.value.request == request then P.Unchanged else P.Refused;
      }
      var placed := PlacedOn(records, a.node);
      if a.limit <= 0 || placed >= a.limit {
        return P.Refused;
      }
      var k := LowestFreeStage(resources.Keys, a.source.n, q.slots.maxStaging);
      if k.None? {
        return P.Refused;
      }
      outcome := Commit(records, P.NewStaging(a, k.value, source, q), q);
    }

    static method AllFit(records: seq<Resource>, all: map<Name, Resource>, q: Policy) returns (ok: bool)
      requires ListsAll(records, all)
      ensures ok <==> forall n :: n in all ==> ValidResource(all[n], q)
    {
      var i := 0;
      while i < |records|
        invariant i <= |records|
        invariant forall j :: 0 <= j < i ==> ValidResource(records[j], q)
      {
        if !ValidResource(records[i], q) {
          assert records[i] in records;
          return false;
        }
        i := i + 1;
      }
      forall n | n in all ensures ValidResource(all[n], q) {
        assert all[n] in records;
      }
      return true;
    }

    method UpdateSlots(slots: Slots) returns (outcome: P.Outcome)
      modifies this`policy
      ensures View() == P.After(old(View()), P.UpdateSlots(old(View()), slots).writes)
      ensures outcome == P.UpdateSlots(old(View()), slots).outcome
    {
      if slots == policy.slots {
        return P.Unchanged;
      }
      var updated := policy.(slots := slots);
      if !ValidPolicy(updated) {
        return P.Refused;
      }
      var records, ok := Load();
      if !ok {
        return P.Refused;
      }
      var fit := AllFit(records, resources, updated);
      if !fit {
        return P.Refused;
      }
      AfterSingle(View(), P.PutPolicy(updated));
      policy := updated;
      return P.Done;
    }

    // Staging snapshots -------------------------------------------------------------------

    method IsTaken(records: seq<Resource>, source: Name, snapshot: string) returns (taken: bool)
      requires ListsAll(records, resources)
      ensures taken <==> P.Taken(View(), source, snapshot)
    {
      var i := 0;
      while i < |records|
        invariant i <= |records|
        invariant forall j :: 0 <= j < i ==> !Claims(records[j], source, snapshot)
      {
        if Claims(records[i], source, snapshot) {
          assert records[i] in records;
          return true;
        }
        i := i + 1;
      }
      NotTaken(View(), records, source, snapshot);
      return false;
    }

    method HasLiveHolder(records: seq<Resource>, source: Name, snapshot: string) returns (live: bool)
      requires ListsAll(records, resources)
      ensures live <==> exists n :: P.LiveHolder(View(), source, snapshot, n)
    {
      live := false;
      var i := 0;
      while i < |records|
        invariant i <= |records|
        invariant live <==> exists j :: 0 <= j < i && KeepsAlive(records[j], source, snapshot)
      {
        if KeepsAlive(records[i], source, snapshot) {
          live := true;
        }
        i := i + 1;
      }
      SomebodyLives(View(), records, source, snapshot);
    }

    method RecordSnapshotIntent(q: Policy, a: P.IntentArgs) returns (outcome: P.Outcome)
      modifies this`resources, this`issued
      ensures View() == P.After(old(View()), P.SnapshotIntent(old(View()), q, a).writes)
      ensures outcome == P.SnapshotIntent(old(View()), q, a).outcome
    {
      if a.volumes == [] || !Distinct(a.volumes) || a.root !in a.volumes {
        return P.Refused;
      }
      var records, ok := Load();
      if !ok || a.name !in resources || !a.name.Stage? || SourceOf(a.name) !in resources {
        return P.Refused;
      }
      var current, source := resources[a.name], resources[SourceOf(a.name)];
      if source.volume != Some(a.root) || a.owner !in source.placement {
        return P.Refused;
      }
      var intent := P.IntentSnapshot(a, source.name);
      if current.snapshot == Some(intent) {
        return P.Unchanged;
      }
      if current.snapshot.Some? || !P.Expected(a.expected, current) || current.state != Snapshotting {
        return P.Refused;
      }
      var taken := IsTaken(records, source.name, a.snapshot);
      if taken {
        return P.Refused;
      }
      outcome := Commit(records, P.Revised(current.(snapshot := Some(intent))), q);
    }

    method RecordSnapshot(q: Policy, a: P.RecordArgs) returns (outcome: P.Outcome)
      modifies this`resources, this`issued
      ensures View() == P.After(old(View()), P.RecordSnapshot(old(View()), q, a).writes)
      ensures outcome == P.RecordSnapshot(old(View()), q, a).outcome
    {
      var records, ok := Load();
      if !ok || a.name !in resources || !a.name.Stage? || SourceOf(a.name) !in resources {
        return P.Refused;
      }
      var current, source := resources[a.name], resources[SourceOf(a.name)];
      if source.volume != Some(a.root) || a.owner !in source.placement {
        return P.Refused;
      }
      if current.snapshot.None? || current.snapshot.value.claim.None? {
        return P.Refused;
      }
      var intent := current.snapshot.value;
      var claim := intent.claim.value;
      if intent.name != a.snapshot || intent.owner != a.owner || claim.source != source.name || claim.root != a.root
         || !P.GuidsCover(a, claim, source.placement) {
        return P.Refused;
      }
      var metadata := intent;
      metadata := metadata.(guids := a.guids);
      metadata := metadata.(claim := Some(claim.(volumeGuids := a.volumeGuids, verified := true)));
      if intent == metadata {
        return P.Unchanged;
      }
      if claim.verified || !P.Expected(a.expected, current) || current.state !in {Snapshotting, Replicating} {
        return P.Refused;
      }
      outcome := Commit(records, P.Revised(current.(snapshot := Some(metadata))), q);
    }

    method ShareSnapshot(q: Policy, a: P.ShareArgs) returns (outcome: P.Outcome)
      modifies this`resources, this`issued
      ensures View() == P.After(old(View()), P.ShareSnapshot(old(View()), q, a).writes)
      ensures outcome == P.ShareSnapshot(old(View()), q, a).outcome
    {
      var records, ok := Load();
      if !ok || a.name !in resources || a.donor !in resources || !a.name.Stage? || !a.donor.Stage? || a.name == a.donor
         || a.name.n != a.donor.n || SourceOf(a.name) !in resources {
        return P.Refused;
      }
      var current, donor, source := resources[a.name], resources[a.donor], resources[SourceOf(a.name)];
      if donor.snapshot.None? || !Verified(donor.snapshot.value)
          || Some(donor.snapshot.value.claim.value.root) != source.volume {
        return P.Refused;
      }
      var live := HasLiveHolder(records, source.name, donor.snapshot.value.name);
      if !live {
        return P.Refused;
      }
      var metadata := donor.snapshot.value;
      metadata := metadata.(claim := Some(metadata.claim.value.(dependents := [current.name], refcount := 1)));
      if current.snapshot == Some(metadata) {
        return P.Unchanged;
      }
      if current.snapshot.Some? || !P.Expected(a.expected, current) || current.state != Reserved {
        return P.Refused;
      }
      outcome := Commit(records, P.Revised(current.(snapshot := Some(metadata))), q);
    }

    // Update ------------------------------------------------------------------------------------

    /** Placement, initial and owner node, in turn. */
    static method ChangePlacement(current: Resource, a: P.UpdateArgs, q: Policy)
      returns (updated: Resource, changed: bool, ok: bool)
      ensures ok <==> P.AcceptsPlacement(current, a, q)
      ensures ok ==> updated == P.NewNodes(current, a).(haNodes := current.haNodes, targets := current.targets)
      ensures ok ==> (changed <==> a.placement.Some? || a.initial.Some? || a.clearOwner || a.owner.Some?)
    {
      updated, changed := current, false;
      if a.placement.Some? {
        var placement := a.placement.value;
        if placement == [] || !NodesOk(placement, q) || (current.name.Stage? && |placement| != 1) {
          return updated, false, false;
        }
        updated := updated.(placement := placement);
        if updated.initial !in placement {
          updated := updated.(initial := placement[0]);
        }
        if updated.owner.Some? && updated.owner.value !in placement {
          return updated, false, false;
        }
        changed := true;
      }
      if a.initial.Some? {
        if a.initial.value !in updated.placement {
          return updated, false, false;
        }
        updated, changed := updated.(initial := a.initial.value), true;
      }
      if a.clearOwner {
        updated, changed := updated.(owner := None), true;
      } else if a.owner.Some? {
        if a.owner.value !in updated.placement {
          return updated, false, false;
        }
        updated, changed := updated.(owner := a.owner), true;
      }
      ok := true;
    }

    /** Then HA nodes and replication targets. */
    static method ChangeNodes(current: Resource, a: P.UpdateArgs, q: Policy)
      returns (updated: Resource, changed: bool, ok: bool)
      ensures ok <==> P.AcceptsPlacement(current, a, q) && P.AcceptsRoles(current, a, q)
      ensures ok ==> updated == P.NewNodes(current, a)
      ensures ok ==> (changed <==>
                        a.placement.Some? || a.initial.Some? || a.clearOwner || a.owner.Some? || a.haNodes.Some?
                                   || a.targets.Some?)
    {
      updated, changed, ok := ChangePlacement(current, a, q);
      if !ok {
        return;
      }
      if a.haNodes.Some? {
        if !NodesOk(a.haNodes.value, q) || (current.name.Stage? && a.haNodes.value != [])
           || !Within(a.haNodes.value, updated.placement) {
          return updated, false, false;
        }
        updated, changed := updated.(haNodes := a.haNodes.value), true;
      }
      if a.targets.Some? {
        if !NodesOk(a.targets.value, q) || !Within(a.targets.value, updated.placement) {
          return updated, false, false;
        }
        updated, changed := updated.(targets := a.targets.value), true;
      }
      ok := true;
    }

    /** Purpose, domains and staging base, in turn. */
    static method ChangeDomains(current: Resource, draft: Resource, a: P.UpdateArgs, dependents: set<Name>)
      returns (updated: Resource, changed: bool, ok: bool)
      requires draft.purpose == current.purpose && draft.primary == current.primary && draft.aliases == current.aliases
               && draft.stagingBase == current.stagingBase
      ensures ok <==> P.AcceptsDomains(current, a, dependents)
      ensures ok ==> updated == P.NewDomains(draft, a)
      ensures ok ==> (changed <==>
                        a.purpose.Some? || a.primary.Some? || a.aliases.Some? || a.clearAliases || a.stagingBase.Some?)
    {
      updated, changed := draft, false;
      if a.purpose.Some? {
        if !current.name.Prod? || dependents != {} {
          return updated, false, false;
        }
        updated, changed := updated.(purpose := a.purpose.value), true;
      }
      if a.primary.Some? {
        updated, changed := updated.(primary := a.primary.value), true;
      }
      if a.aliases.Some? {
        if !Distinct(a.aliases.value) || updated.primary in a.aliases.value {
          return updated, false, false;
        }
        updated, changed := updated.(aliases := a.aliases.value), true;
      } else if a.clearAliases {
        updated, changed := updated.(aliases := []), true;
      }
      if a.stagingBase.Some? {
        if !current.name.Prod? || dependents != {} {
          return updated, false, false;
        }
        updated, changed := updated.(stagingBase := a.stagingBase.value), true;
      }
      ok := true;
    }

    static method ChangeInstant(current: Resource, a: P.UpdateArgs, prodLinked: bool)
      returns (mark: Option<InstantRestore>, ok: bool)
      ensures ok <==> P.AcceptsInstant(current, a, prodLinked)
      ensures ok ==> mark == P.NewInstant(current, a)
    {
      mark := current.instant;
      if a.clearInstant {
        return None, mark.None? || mark.value.phase != Freed;
      }
      if a.instantStorage.None? && a.instantPoint.None? && a.instantPhase.None? {
        return mark, true;
      }
      if !current.name.Prod? {
        return mark, false;
      }
      if mark.None? {
        if a.instantStorage.None? || a.instantPoint.None? || prodLinked {
          return mark, false;
        }
        mark := Some(InstantRestore(a.instantStorage.value, a.instantPoint.value, Planned));
      }
      if (a.instantStorage.Some? && a.instantStorage.value != mark.value.storage)
         || (a.instantPoint.Some? && a.instantPoint.value != mark.value.point) {
        return mark, false;
      }
      if a.instantPhase.Some? {
        if P.Order(a.instantPhase.value) < P.Order(mark.value.phase) {
          return mark, false;
        }
        mark := Some(mark.value.(phase := a.instantPhase.value));
      }
      ok := true;
    }

    static method ChangeSnapshot(current: Resource, placement: seq<Node>, a: P.UpdateArgs)
      returns (snapshot: Option<Snapshot>, ok: bool)
      requires placement == P.Or(a.placement, current.placement)
      ensures ok <==> P.AcceptsSnapshot(current, a)
      ensures ok ==> snapshot == P.NewSnapshot(current, a)
    {
      snapshot := current.snapshot;
      if a.clearSnapshot {
        return None, true;
      }
      if a.snapshotName.None? && a.snapshotOwner.None? && a.snapshotGuids == map[] {
        return snapshot, true;
      }
      if snapshot.None? {
        if a.snapshotName.None? || a.snapshotOwner.None? {
          return snapshot, false;
        }
        snapshot := Some(Snapshot(a.snapshotName.value, a.snapshotOwner.value, map[], None));
      }
      if a.snapshotName.Some? {
        snapshot := Some(snapshot.value.(name := a.snapshotName.value));
      }
      if a.snapshotOwner.Some? {
        if a.snapshotOwner.value !in placement {
          return snapshot, false;
        }
        snapshot := Some(snapshot.value.(owner := a.snapshotOwner.value));
      }
      snapshot := Some(snapshot.value.(guids := snapshot.value.guids + a.snapshotGuids));
      assert current.snapshot.None? ==> snapshot.value.guids == a.snapshotGuids;
      ok := true;
    }

    /** State, nodes and domains, in turn. */
    static method ChangeFirst(current: Resource, a: P.UpdateArgs, q: Policy, dependents: set<Name>)
      returns (updated: Resource, changed: bool, ok: bool)
      ensures ok <==> P.AcceptsFirst(current, a, q, dependents)
      ensures ok ==> updated == P.NewDomains(P.NewNodes(current, a), a).(state := P.Or(a.state, current.state))
      ensures ok ==> (changed <==> P.ChangesFirst(current, a))
    {
      updated, changed := current, false;
      if !P.Expected(a.expected, current) {
        return updated, false, false;
      }
      var moved := a.state.Some? && a.state.value != current.state;
      if moved && !P.MayBecome(current.name.Prod?, current.state, a.state.value) {
        return updated, false, false;
      }
      var nodes, domains: bool;
      updated, nodes, ok := ChangeNodes(current, a, q);
      if !ok {
        return;
      }
      updated, domains, ok := ChangeDomains(current, updated, a, dependents);
      if !ok {
        return;
      }
      if moved {
        updated := updated.(state := a.state.value);
      }
      changed := moved || nodes || domains;
    }

    /** Instant restore, volume and snapshot, in turn. */
    static method ChangeRest(current: Resource, draft: Resource, a: P.UpdateArgs, prodLinked: bool,
                             snapshotDependents: bool)
      returns (updated: Resource, changed: bool, ok: bool)
      requires draft.placement == P.Or(a.placement, current.placement) && draft.volume == current.volume
      ensures ok <==> P.AcceptsRest(current, a, prodLinked, snapshotDependents)
      ensures ok ==> updated == draft.(instant := P.NewInstant(current, a), volume := P.NewVolume(current, a),
                                       snapshot := P.NewSnapshot(current, a))
      ensures ok ==> (changed <==> P.ChangesRest(current, a))
    {
      updated, changed := draft, false;
      var mark, snapshot;
      mark, ok := ChangeInstant(current, a, prodLinked);
      if !ok {
        return;
      }
      if current.name.Prod? && (a.clearVolume || a.volume.Some?) {
        var requested := if a.clearVolume then None else a.volume;
        if snapshotDependents && requested != current.volume {
          return updated, false, false;
        }
      }
      snapshot, ok := ChangeSnapshot(current, updated.placement, a);
      if !ok {
        return;
      }
      changed := mark != current.instant || a.clearVolume || a.volume.Some? || a.clearSnapshot || P.AsksSnapshot(a)
          || a.other;
      updated := updated.(instant := mark, snapshot := snapshot);
      if a.clearVolume {
        updated := updated.(volume := None);
      } else if a.volume.Some? {
        updated := updated.(volume := a.volume);
      }
    }

    /** The guests copied from this one, and how they depend on it. */
    method FindDependents(name: Name) returns (dependents: set<Name>, prodLinked: bool, snapshots: bool)
      ensures dependents == P.Dependents(resources, name)
      ensures prodLinked <==> P.ProdLinked(View(), name)
      ensures snapshots <==> P.SnapshotDependents(View(), name)
    {
      dependents := P.Dependents(resources, name);
      prodLinked := exists d | d in dependents :: resources[d].backup.None?;
      snapshots := exists d | d in dependents :: resources[d].snapshot.Some?;
    }

    method Update(q: Policy, name: Name, a: P.UpdateArgs) returns (outcome: P.Outcome)
      modifies this`resources, this`issued
      ensures View() == P.After(old(View()), P.Update(old(View()), q, name, a).writes)
      ensures outcome == P.Update(old(View()), q, name, a).outcome
    {
      var records, ok := Load();
      if !ok || name !in resources {
        return P.Refused;
      }
      var current := resources[name];
      var dependents, prodLinked, snapshots := FindDependents(name);
      var updated, first, rest;
      updated, first, ok := ChangeFirst(current, a, q, dependents);
      if !ok {
        return P.Refused;
      }
      updated, rest, ok := ChangeRest(current, updated, a, prodLinked, snapshots);
      if !ok {
        return P.Refused;
      }
      if !first && !rest {
        return if a.clearInstant || P.AsksInstant(a) then P.Unchanged else P.Refused;
      }
      updated := updated.(revision := updated.revision + 1);
      assert updated == P.Updated(current, a);
      outcome := Commit(records, updated, q);
    }

    method RecordOwner(q: Policy, a: P.OwnerArgs) returns (outcome: P.Outcome)
      modifies this`resources, this`issued
      ensures View() == P.After(old(View()), P.RecordOwner(old(View()), q, a).writes)
      ensures outcome == P.RecordOwner(old(View()), q, a).outcome
    {
      if !NodesOk([a.node], q) {
        return P.Refused;
      }
      var records, ok := Load();
      if !ok || a.name !in resources || !a.name.Prod? {
        return P.Refused;
      }
      var current := resources[a.name];
      if current.state != Active {
        return P.Unchanged;
      }
      if a.node !in current.placement {
        return P.Refused;
      }
      if a.name in orchestration && P.Live(orchestration[a.name].lease, a.now) {
        return P.Unchanged;
      }
      var targets: seq<Node>;
      if a.targets.None? {
        targets := Others(current.placement, a.node);
      } else {
        targets := a.targets.value;
        if !P.TargetsOk(targets, current, a.node, q) {
          return P.Refused;
        }
      }
      if current.owner == Some(a.node) && current.targets == targets {
        return P.Unchanged;
      }
      outcome := Commit(records, P.Revised(current.(owner := Some(a.node), targets := targets)), q);
    }

    static method Others(placement: seq<Node>, node: Node) returns (others: seq<Node>)
      ensures others == P.OtherNodes(placement, node)
    {
      others := [];
      var i := 0;
      while i < |placement|
        invariant i <= |placement| && others == P.OtherNodes(placement[..i], node)
      {
        assert placement[..i + 1][..i] == placement[..i];
        if placement[i] != node {
          others := others + [placement[i]];
        }
        i := i + 1;
      }
      assert placement[..i] == placement;
    }

    // Cleanup and release ------------------------------------------------------------------------

    method PruneCompleted(active: set<Id>)
      modifies this`cleanup
      ensures View() == P.After(old(View()), P.Prune(old(cleanup), active))
    {
      var completed := [];
      var i := 0;
      while i < |cleanup|
        invariant i <= |cleanup| && completed == P.CompletedOf(cleanup[..i])
      {
        assert cleanup[..i + 1][..i] == cleanup[..i];
        if cleanup[i].completed {
          completed := completed + [cleanup[i]];
        }
        i := i + 1;
      }
      assert cleanup[..i] == cleanup;
      var excess := |completed| - P.MAX_COMPLETED_CLEANUP_RECORDS;
      if excess <= 0 {
        return;
      }
      var removable := [];
      i := 0;
      while i < |completed|
        invariant i <= |completed| && removable == P.Gone(completed[..i], active)
      {
        assert completed[..i + 1][..i] == completed[..i];
        if completed[i].key.resourceId !in active {
          removable := removable + [completed[i]];
        }
        i := i + 1;
      }
      assert completed[..i] == completed;
      if excess < |removable| {
        removable := removable[..excess];
      }
      assert removable == P.Victims(cleanup, active);
      Unlink(removable);
    }

    method Unlink(records: seq<Cleanup>)
      modifies this`cleanup
      ensures View() == P.After(old(View()), P.Drops(records))
    {
      var i := 0;
      while i < |records|
        invariant i <= |records| && View() == P.After(old(View()), P.Drops(records[..i]))
      {
        DropsInit(records[..i + 1]);
        assert records[..i + 1][..i] == records[..i];
        cleanup := P.DropFrom(cleanup, records[i].key);
        i := i + 1;
      }
      assert records[..i] == records;
    }

    static method IsPending(cleanup: seq<Cleanup>, id: Id) returns (pending: bool)
      ensures pending <==> P.PendingFor(cleanup, id)
    {
      var i := 0;
      while i < |cleanup|
        invariant i <= |cleanup|
        invariant forall j :: 0 <= j < i ==> !(cleanup[j].key.resourceId == id && !cleanup[j].completed)
      {
        if cleanup[i].key.resourceId == id && !cleanup[i].completed {
          return true;
        }
        i := i + 1;
      }
      return false;
    }

    method DeferCleanup(q: Policy, a: P.DeferArgs) returns (outcome: P.Outcome)
      modifies this`cleanup
      ensures View() == P.After(old(View()), P.DeferCleanup(old(View()), q, a).writes)
      ensures outcome == P.DeferCleanup(old(View()), q, a).outcome
    {
      if !NodesOk([a.node], q) || !P.TargetFits(a.action, a.target) {
        return P.Refused;
      }
      var records, ok := Load();
      if !ok || a.resource !in resources {
        return P.Refused;
      }
      var key := CleanupKey(a.resource, resources[a.resource].id, a.node, a.action, a.target);
      if P.Recorded(cleanup, key) {
        return P.Unchanged;
      }
      ghost var drops := P.Prune(cleanup, P.Ids(resources));
      PruneCompleted(P.Ids(resources));
      if |cleanup| >= P.MAX_CLEANUP_RECORDS {
        return P.Refused;
      }
      var record := Cleanup(key, false, 0, 1);
      AfterSplits(old(View()), drops, [P.PutCleanup(record)]);
      AfterSingle(View(), P.PutCleanup(record));
      cleanup := P.PutIn(cleanup, record);
      return P.Done;
    }

    method MayRelease(name: Name, force: bool, now: real) returns (ok: bool)
      ensures ok <==> P.MayRelease(View(), name, now) && (force || P.Releasable(resources[name]))
    {
      var records;
      records, ok := Load();
      if !ok || name !in resources {
        return false;
      }
      var r := resources[name];
      if name in orchestration && (orchestration[name].resourceId != r.id || P.Live(orchestration[name].lease, now)) {
        return false;
      }
      if P.Dependents(resources, name) != {} {
        return false;
      }
      var pending := IsPending(cleanup, r.id);
      return !pending && (force || P.Releasable(r));
    }

    method Release(name: Name, force: bool, now: real) returns (outcome: P.Outcome)
      modifies this`resources, this`orchestration, this`cleanup
      ensures View() == P.After(old(View()), P.Release(old(View()), name, force, now).writes)
      ensures outcome == P.Release(old(View()), name, force, now).outcome
    {
      var ok := MayRelease(name, force, now);
      if !ok {
        return P.Refused;
      }
      DropGuest(name);
      return P.Done;
    }

    /** The record, the orchestration record if there is one, and what pruning then finds. */
    method DropGuest(name: Name)
      requires name in resources
      modifies this`resources, this`orchestration, this`cleanup
      ensures View() == P.After(old(View()),
                                [P.DropResource(name)]
                                    + (if name in old(orchestration) then [P.DropOrchestration(name)] else [])
                                + P.Prune(old(cleanup), P.Ids(old(resources)) - {old(resources)[name].id}))
    {
      ghost var s := View();
      var remaining := P.Ids(resources) - {resources[name].id};
      ghost var held := if name in orchestration then [P.DropOrchestration(name)] else [];
      resources := resources - {name};
      AfterSingle(s, P.DropResource(name));
      ghost var t := View();
      if name in orchestration {
        AfterSingle(t, P.DropOrchestration(name));
        orchestration := orchestration - {name};
      }
      AfterSplits(s, [P.DropResource(name)], held);
      PruneCompleted(remaining);
      AfterSplits(s, [P.DropResource(name)] + held, P.Prune(s.cleanup, remaining));
    }

    /** Whether each node the source is placed on has its copy of the snapshot deleted. */
    static method AllDeleted(placement: seq<Node>, target: Target, done: set<(Node, Action, Target)>) returns (ok: bool)
      ensures ok <==> forall n :: n in placement ==> (n, DeleteSnapshot, target) in done
    {
      var i := 0;
      while i < |placement|
        invariant i <= |placement|
        invariant forall j :: 0 <= j < i ==> (placement[j], DeleteSnapshot, target) in done
      {
        if (placement[i], DeleteSnapshot, target) !in done {
          return false;
        }
        i := i + 1;
      }
      return true;
    }

    static method AccountsFor(r: Resource, source: Resource, done: set<(Node, Action, Target)>) returns (ok: bool)
      requires r.placement != []
      ensures ok <==> P.Accounted(r, source, done)
    {
      if r.owner.Some? && (r.owner.value, DestroyVm, VmTarget(r.vmid)) !in done {
        return false;
      }
      if r.volume.Some? {
        var owner := if r.owner.Some? then r.owner.value else r.placement[0];
        var action := if r.backup.Some? then DestroyOverlay else DestroyVolume;
        if (owner, action, VolumeTarget(r.volume.value)) !in done {
          return false;
        }
      }
      ok := true;
      if r.snapshot.Some? {
        ok := AllDeleted(source.placement, SnapshotTarget(source.vmid, r.snapshot.value.name), done);
      }
    }

    method Finalize(q: Policy, name: Name, id: Id) returns (outcome: P.Outcome)
      modifies this`resources, this`cleanup
      ensures View() == P.After(old(View()), P.Finalize(old(View()), q, name, id).writes)
      ensures outcome == P.Finalize(old(View()), q, name, id).outcome
    {
      var records, ok := Load();
      if !ok {
        return P.Refused;
      }
      if name !in resources {
        PruneCompleted(P.Ids(resources));
        return P.Unchanged;
      }
      var r := resources[name];
      if r.id != id || !name.Stage? || r.state != CleanupPending || SourceOf(name) !in resources {
        return P.Refused;
      }
      var pending := IsPending(cleanup, id);
      if pending {
        return P.Refused;
      }
      ok := AccountsFor(r, resources[SourceOf(name)], P.Evidence(cleanup, id));
      if !ok {
        return P.Refused;
      }
      ok := StillValid(records, name, q);
      if !ok {
        return P.Refused;
      }
      ghost var s := View();
      var remaining := P.Ids(resources) - {id};
      AfterSingle(s, P.DropResource(name));
      resources := resources - {name};
      PruneCompleted(remaining);
      AfterSplits(s, [P.DropResource(name)], P.Prune(s.cleanup, remaining));
      return P.Done;
    }

    /** Whether the registry without one record is valid under the policy. */
    method StillValid(records: seq<Resource>, name: Name, q: Policy) returns (ok: bool)
      requires ListsAll(records, resources) && forall r :: r in records ==> Distinct(Domains(r))
      ensures ok <==> Consistent(resources - {name})
                      && forall n :: n in resources && n != name ==> ValidResource(resources[n], q)
    {
      var remaining := [];
      var fit := true;
      var i := 0;
      while i < |records|
        invariant i <= |records|
        invariant forall r :: r in remaining <==> r in records[..i] && r.name != name
        invariant forall a, b :: 0 <= a < b < |remaining| ==> remaining[a].name != remaining[b].name
        invariant fit <==> forall r :: r in records[..i] && r.name != name ==> ValidResource(r, q)
      {
        assert records[..i + 1] == records[..i] + [records[i]];
        if records[i].name != name {
          NotYet(records, i, remaining);
          remaining := remaining + [records[i]];
          if !ValidResource(records[i], q) {
            fit := false;
          }
        }
        i := i + 1;
      }
      assert records[..i] == records;
      RemainingLists(records, remaining, resources, name);
      ok := ValidateRegistry(remaining);
      ValidatorMeansConsistent(remaining, resources - {name});
      ok := ok && fit;
      forall n | n in resources && n != name ensures resources[n] in records && resources[n].name != name {
      }
    }

    /** What Proxmox shows is applied: stale reservations fail, finished cleanups are
        marked. Everything is decided and validated before anything is written. */
    method Reconcile(q: Policy, stale: seq<Name>, seen: set<CleanupKey>) returns (outcome: P.Outcome)
      modifies this`resources, this`cleanup, this`issued
      ensures View() == P.After(old(View()), P.Reconcile(old(View()), q, stale, seen).writes)
      ensures outcome == P.Reconcile(old(View()), q, stale, seen).outcome
    {
      var records, ok := Load();
      if !ok {
        return P.Refused;
      }
      ghost var s := View();
      var updated, records' := GiveUpStale(records, stale);
      var cleanup' := CompleteSeen(seen);
      ghost var gives, completions := P.GiveUps(resources, stale), P.Completions(cleanup, seen);
      AfterSplits(s, gives, completions);
      GiveUpsElsewhere(s, stale);
      CompletionsElsewhere(s, P.After(s, gives), cleanup, seen);
      ok := ValidateRegistry(records');
      ValidatorMeansConsistent(records', updated);
      var fit := AllFit(records', updated, q);
      if !ok || !fit {
        return P.Refused;
      }
      var active := P.Ids(resources);
      issued := P.After(s, gives).issued;
      resources, cleanup := updated, cleanup';
      assert View() == P.After(s, gives + completions);
      PruneCompleted(active);
      AfterSplits(s, gives + completions, P.Prune(cleanup', active));
      return P.Done;
    }

    method GiveUpStale(records: seq<Resource>, stale: seq<Name>)
      returns (updated: map<Name, Resource>, revised: seq<Resource>)
      requires ListsAll(records, resources) && forall r :: r in records ==> Distinct(Domains(r))
      ensures updated == P.After(View(), P.GiveUps(resources, stale)).resources
      ensures ListsAll(revised, updated) && forall r :: r in revised ==> Distinct(Domains(r))
    {
      updated, revised := resources, records;
      var i := 0;
      while i < |stale|
        invariant i <= |stale| && updated == P.After(View(), P.GiveUps(resources, stale[..i])).resources
        invariant ListsAll(revised, updated) && forall r :: r in revised ==> Distinct(Domains(r))
      {
        assert stale[..i + 1][..i] == stale[..i];
        var name := stale[i];
        if name in resources && P.GivesUp(resources[name]) {
          var r := P.GivenUp(resources[name]);
          assert resources[name] in records && Domains(r) == Domains(resources[name]);
          revised := WithRecord(revised, r, updated);
          updated := updated[r.name := r];
          AfterSplits(View(), P.GiveUps(resources, stale[..i]), [P.PutResource(r)]);
          AfterSingle(P.After(View(), P.GiveUps(resources, stale[..i])), P.PutResource(r));
        }
        i := i + 1;
      }
      assert stale[..i] == stale;
    }

    method CompleteSeen(seen: set<CleanupKey>) returns (updated: seq<Cleanup>)
      ensures updated == P.After(View(), P.Completions(cleanup, seen)).cleanup
    {
      updated := cleanup;
      var i := 0;
      while i < |cleanup|
        invariant i <= |cleanup| && updated == P.After(View(), P.Completions(cleanup[..i], seen)).cleanup
      {
        assert cleanup[..i + 1][..i] == cleanup[..i];
        var c := cleanup[i];
        if c.key in seen && !c.completed {
          var w := P.PutCleanup(P.Completion(c));
          AfterSplits(View(), P.Completions(cleanup[..i], seen), [w]);
          AfterSingle(P.After(View(), P.Completions(cleanup[..i], seen)), w);
          updated := P.PutIn(updated, P.Completion(c));
        }
        i := i + 1;
      }
      assert cleanup[..i] == cleanup;
    }

    // Orchestration ---------------------------------------------------------------------------

    /** The record with the requested contract and lease, unless it is another guest's,
        somebody else holds it, or its contract is another one. */
    static method Renew(record: Orchestration, id: Id, a: P.AcquireArgs) returns (updated: Orchestration, ok: bool)
      ensures ok <==>
                record.resourceId == id && !P.HeldByAnother(record.lease, a)
                && P.SameContract(record, a.network, a.installer)
      ensures ok ==> updated == record.(network := Some(a.network), installer := Some(a.installer),
              lease := Some(P.LeaseFor(a)),
                                        revision := record.revision + 1)
    {
      updated := record;
      if record.resourceId != id {
        return updated, false;
      }
      if record.lease.Some? && record.lease.value.nonce != a.nonce && record.lease.value.expires > a.now.Floor
         && Some(record.lease.value.owner) != a.takeOverFrom {
        return updated, false;
      }
      if updated.network.None? {
        updated := updated.(network := Some(a.network));
      } else if updated.network.value != a.network {
        return updated, false;
      }
      if updated.installer.None? {
        updated := updated.(installer := Some(a.installer));
      } else if updated.installer.value != a.installer {
        return updated, false;
      }
      updated := updated.(revision := updated.revision + 1);
      updated := updated.(lease := Some(Lease(a.nonce, a.owner, a.now.Floor + a.ttl)));
      ok := true;
    }

    method Acquire(a: P.AcquireArgs) returns (outcome: P.Outcome)
      modifies this`orchestration
      ensures View() == P.After(old(View()), P.Acquire(old(View()), a).writes)
      ensures outcome == P.Acquire(old(View()), a).outcome
    {
      if !(60 <= a.ttl <= 172800) || a.initial !in {Unknown, Unstarted} {
        return P.Refused;
      }
      var records, ok := Load();
      if !ok || a.name !in resources || !a.name.Prod? {
        return P.Refused;
      }
      var updated := Orchestration(resources[a.name].id, a.initial, Some(a.network), Some(a.installer),
          Some(P.LeaseFor(a)), 1);
      if a.name in orchestration {
        updated, ok := Renew(orchestration[a.name], resources[a.name].id, a);
        if !ok {
          return P.Refused;
        }
      }
      PutLease(a.name, updated);
      return P.Done;
    }

    method SetPhase(a: P.PhaseArgs) returns (outcome: P.Outcome)
      modifies this`orchestration
      ensures View() == P.After(old(View()), P.SetPhase(old(View()), a).writes)
      ensures outcome == P.SetPhase(old(View()), a).outcome
    {
      var records, ok := Load();
      if !ok || a.name !in resources || !a.name.Prod? || a.name !in orchestration {
        return P.Refused;
      }
      var record := orchestration[a.name];
      if record.resourceId != resources[a.name].id || record.lease.None? || record.lease.value.nonce != a.nonce
         || record.lease.value.expires as real <= a.now {
        return P.Refused;
      }
      if a.phase == record.phase {
        return P.Unchanged;
      }
      if !P.MayFollow(record.phase, a.phase) || (P.Destructive(record.phase, a.phase) && !a.wipe) {
        return P.Refused;
      }
      PutLease(a.name, record.(phase := a.phase, revision := record.revision + 1));
      return P.Done;
    }

    method ReleaseLease(name: Name, nonce: string) returns (outcome: P.Outcome)
      modifies this`orchestration
      ensures View() == P.After(old(View()), P.ReleaseLease(old(View()), name, nonce).writes)
      ensures outcome == P.ReleaseLease(old(View()), name, nonce).outcome
    {
      var records, ok := Load();
      if !ok || name !in resources || !name.Prod? || name !in orchestration
          || orchestration[name].resourceId != resources[name].id {
        return P.Refused;
      }
      var record := orchestration[name];
      if record.lease.None? {
        return P.Unchanged;
      }
      if record.lease.value.nonce != nonce {
        return P.Refused;
      }
      PutLease(name, record.(lease := None, revision := record.revision + 1));
      return P.Done;
    }
  }

  // Lemmas about lists of records ------------------------------------------------------------------

  lemma RevisedLists(records: seq<Resource>, same: seq<Resource>, revised: seq<Resource>, r: Resource, found: bool,
                     all: map<Name, Resource>)
    requires ListsAll(records, all) && |same| == |records|
    requires forall j :: 0 <= j < |same| ==> same[j] == if records[j].name == r.name then r else records[j]
    requires found <==> exists j :: 0 <= j < |records| && records[j].name == r.name
    requires revised == if found then same else same + [r]
    ensures ListsAll(revised, all[r.name := r])
    ensures forall x :: x in revised ==> x == r || x in records
  {
    var after := all[r.name := r];
    forall n | n in after ensures after[n].name == n && after[n] in revised {
      if n != r.name {
        var j :| 0 <= j < |records| && records[j] == all[n];
        assert revised[j] == all[n];
      } else if found {
        var j :| 0 <= j < |records| && records[j].name == r.name;
        assert revised[j] == r;
      }
    }
    forall i, j | 0 <= i < j < |revised| ensures revised[i].name != revised[j].name {
      if j < |records| {
        assert records[i].name != records[j].name;
      }
    }
    forall x | x in revised ensures x.name in after && after[x.name] == x && (x == r || x in records) {
      var j :| 0 <= j < |revised| && revised[j] == x;
      assert j < |records| ==> records[j] in records;
    }
  }

  lemma OnlyHolder(s: Store, allocation: Option<string>, name: Name)
    requires Readable(s) && P.HasAllocation(s, allocation, name)
    ensures forall n :: P.HasAllocation(s, allocation, n) ==> n == name
  {
    forall n | P.HasAllocation(s, allocation, n) ensures n == name {
      assert n != name ==> Compatible(s.resources[n], s.resources[name]);
    }
  }

  lemma NobodyHas(s: Store, records: seq<Resource>, allocation: Option<string>)
    requires ListsAll(records, s.resources) && forall j :: 0 <= j < |records| ==> records[j].allocation != allocation
    ensures forall n :: !P.HasAllocation(s, allocation, n)
  {
    forall n | n in s.resources ensures s.resources[n].allocation != allocation {
      var j :| 0 <= j < |records| && records[j] == s.resources[n];
    }
  }

  lemma CountedAll(records: seq<Resource>, all: map<Name, Resource>, node: Node, counted: set<Name>)
    requires ListsAll(records, all)
    requires forall n :: n in counted <==>
               exists j :: 0 <= j < |records| && records[j].name == n && n.Stage? && records[j].placement == [node]
    ensures counted == P.StagedOn(all, node)
  {
    forall n | n in P.StagedOn(all, node) ensures n in counted {
      var j :| 0 <= j < |records| && records[j] == all[n];
    }
    forall n | n in counted ensures n in P.StagedOn(all, node) {
      var j :| 0 <= j < |records| && records[j].name == n && n.Stage? && records[j].placement == [node];
      assert records[j] in records;
    }
  }

  predicate Claims(r: Resource, source: Name, snapshot: string) {
    r.name.Stage? && SourceOf(r.name) == source && r.snapshot.Some? && r.snapshot.value.name == snapshot
  }

  lemma NotTaken(s: Store, records: seq<Resource>, source: Name, snapshot: string)
    requires ListsAll(records, s.resources) && forall j :: 0 <= j < |records| ==> !Claims(records[j], source, snapshot)
    ensures !P.Taken(s, source, snapshot)
  {
    forall n | n in s.resources ensures !Claims(s.resources[n], source, snapshot) {
      var j :| 0 <= j < |records| && records[j] == s.resources[n];
    }
  }

  predicate KeepsAlive(r: Resource, source: Name, snapshot: string) {
    Claims(r, source, snapshot) && r.state !in {CleanupPending, Failed}
  }

  lemma SomebodyLives(s: Store, records: seq<Resource>, source: Name, snapshot: string)
    requires ListsAll(records, s.resources)
    ensures (exists j :: 0 <= j < |records| && KeepsAlive(records[j], source, snapshot))
            <==> exists n :: P.LiveHolder(s, source, snapshot, n)
  {
    if j :| 0 <= j < |records| && KeepsAlive(records[j], source, snapshot) {
      assert records[j] in records;
      assert P.LiveHolder(s, source, snapshot, records[j].name);
    }
    if n :| P.LiveHolder(s, source, snapshot, n) {
      var j :| 0 <= j < |records| && records[j] == s.resources[n];
      assert KeepsAlive(records[j], source, snapshot);
    }
  }

  lemma NotYet(records: seq<Resource>, i: nat, remaining: seq<Resource>)
    requires i < |records| && forall r :: r in remaining ==> r in records[..i]
    requires forall a, b :: 0 <= a < b < |records| ==> records[a].name != records[b].name
    ensures forall j :: 0 <= j < |remaining| ==> remaining[j].name != records[i].name
  {
    forall j | 0 <= j < |remaining| ensures remaining[j].name != records[i].name {
      assert remaining[j] in records[..i];
      var k :| 0 <= k < i && records[k] == remaining[j];
    }
  }

  lemma RemainingLists(records: seq<Resource>, remaining: seq<Resource>, all: map<Name, Resource>, name: Name)
    requires ListsAll(records, all) && forall r :: r in remaining <==> r in records && r.name != name
    requires forall i, j :: 0 <= i < j < |remaining| ==> remaining[i].name != remaining[j].name
    ensures ListsAll(remaining, all - {name})
  {
  }

  /** Give-ups touch only the resources. */
  lemma {:induction false} GiveUpsElsewhere(s: Store, stale: seq<Name>)
    ensures var t := P.After(s, P.GiveUps(s.resources, stale)); t == s.(resources := t.resources, issued := t.issued)
  {
    if stale != [] {
      GiveUpsElsewhere(s, stale[..|stale| - 1]);
      var name := stale[|stale| - 1];
      if name in s.resources && P.GivesUp(s.resources[name]) {
        var init := P.GiveUps(s.resources, stale[..|stale| - 1]);
        var w := P.PutResource(P.GivenUp(s.resources[name]));
        AfterSplits(s, init, [w]);
        AfterSingle(P.After(s, init), w);
      }
    }
  }

  /** Completions touch only the cleanup list, whatever else was written before. */
  lemma {:induction false} CompletionsElsewhere(s: Store, t: Store, cleanup: seq<Cleanup>, seen: set<CleanupKey>)
    requires t.cleanup == s.cleanup
    ensures var u := P.After(t, P.Completions(cleanup, seen));
            u == t.(cleanup := P.After(s, P.Completions(cleanup, seen)).cleanup)
  {
    if cleanup != [] {
      CompletionsElsewhere(s, t, cleanup[..|cleanup| - 1], seen);
      var c := cleanup[|cleanup| - 1];
      if c.key in seen && !c.completed {
        var init := P.Completions(cleanup[..|cleanup| - 1], seen);
        var w := P.PutCleanup(P.Completion(c));
        AfterSplits(s, init, [w]);
        AfterSplits(t, init, [w]);
        AfterSingle(P.After(s, init), w);
        AfterSingle(P.After(t, init), w);
      }
    }
  }
}
