/** What each registry command writes.

    A command reads the registry under the allocator lock and then replaces or
    removes files one at a time; each replacement is atomic, and the process may die
    between any two. A command's plan is therefore the list of its writes, decided
    by the registry it read and by the policy it read. Most commands read the policy
    before they take the lock, so `policy` is a separate argument.
 */
module RegistryPlans {
  import opened Common
  import opened RegistryTypes
  import opened RegistryRules
  import T = Text

  const MAX_COMPLETED_CLEANUP_RECORDS := 512
  const MAX_CLEANUP_RECORDS := 4096

  // Files -----------------------------------------------------------------------------

  datatype Write =
    | PutResource(record: Resource)
    | DropResource(name: Name)
    | PutCleanup(cleanup: Cleanup)
    | DropCleanup(key: CleanupKey)
    | PutOrchestration(name: Name, orchestration: Orchestration)
    | DropOrchestration(name: Name)
    | PutPolicy(policy: Policy)

  datatype Outcome = Refused | Unchanged | Done
  datatype Plan = Plan(outcome: Outcome, writes: seq<Write>)

  const REFUSED := Plan(Refused, [])
  const UNCHANGED := Plan(Unchanged, [])

  /** Where a cleanup record is kept, or the end. */
  function IndexOf(cleanup: seq<Cleanup>, key: CleanupKey): (i: nat)
    ensures i <= |cleanup| && (i < |cleanup| ==> cleanup[i].key == key)
    ensures forall j :: 0 <= j < i ==> cleanup[j].key != key
  {
    if cleanup == [] || cleanup[0].key == key then 0 else 1 + IndexOf(cleanup[1..], key)
  }

  predicate Recorded(cleanup: seq<Cleanup>, key: CleanupKey) {
    IndexOf(cleanup, key) < |cleanup|
  }

  function PutIn(cleanup: seq<Cleanup>, c: Cleanup): seq<Cleanup> {
    var i := IndexOf(cleanup, c.key);
    if i < |cleanup| then cleanup[i := c] else cleanup + [c]
  }

  function DropFrom(cleanup: seq<Cleanup>, key: CleanupKey): seq<Cleanup> {
    var i := IndexOf(cleanup, key);
    if i < |cleanup| then cleanup[..i] + cleanup[i + 1..] else cleanup
  }

  function Perform(s: Store, w: Write): Store {
    match w
    case PutResource(r) => s.(resources := s.resources[r.name := r], issued := s.issued + {r.id})
    case DropResource(name) => s.(resources := s.resources - {name})
    case PutCleanup(c) => s.(cleanup := PutIn(s.cleanup, c))
    case DropCleanup(key) => s.(cleanup := DropFrom(s.cleanup, key))
    case PutOrchestration(name, o) => s.(orchestration := s.orchestration[name := o])
    case DropOrchestration(name) => s.(orchestration := s.orchestration - {name})
    case PutPolicy(p) => s.(policy := p)
  }

  function After(s: Store, writes: seq<Write>): Store {
    if writes == [] then s else Perform(After(s, writes[..|writes| - 1]), writes[|writes| - 1])
  }

  // Common parts ------------------------------------------------------------------------

  /** A replacement of one record is written only when it and the whole are valid. */
  ghost function Replace(s: Store, policy: Policy, r: Resource): Plan {
    if ValidResource(r, policy) && Consistent(s.resources[r.name := r]) then Plan(Done, [PutResource(r)]) else REFUSED
  }

  predicate Expected(expected: Option<nat>, r: Resource) {
    expected.Some? ==> expected.value == r.revision
  }

  function Revised(r: Resource): Resource {
    r.(revision := r.revision + 1)
  }

  ghost predicate HasAllocation(s: Store, allocation: Option<string>, name: Name) {
    allocation.Some? && name in s.resources && s.resources[name].allocation == allocation
  }

  /** An allocation id that was already used: its request must be the same one. */
  ghost function Retry(s: Store, name: Name, request: Request, production: bool): Plan
    requires name in s.resources
  {
    if name.Prod? == production && s.resources[name].request == request then UNCHANGED else REFUSED
  }

  function Base(newId: Id, allocation: Option<string>, request: Request, name: Name, vmid: nat, octet: int,
                purpose: string,
                primary: string, aliases: seq<string>, stagingBase: string, placement: seq<Node>, initial: Node,
                backup: Option<Backup>): Resource
  {
    Resource(newId, allocation, request, name, vmid, octet, MacFor(name), Reserved, purpose, primary, aliases,
        stagingBase,
             placement, initial, None, [], [], None, None, backup, None, 1)
  }

  /** The lowest number from i to last whose name is free. */
  function FirstFreeProd(names: set<Name>, i: nat, last: int): (r: Option<nat>)
    ensures r.Some? ==> i <= r.value <= last && Prod(r.value) !in names
                        && forall j :: i <= j < r.value ==> Prod(j) in names
    ensures r.None? ==> forall j :: i <= j <= last ==> Prod(j) in names
    decreases last - i
  {
    if i > last then None else if Prod(i) !in names then Some(i) else FirstFreeProd(names, i + 1, last)
  }

  function FirstFreeStage(names: set<Name>, n: nat, i: nat, last: int): (r: Option<nat>)
    ensures r.Some? ==> i <= r.value <= last && Stage(r.value, n) !in names
                        && forall j :: i <= j < r.value ==> Stage(j, n) in names
    ensures r.None? ==> forall j :: i <= j <= last ==> Stage(j, n) in names
    decreases last - i
  {
    if i > last then None else if Stage(i, n) !in names then Some(i) else FirstFreeStage(names, n, i + 1, last)
  }

  /** The names of all guests copied from one production guest. */
  function Dependents(resources: map<Name, Resource>, name: Name): set<Name> {
    set d | d in resources && d.Stage? && SourceOf(d) == name
  }

  // Allocation -----------------------------------------------------------------------------

  datatype ProdArgs = ProdArgs(vmid: nat, purpose: string, primary: string, aliases: seq<string>,
                               stagingBase: Option<string>,
                               placement: seq<Node>, initial: Option<Node>, allocation: Option<string>,
                                   index: Option<nat>,
                               newId: Id)

  function StagingBase(a: ProdArgs): string {
    if a.stagingBase.Some? then a.stagingBase.value else "staging." + a.primary
  }

  function InitialNode(a: ProdArgs): Node
    requires a.placement != []
  {
    if a.initial.Some? then a.initial.value else a.placement[0]
  }

  predicate ProdArgsOk(a: ProdArgs, policy: Policy) {
    && a.placement != [] && NodesOk(a.placement, policy) && InitialNode(a) in a.placement
    && Distinct(a.aliases) && a.primary !in a.aliases && StagingBase(a) !in [a.primary] + a.aliases
    && 100 <= a.vmid <= 999_999_999
  }

  function ProdRequest(a: ProdArgs): Request
    requires a.placement != []
  {
    ProductionRequest(a.vmid, a.purpose, a.primary, a.aliases, StagingBase(a), a.placement, InitialNode(a))
  }

  /** The slot a new production guest gets: the one asked for, or the lowest free. */
  function ProdIndex(a: ProdArgs, names: set<Name>, policy: Policy): Option<nat> {
    if a.index.None? then FirstFreeProd(names, 1, policy.slots.maxProduction)
    else if 1 <= a.index.value <= policy.slots.maxProduction && Prod(a.index.value) !in names then a.index
    else None
  }

  function NewProd(a: ProdArgs, index: nat, policy: Policy): Resource
    requires a.placement != []
  {
    Base(a.newId, a.allocation, ProdRequest(a), Prod(index), a.vmid, SlotOctet(policy, Prod(index)), a.purpose,
        a.primary, a.aliases,
         StagingBase(a), a.placement, InitialNode(a), None)
  }

  ghost function AllocateProd(s: Store, policy: Policy, a: ProdArgs): Plan {
    if !ProdArgsOk(a, policy) || !Readable(s) then REFUSED
    else if exists n :: HasAllocation(s, a.allocation, n)
    then var n :| HasAllocation(s, a.allocation, n); Retry(s, n, ProdRequest(a), true)
    else
      var index := ProdIndex(a, s.resources.Keys, policy);
      if index.None? then REFUSED else Replace(s, policy, NewProd(a, index.value, policy))
  }

  datatype StagingArgs = StagingArgs(source: Name, vmid: nat, node: Node, limit: int, allocation: Option<string>,
                                     storage: Option<string>, point: Option<RestorePoint>, newId: Id)

  function BackupOf(a: StagingArgs): Option<Backup> {
    if a.storage.Some? && a.point.Some? then Some(Backup(a.storage.value, a.point.value)) else None
  }

  /** The production guest can be copied to the node now. */
  predicate CanStage(source: Resource, a: StagingArgs) {
    && source.name.Prod? && a.node in source.placement && source.owner != Some(a.node)
    && (a.storage.Some? <==> a.point.Some?)
    && (a.storage.None? ==> source.instant.None?)
  }

  function StagedOn(resources: map<Name, Resource>, node: Node): set<Name> {
    set n | n in resources && n.Stage? && resources[n].placement == [node]
  }

  function NameText(name: Name): string {
    match name
    case Prod(n) => "prod" + T.Decimal(n)
    case Stage(k, n) => "stage" + T.Decimal(k) + "prod" + T.Decimal(n)
  }

  /** A staging guest answers under its source's primary domain. */
  function StagingDomain(name: Name, primary: string): string {
    NameText(name) + "." + primary
  }

  function NewStaging(a: StagingArgs, k: nat, source: Resource, policy: Policy): Resource {
    var name := Stage(k, source.name.n);
    Base(a.newId, a.allocation, StagingRequest(source.name, a.vmid, [a.node], BackupOf(a)), name, a.vmid,
        SlotOctet(policy, name),
         source.purpose, StagingDomain(name, source.primary), [], source.stagingBase, [a.node], a.node, BackupOf(a))
  }

  ghost function AllocateStaging(s: Store, policy: Policy, a: StagingArgs): Plan {
    if !NodesOk([a.node], policy) || !(100 <= a.vmid <= 999_999_999) || !Readable(s) then REFUSED
    else if a.source !in s.resources || !CanStage(s.resources[a.source], a) then REFUSED
    else
      var source := s.resources[a.source];
      if exists n :: HasAllocation(s, a.allocation, n)
      then var n :| HasAllocation(s, a.allocation, n);
           Retry(s, n, StagingRequest(a.source, a.vmid, [a.node], BackupOf(a)), false)
      else if a.limit <= 0 || |StagedOn(s.resources, a.node)| >= a.limit then REFUSED
      else
        var k := FirstFreeStage(s.resources.Keys, a.source.n, 1, policy.slots.maxStaging);
        if k.None? then REFUSED else Replace(s, policy, NewStaging(a, k.value, source, policy))
  }

  // Slots ----------------------------------------------------------------------------------------

  ghost function UpdateSlots(s: Store, slots: Slots): Plan {
    var updated := s.policy.(slots := slots);
    if slots == s.policy.slots then UNCHANGED
    else if ValidPolicy(updated) && Readable(s)
        && (forall n :: n in s.resources ==> ValidResource(s.resources[n], updated))
    then Plan(Done, [PutPolicy(updated)])
    else REFUSED
  }

  // Staging snapshots ------------------------------------------------------------------------------

  datatype IntentArgs = IntentArgs(name: Name, snapshot: string, owner: Node, root: Volume, volumes: seq<Volume>,
                                   expected: Option<nat>)

  function IntentSnapshot(a: IntentArgs, source: Name): Snapshot {
    Snapshot(a.snapshot, a.owner, map[], Some(Claim(source, a.root, a.volumes, map[], false, [a.name], 1)))
  }

  /** Another staging guest already claims a snapshot of that name. */
  ghost predicate Taken(s: Store, source: Name, snapshot: string) {
    exists n :: n in s.resources && n.Stage? && SourceOf(n) == source
                && s.resources[n].snapshot.Some? && s.resources[n].snapshot.value.name == snapshot
  }

  /** The production source of a staging guest, when both are there. */
  ghost predicate StagedFrom(s: Store, name: Name) {
    name in s.resources && name.Stage? && SourceOf(name) in s.resources
  }

  ghost function SnapshotIntent(s: Store, policy: Policy, a: IntentArgs): Plan {
    if a.volumes == [] || !Distinct(a.volumes) || a.root !in a.volumes || !Readable(s)
        || !StagedFrom(s, a.name) then REFUSED
    else
      var current := s.resources[a.name];
      var source := s.resources[SourceOf(a.name)];
      var intent := IntentSnapshot(a, source.name);
      if source.volume != Some(a.root) || a.owner !in source.placement then REFUSED
      else if current.snapshot == Some(intent) then UNCHANGED
      else if current.snapshot.Some? || !Expected(a.expected, current) || current.state != Snapshotting
              || Taken(s, source.name, a.snapshot) then REFUSED
      else Replace(s, policy, Revised(current.(snapshot := Some(intent))))
  }

  datatype RecordArgs = RecordArgs(name: Name, snapshot: string, owner: Node, root: Volume, guids: map<Node, string>,
                                   volumeGuids: map<Volume, map<Node, string>>, expected: Option<nat>)

  /** The GUIDs cover every volume on every node, alike on all nodes. */
  predicate GuidsCover(a: RecordArgs, claim: Claim, placement: seq<Node>) {
    && a.volumeGuids.Keys == SetOf(claim.volumes)
    && (forall v :: v in a.volumeGuids ==> a.volumeGuids[v].Keys == SetOf(placement) && OneGuid(a.volumeGuids[v]))
    && a.root in a.volumeGuids && a.guids == a.volumeGuids[a.root]
  }

  ghost function RecordSnapshot(s: Store, policy: Policy, a: RecordArgs): Plan {
    if !Readable(s) || !StagedFrom(s, a.name) then REFUSED
    else
      var current := s.resources[a.name];
      var source := s.resources[SourceOf(a.name)];
      if source.volume != Some(a.root) || a.owner !in source.placement then REFUSED
      else if current.snapshot.None? || current.snapshot.value.claim.None? then REFUSED
      else
        var intent := current.snapshot.value;
        var claim := intent.claim.value;
        var verified := intent.(guids := a.guids,
            claim := Some(claim.(volumeGuids := a.volumeGuids, verified := true)));
        if intent.name != a.snapshot || intent.owner != a.owner || claim.source != source.name || claim.root != a.root
           || !GuidsCover(a, claim, source.placement) then REFUSED
        else if intent == verified then UNCHANGED
        else if claim.verified || !Expected(a.expected, current)
            || current.state !in {Snapshotting, Replicating} then REFUSED
        else Replace(s, policy, Revised(current.(snapshot := Some(verified))))
  }

  datatype ShareArgs = ShareArgs(name: Name, donor: Name, expected: Option<nat>)

  /** A guest that still keeps the snapshot alive. */
  ghost predicate LiveHolder(s: Store, source: Name, snapshot: string, n: Name) {
    && n in s.resources && n.Stage? && SourceOf(n) == source
    && s.resources[n].snapshot.Some? && s.resources[n].snapshot.value.name == snapshot
    && s.resources[n].state !in {CleanupPending, Failed}
  }

  ghost function ShareSnapshot(s: Store, policy: Policy, a: ShareArgs): Plan {
    if !Readable(s) || a.name !in s.resources || a.donor !in s.resources || !a.name.Stage? || !a.donor.Stage?
       || a.name == a.donor || a.name.n != a.donor.n || !StagedFrom(s, a.name) then REFUSED
    else
      var current := s.resources[a.name];
      var source := s.resources[SourceOf(a.name)];
      var held := s.resources[a.donor].snapshot;
      if held.None? || !Verified(held.value) || Some(held.value.claim.value.root) != source.volume
         || !(exists n :: LiveHolder(s, source.name, held.value.name, n)) then REFUSED
      else
        var shared := held.value.(claim := Some(held.value.claim.value.(dependents := [a.name], refcount := 1)));
        if current.snapshot == Some(shared) then UNCHANGED
        else if current.snapshot.Some? || !Expected(a.expected, current) || current.state != Reserved then REFUSED
        else Replace(s, policy, Revised(current.(snapshot := Some(shared))))
  }

  // Update --------------------------------------------------------------------------------------------

  predicate MayBecome(production: bool, from: State, to: State) {
    match from
    case Reserved => to in (if production then {Provisioning, Failed, CleanupPending}
        else {Snapshotting, Cloning, Failed, CleanupPending})
    case Provisioning => production && to in {Stopped, Replicating, Failed, CleanupPending}
    case Snapshotting => !production && to in {Replicating, Cloning, Failed, CleanupPending}
    case Replicating => to in (if production then {Stopped, Ready, Failed, CleanupPending}
        else {Cloning, Failed, CleanupPending})
    case Cloning => !production && to in {Patching, Failed, CleanupPending}
    case Patching => !production && to in {Stopped, Ready, Failed, CleanupPending}
    case Stopped => to in {Ready, Active, Failed, CleanupPending} || (production && to in {Provisioning, Replicating})
    case Ready => to in {Active, Stopped, Failed, CleanupPending}
    case Active => to in {Stopping, Stopped, Failed}
    case Stopping => to in {Stopped, Failed, CleanupPending}
    case Failed => to in (if production then {Provisioning, Stopped, CleanupPending}
                          else {Snapshotting, Cloning, Patching, Stopped, CleanupPending})
    case CleanupPending => to == Failed
  }

  /** An absent option leaves its field alone; `other` stands for the options about
      sizes and monitoring, which are not part of this model. */
  datatype UpdateArgs = UpdateArgs(
    expected: Option<nat>, state: Option<State>, placement: Option<seq<Node>>, initial: Option<Node>, clearOwner: bool,
    owner: Option<Node>, purpose: Option<string>, primary: Option<string>, aliases: Option<seq<string>>,
        clearAliases: bool,
    stagingBase: Option<string>, haNodes: Option<seq<Node>>, targets: Option<seq<Node>>, clearInstant: bool,
    instantStorage: Option<string>, instantPoint: Option<RestorePoint>, instantPhase: Option<RestorePhase>,
        clearVolume: bool,
    volume: Option<Volume>, clearSnapshot: bool, snapshotName: Option<string>, snapshotOwner: Option<Node>,
    snapshotGuids: map<Node, string>, other: bool)

  function Or<V>(o: Option<V>, other: V): V {
    if o.Some? then o.value else other
  }

  predicate AcceptsPlacement(cur: Resource, a: UpdateArgs, policy: Policy) {
    var placement := Or(a.placement, cur.placement);
    && (a.placement.Some? ==>
          && placement != [] && NodesOk(placement, policy) && (cur.name.Stage? ==> |placement| == 1)
          && (cur.owner.Some? ==> cur.owner.value in placement))
    && (a.initial.Some? ==> a.initial.value in placement)
    && (!a.clearOwner && a.owner.Some? ==> a.owner.value in placement)
  }

  predicate AcceptsRoles(cur: Resource, a: UpdateArgs, policy: Policy) {
    var placement := Or(a.placement, cur.placement);
    && (a.haNodes.Some? ==>
          NodesOk(a.haNodes.value, policy) && Within(a.haNodes.value, placement)
              && (cur.name.Stage? ==> a.haNodes.value == []))
    && (a.targets.Some? ==> NodesOk(a.targets.value, policy) && Within(a.targets.value, placement))
  }

  function NewNodes(cur: Resource, a: UpdateArgs): Resource
    requires a.placement.Some? ==> a.placement.value != []
  {
    var placement := Or(a.placement, cur.placement);
    var initial := if a.placement.Some? && cur.initial !in placement then placement[0] else cur.initial;
    cur.(placement := placement, initial := Or(a.initial, initial),
         owner := if a.clearOwner then None else if a.owner.Some? then a.owner else cur.owner,
         haNodes := Or(a.haNodes, cur.haNodes), targets := Or(a.targets, cur.targets))
  }

  predicate AcceptsDomains(cur: Resource, a: UpdateArgs, dependents: set<Name>) {
    && (a.purpose.Some? ==> cur.name.Prod? && dependents == {})
    && (a.aliases.Some? ==> Distinct(a.aliases.value) && Or(a.primary, cur.primary) !in a.aliases.value)
    && (a.stagingBase.Some? ==> cur.name.Prod? && dependents == {})
  }

  function NewDomains(cur: Resource, a: UpdateArgs): Resource {
    cur.(purpose := Or(a.purpose, cur.purpose), primary := Or(a.primary, cur.primary),
         aliases := if a.aliases.Some? then a.aliases.value else if a.clearAliases then [] else cur.aliases,
         stagingBase := Or(a.stagingBase, cur.stagingBase))
  }

  function Order(p: RestorePhase): nat {
    match p
    case Planned => 0
    case Freed => 1
    case Switched => 2
  }

  predicate AsksInstant(a: UpdateArgs) {
    a.instantStorage.Some? || a.instantPoint.Some? || a.instantPhase.Some?
  }

  /** The mark a request starts from: the present one, or a new planned one. */
  function InstantBase(cur: Resource, a: UpdateArgs): Option<InstantRestore> {
    if cur.instant.Some? then cur.instant
    else if a.instantStorage.Some? && a.instantPoint.Some?
    then Some(InstantRestore(a.instantStorage.value, a.instantPoint.value, Planned))
    else None
  }

  predicate AcceptsInstant(cur: Resource, a: UpdateArgs, prodLinked: bool) {
    if a.clearInstant then cur.instant.Some? ==> cur.instant.value.phase != Freed
    else AsksInstant(a) ==>
      && cur.name.Prod? && InstantBase(cur, a).Some? && (cur.instant.None? ==> !prodLinked)
      && var base := InstantBase(cur, a).value;
      && (a.instantStorage.Some? ==> a.instantStorage.value == base.storage)
      && (a.instantPoint.Some? ==> a.instantPoint.value == base.point)
      && (a.instantPhase.Some? ==> Order(a.instantPhase.value) >= Order(base.phase))
  }

  function NewInstant(cur: Resource, a: UpdateArgs): Option<InstantRestore> {
    if a.clearInstant then None
    else if !AsksInstant(a) || InstantBase(cur, a).None? then cur.instant
    else Some(InstantBase(cur, a).value.(phase := Or(a.instantPhase, InstantBase(cur, a).value.phase)))
  }

  /** A production guest's staging guests that depend on one of its snapshots. */
  ghost predicate SnapshotDependents(s: Store, name: Name) {
    exists d :: d in Dependents(s.resources, name) && s.resources[d].snapshot.Some?
  }

  ghost predicate ProdLinked(s: Store, name: Name) {
    exists d :: d in Dependents(s.resources, name) && s.resources[d].backup.None?
  }

  predicate AcceptsVolume(cur: Resource, a: UpdateArgs, snapshotDependents: bool) {
    cur.name.Prod? && (a.clearVolume || a.volume.Some?) && snapshotDependents ==>
      (if a.clearVolume then None else a.volume) == cur.volume
  }

  function NewVolume(cur: Resource, a: UpdateArgs): Option<Volume> {
    if a.clearVolume then None else if a.volume.Some? then a.volume else cur.volume
  }

  predicate AsksSnapshot(a: UpdateArgs) {
    a.snapshotName.Some? || a.snapshotOwner.Some? || a.snapshotGuids != map[]
  }

  predicate AcceptsSnapshot(cur: Resource, a: UpdateArgs) {
    !a.clearSnapshot && AsksSnapshot(a) ==>
      && (cur.snapshot.None? ==> a.snapshotName.Some? && a.snapshotOwner.Some?)
      && (a.snapshotOwner.Some? ==> a.snapshotOwner.value in Or(a.placement, cur.placement))
  }

  function NewSnapshot(cur: Resource, a: UpdateArgs): Option<Snapshot> {
    if a.clearSnapshot then None
    else if !AsksSnapshot(a) then cur.snapshot
    else if cur.snapshot.Some? then
      Some(cur.snapshot.value.(name := Or(a.snapshotName, cur.snapshot.value.name),
                               owner := Or(a.snapshotOwner, cur.snapshot.value.owner),
                               guids := cur.snapshot.value.guids + a.snapshotGuids))
    else if a.snapshotName.Some? && a.snapshotOwner.Some?
    then Some(Snapshot(a.snapshotName.value, a.snapshotOwner.value, a.snapshotGuids, None))
    else None
  }

  /** Whether the request sets anything. An instant restore's repeated step does not. */
  predicate ChangesFirst(cur: Resource, a: UpdateArgs) {
    || (a.state.Some? && a.state.value != cur.state)
    || a.placement.Some? || a.initial.Some? || a.clearOwner || a.owner.Some? || a.haNodes.Some? || a.targets.Some?
    || a.purpose.Some? || a.primary.Some? || a.aliases.Some? || a.clearAliases || a.stagingBase.Some?
  }

  predicate ChangesRest(cur: Resource, a: UpdateArgs) {
    || NewInstant(cur, a) != cur.instant
    || a.clearVolume || a.volume.Some? || a.clearSnapshot || AsksSnapshot(a) || a.other
  }

  predicate AcceptsFirst(cur: Resource, a: UpdateArgs, policy: Policy, dependents: set<Name>) {
    && Expected(a.expected, cur)
    && (a.state.Some? && a.state.value != cur.state ==> MayBecome(cur.name.Prod?, cur.state, a.state.value))
    && AcceptsPlacement(cur, a, policy) && AcceptsRoles(cur, a, policy) && AcceptsDomains(cur, a, dependents)
  }

  predicate AcceptsRest(cur: Resource, a: UpdateArgs, prodLinked: bool, snapshotDependents: bool) {
    AcceptsInstant(cur, a, prodLinked) && AcceptsVolume(cur, a, snapshotDependents) && AcceptsSnapshot(cur, a)
  }

  function Updated(cur: Resource, a: UpdateArgs): Resource
    requires a.placement.Some? ==> a.placement.value != []
  {
    Revised(NewDomains(NewNodes(cur, a), a).(state := Or(a.state, cur.state), instant := NewInstant(cur, a),
                                             volume := NewVolume(cur, a), snapshot := NewSnapshot(cur, a)))
  }

  ghost function Update(s: Store, policy: Policy, name: Name, a: UpdateArgs): Plan {
    if !Readable(s) || name !in s.resources then REFUSED
    else
      var cur := s.resources[name];
      if !AcceptsFirst(cur, a, policy, Dependents(s.resources, name))
         || !AcceptsRest(cur, a, ProdLinked(s, name), SnapshotDependents(s, name)) then REFUSED
      else if !ChangesFirst(cur, a) && !ChangesRest(cur, a)
      then if a.clearInstant || AsksInstant(a) then UNCHANGED else REFUSED
      else Replace(s, policy, Updated(cur, a))
  }

  // Owners ------------------------------------------------------------------------------------------------

  predicate Live(lease: Option<Lease>, now: real) {
    lease.Some? && lease.value.expires as real > now
  }

  datatype OwnerArgs = OwnerArgs(name: Name, node: Node, targets: Option<seq<Node>>, now: real)

  function OtherNodes(placement: seq<Node>, node: Node): seq<Node> {
    if placement == [] then [] else
      var init := OtherNodes(placement[..|placement| - 1], node);
      if placement[|placement| - 1] == node then init else init + [placement[|placement| - 1]]
  }

  predicate TargetsOk(targets: seq<Node>, cur: Resource, node: Node, policy: Policy) {
    NodesOk(targets, policy) && node !in targets && Within(targets, cur.placement)
  }

  ghost function RecordOwner(s: Store, policy: Policy, a: OwnerArgs): Plan {
    if !NodesOk([a.node], policy) || !Readable(s) || a.name !in s.resources || !a.name.Prod? then REFUSED
    else
      var cur := s.resources[a.name];
      var targets := Or(a.targets, OtherNodes(cur.placement, a.node));
      if cur.state != Active then UNCHANGED
      else if a.node !in cur.placement then REFUSED
      else if a.name in s.orchestration && Live(s.orchestration[a.name].lease, a.now) then UNCHANGED
      else if a.targets.Some? && !TargetsOk(targets, cur, a.node, policy) then REFUSED
      else if cur.owner == Some(a.node) && cur.targets == targets then UNCHANGED
      else Replace(s, policy, Revised(cur.(owner := Some(a.node), targets := targets)))
  }

  // Orchestration -------------------------------------------------------------------------------------------

  datatype AcquireArgs = AcquireArgs(name: Name, nonce: string, owner: string, takeOverFrom: Option<string>, ttl: nat,
                                     initial: Phase, network: Network, installer: Installer, now: real)

  predicate Orchestrated(s: Store, name: Name) {
    name in s.resources && name.Prod?
  }

  /** Somebody else holds the lease and is not the one to take over from. */
  predicate HeldByAnother(lease: Option<Lease>, a: AcquireArgs) {
    && lease.Some? && lease.value.nonce != a.nonce && lease.value.expires > a.now.Floor
    && Some(lease.value.owner) != a.takeOverFrom
  }

  function LeaseFor(a: AcquireArgs): Lease {
    Lease(a.nonce, a.owner, a.now.Floor + a.ttl)
  }

  predicate SameContract(o: Orchestration, network: Network, installer: Installer) {
    (o.network.Some? ==> o.network.value == network) && (o.installer.Some? ==> o.installer.value == installer)
  }

  ghost function Acquire(s: Store, a: AcquireArgs): Plan {
    if !(60 <= a.ttl <= 172800) || a.initial !in {Unknown, Unstarted} || !Readable(s)
        || !Orchestrated(s, a.name) then REFUSED
    else if a.name !in s.orchestration then
      Plan(Done, [PutOrchestration(a.name, Orchestration(s.resources[a.name].id, a.initial, Some(a.network),
          Some(a.installer),
                                                         Some(LeaseFor(a)), 1))])
    else
      var o := s.orchestration[a.name];
      if o.resourceId != s.resources[a.name].id || HeldByAnother(o.lease, a) || !SameContract(o, a.network, a.installer)
      then REFUSED
      else Plan(Done, [PutOrchestration(a.name, o.(network := Some(a.network), installer := Some(a.installer),
                                                   lease := Some(LeaseFor(a)), revision := o.revision + 1))])
  }

  predicate MayFollow(from: Phase, to: Phase) {
    match from
    case Unknown => to in {MediaAttached, InstalledConfirmed}
    case Unstarted => to in {MediaAttached, InstalledConfirmed}
    case MediaAttached => to == InstallerStarted
    case InstallerStarted => to in {MediaAttached, InstalledConfirmed}
    case InstalledConfirmed => to == GuestVerified
    case GuestVerified => to == NetworkFinalized
    case NetworkFinalized => false
  }

  predicate Destructive(from: Phase, to: Phase) {
    from in {Unknown, InstallerStarted} && to == MediaAttached
  }

  datatype PhaseArgs = PhaseArgs(name: Name, nonce: string, phase: Phase, wipe: bool, now: real)

  ghost predicate HasOrchestration(s: Store, name: Name) {
    && Readable(s) && Orchestrated(s, name) && name in s.orchestration
    && s.orchestration[name].resourceId == s.resources[name].id
  }

  ghost function SetPhase(s: Store, a: PhaseArgs): Plan {
    if !HasOrchestration(s, a.name) then REFUSED
    else
      var o := s.orchestration[a.name];
      if !Live(o.lease, a.now) || o.lease.value.nonce != a.nonce then REFUSED
      else if a.phase == o.phase then UNCHANGED
      else if !MayFollow(o.phase, a.phase) || (Destructive(o.phase, a.phase) && !a.wipe) then REFUSED
      else Plan(Done, [PutOrchestration(a.name, o.(phase := a.phase, revision := o.revision + 1))])
  }

  ghost function ReleaseLease(s: Store, name: Name, nonce: string): Plan {
    if !HasOrchestration(s, name) then REFUSED
    else
      var o := s.orchestration[name];
      if o.lease.None? then UNCHANGED
      else if o.lease.value.nonce != nonce then REFUSED
      else Plan(Done, [PutOrchestration(name, o.(lease := None, revision := o.revision + 1))])
  }

  // Deferred cleanup --------------------------------------------------------------------------------------------

  function CompletedOf(cleanup: seq<Cleanup>): seq<Cleanup> {
    if cleanup == [] then [] else
      var init := CompletedOf(cleanup[..|cleanup| - 1]);
      if cleanup[|cleanup| - 1].completed then init + [cleanup[|cleanup| - 1]] else init
  }

  /** Records whose resource is gone. */
  function Gone(cleanup: seq<Cleanup>, active: set<Id>): seq<Cleanup> {
    if cleanup == [] then [] else
      var init := Gone(cleanup[..|cleanup| - 1], active);
      if cleanup[|cleanup| - 1].key.resourceId !in active then init + [cleanup[|cleanup| - 1]] else init
  }

  function Drops(records: seq<Cleanup>): seq<Write> {
    seq(|records|, i requires 0 <= i < |records| => DropCleanup(records[i].key))
  }

  /** The oldest completed records of resources that are gone, as many as there are
      completed records beyond the bound. */
  function Victims(cleanup: seq<Cleanup>, active: set<Id>): seq<Cleanup> {
    var completed := CompletedOf(cleanup);
    var excess := |completed| - MAX_COMPLETED_CLEANUP_RECORDS;
    var removable := Gone(completed, active);
    if excess <= 0 then [] else if excess < |removable| then removable[..excess] else removable
  }

  function Prune(cleanup: seq<Cleanup>, active: set<Id>): seq<Write> {
    Drops(Victims(cleanup, active))
  }

  function Ids(resources: map<Name, Resource>): set<Id> {
    set n | n in resources :: resources[n].id
  }

  ghost predicate PendingFor(cleanup: seq<Cleanup>, id: Id) {
    exists c :: c in cleanup && c.key.resourceId == id && !c.completed
  }

  datatype DeferArgs = DeferArgs(resource: Name, node: Node, action: Action, target: Target)

  predicate TargetFits(action: Action, target: Target) {
    match action
    case DestroyVm => target.VmTarget?
    case DestroyVolume => target.VolumeTarget? && target.volume.Plain?
    case DestroyOverlay => target.VolumeTarget? && target.volume.Overlay?
    case DeleteSnapshot => target.SnapshotTarget?
    case RemoveReplication => target.JobTarget?
  }

  ghost function DeferCleanup(s: Store, policy: Policy, a: DeferArgs): Plan {
    if !NodesOk([a.node], policy) || !TargetFits(a.action, a.target) || !Readable(s)
        || a.resource !in s.resources then REFUSED
    else
      var key := CleanupKey(a.resource, s.resources[a.resource].id, a.node, a.action, a.target);
      var drops := Prune(s.cleanup, Ids(s.resources));
      if Recorded(s.cleanup, key) then UNCHANGED
      else if |After(s, drops).cleanup| >= MAX_CLEANUP_RECORDS then Plan(Refused, drops)
      else Plan(Done, drops + [PutCleanup(Cleanup(key, false, 0, 1))])
  }

  // Release -----------------------------------------------------------------------------------------------------------

  predicate Releasable(r: Resource) {
    && r.state in {Reserved, Stopped, Failed, CleanupPending}
    && r.owner.None? && r.volume.None? && r.snapshot.None? && r.haNodes == [] && r.targets == []
  }

  /** Nothing stands in the way that even force may not override. */
  ghost predicate MayRelease(s: Store, name: Name, now: real) {
    && Readable(s) && name in s.resources
    && (name in s.orchestration ==>
          s.orchestration[name].resourceId == s.resources[name].id && !Live(s.orchestration[name].lease, now))
    && Dependents(s.resources, name) == {}
    && !PendingFor(s.cleanup, s.resources[name].id)
  }

  ghost function Release(s: Store, name: Name, force: bool, now: real): Plan {
    if !MayRelease(s, name, now) || (!force && !Releasable(s.resources[name])) then REFUSED
    else
      Plan(Done, [DropResource(name)] + (if name in s.orchestration then [DropOrchestration(name)] else [])
                 + Prune(s.cleanup, Ids(s.resources) - {s.resources[name].id}))
  }

  /** The identities of the completed cleanups of a resource. */
  function Evidence(cleanup: seq<Cleanup>, id: Id): set<(Node, Action, Target)> {
    set c | c in cleanup && c.key.resourceId == id && c.completed :: (c.key.node, c.key.action, c.key.target)
  }

  /** Everything the record says the guest owned has a completed removal. */
  predicate Accounted(r: Resource, source: Resource, done: set<(Node, Action, Target)>)
    requires r.placement != []
  {
    && (r.owner.Some? ==> (r.owner.value, DestroyVm, VmTarget(r.vmid)) in done)
    && (r.volume.Some? ==>
          (Or(r.owner, r.placement[0]), if r.backup.Some? then DestroyOverlay else DestroyVolume,
           VolumeTarget(r.volume.value)) in done)
    && (r.snapshot.Some? ==>
          forall n :: n in source.placement ==>
                (n, DeleteSnapshot, SnapshotTarget(source.vmid, r.snapshot.value.name)) in done)
  }

  ghost function Finalize(s: Store, policy: Policy, name: Name, id: Id): Plan {
    if !Readable(s) then REFUSED
    else if name !in s.resources then Plan(Unchanged, Prune(s.cleanup, Ids(s.resources)))
    else
      var r := s.resources[name];
      if r.id != id || !name.Stage? || r.state != CleanupPending || PendingFor(s.cleanup, id) || !StagedFrom(s, name)
         || !Accounted(r, s.resources[SourceOf(name)], Evidence(s.cleanup, id)) then REFUSED
      else if !Consistent(s.resources - {name})
          || !(forall n :: n in s.resources && n != name ==> ValidResource(s.resources[n], policy))
      then REFUSED
      else Plan(Done, [DropResource(name)] + Prune(s.cleanup, Ids(s.resources) - {id}))
  }

  // Reconcile ------------------------------------------------------------------------------

  /** A reservation whose guest was never made is given up. */
  predicate GivesUp(r: Resource) {
    r.state in {Reserved, Provisioning} && MayBecome(r.name.Prod?, r.state, Failed)
  }

  function GivenUp(r: Resource): Resource {
    Revised(r.(state := Failed))
  }

  /** `stale` lists the reservations seen to be past their time with no guest. */
  function GiveUps(resources: map<Name, Resource>, stale: seq<Name>): seq<Write> {
    if stale == [] then [] else
      var init := GiveUps(resources, stale[..|stale| - 1]);
      var name := stale[|stale| - 1];
      if name in resources && GivesUp(resources[name]) then init + [PutResource(GivenUp(resources[name]))] else init
  }

  function Completion(c: Cleanup): Cleanup {
    c.(completed := true, attempts := c.attempts + 1, revision := c.revision + 1)
  }

  function Completions(cleanup: seq<Cleanup>, seen: set<CleanupKey>): seq<Write> {
    if cleanup == [] then [] else
      var init := Completions(cleanup[..|cleanup| - 1], seen);
      var c := cleanup[|cleanup| - 1];
      if c.key in seen && !c.completed then init + [PutCleanup(Completion(c))] else init
  }

  ghost function Reconcile(s: Store, policy: Policy, stale: seq<Name>, seen: set<CleanupKey>): Plan {
    var changes := GiveUps(s.resources, stale) + Completions(s.cleanup, seen);
    var t := After(s, changes);
    if !Readable(s) || !Consistent(t.resources)
        || !(forall n :: n in t.resources ==> ValidResource(t.resources[n], policy))
    then REFUSED
    else Plan(Done, changes + Prune(t.cleanup, Ids(s.resources)))
  }

  // All commands ---------------------------------------------------------------------------

  datatype Command =
    | CAllocateProd(prod: ProdArgs)
    | CAllocateStaging(staging: StagingArgs)
    | CUpdateSlots(slots: Slots)
    | CSnapshotIntent(intent: IntentArgs)
    | CRecordSnapshot(recorded: RecordArgs)
    | CShareSnapshot(share: ShareArgs)
    | CUpdate(name: Name, update: UpdateArgs)
    | CRecordOwner(owner: OwnerArgs)
    | CAcquire(acquire: AcquireArgs)
    | CSetPhase(phase: PhaseArgs)
    | CReleaseLease(name: Name, nonce: string)
    | CRelease(name: Name, force: bool, now: real)
    | CDeferCleanup(defer: DeferArgs)
    | CFinalize(name: Name, id: Id)
    | CReconcile(stale: seq<Name>, seen: set<CleanupKey>)

  ghost function PlanOf(s: Store, policy: Policy, c: Command): Plan {
    match c
    case CAllocateProd(a) => AllocateProd(s, policy, a)
    case CAllocateStaging(a) => AllocateStaging(s, policy, a)
    case CUpdateSlots(slots) => UpdateSlots(s, slots)
    case CSnapshotIntent(a) => SnapshotIntent(s, policy, a)
    case CRecordSnapshot(a) => RecordSnapshot(s, policy, a)
    case CShareSnapshot(a) => ShareSnapshot(s, policy, a)
    case CUpdate(name, a) => Update(s, policy, name, a)
    case CRecordOwner(a) => RecordOwner(s, policy, a)
    case CAcquire(a) => Acquire(s, a)
    case CSetPhase(a) => SetPhase(s, a)
    case CReleaseLease(name, nonce) => ReleaseLease(s, name, nonce)
    case CRelease(name, force, now) => Release(s, name, force, now)
    case CDeferCleanup(a) => DeferCleanup(s, policy, a)
    case CFinalize(name, id) => Finalize(s, policy, name, id)
    case CReconcile(stale, seen) => Reconcile(s, policy, stale, seen)
  }
}
