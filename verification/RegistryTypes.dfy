/** The records of the cluster registry (scripts/host_runtime/cluster_registry.py).

    A record's kind, index and source are decided by its name: `prod3` is
    production guest 3, `stage2prod3` is staging guest 2 of it. The validator that
    reads a record refuses any other combination, so the model keeps only the name.
 */
module RegistryTypes {
  import opened Common

  /** A resource's UUID, and a host moxN. */
  type Id = nat
  type Node = nat

  datatype Name = Prod(n: nat) | Stage(k: nat, n: nat)

  function SourceOf(name: Name): Name
    requires name.Stage?
  {
    Prod(name.n)
  }

  /** A MAC address is a hash of the name; hashes are taken to be injective. */
  datatype Mac = MacFor(name: Name)

  datatype State =
    | Reserved | Provisioning | Snapshotting | Replicating | Cloning | Patching
    | Stopped | Ready | Active | Stopping | CleanupPending | Failed

  datatype RestorePoint = RestorePoint(vmid: nat, time: string)

  datatype Volume = Plain(id: string) | Overlay(storage: string, vmid: nat, disk: nat)

  /** What a staging snapshot says about the production disk it was taken from. */
  datatype Claim = Claim(source: Name, root: Volume, volumes: seq<Volume>, volumeGuids: map<Volume, map<Node, string>>,
                         verified: bool, dependents: seq<Name>, refcount: nat)
  datatype Snapshot = Snapshot(name: string, owner: Node, guids: map<Node, string>, claim: Option<Claim>)

  datatype Backup = Backup(storage: string, point: RestorePoint)

  datatype RestorePhase = Planned | Freed | Switched
  datatype InstantRestore = InstantRestore(storage: string, point: RestorePoint, phase: RestorePhase)

  /** What an allocation asked for. Its fingerprint is a hash of it. */
  datatype Request =
    | ProductionRequest(vmid: nat, purpose: string, primary: string, aliases: seq<string>, stagingBase: string,
                        placement: seq<Node>, initial: Node)
    | StagingRequest(source: Name, vmid: nat, placement: seq<Node>, backup: Option<Backup>)

  datatype Resource = Resource(
    id: Id,
    allocation: Option<string>,
    request: Request,
    name: Name,
    vmid: nat,
    octet: int,
    mac: Mac,
    state: State,
    purpose: string,
    primary: string,
    aliases: seq<string>,
    stagingBase: string,
    placement: seq<Node>,
    initial: Node,
    owner: Option<Node>,
    haNodes: seq<Node>,
    targets: seq<Node>,
    volume: Option<Volume>,
    snapshot: Option<Snapshot>,
    backup: Option<Backup>,
    instant: Option<InstantRestore>,
    revision: nat)

  datatype Action = DeleteSnapshot | DestroyOverlay | DestroyVm | DestroyVolume | RemoveReplication

  /** What a cleanup acts on: `vm:VMID`, a volume, `vm-VMID@NAME`, or another text. */
  datatype Target =
    | VmTarget(vmid: nat)
    | VolumeTarget(volume: Volume)
    | SnapshotTarget(vmid: nat, name: string)
    | JobTarget(text: string)

  /** A cleanup record's id is a hash of its identity. */
  datatype CleanupKey = CleanupKey(resource: Name, resourceId: Id, node: Node, action: Action, target: Target)
  datatype Cleanup = Cleanup(key: CleanupKey, completed: bool, attempts: nat, revision: nat)

  datatype Phase =
    | Unknown | Unstarted | MediaAttached | InstallerStarted | InstalledConfirmed | GuestVerified | NetworkFinalized
  datatype Network = Network(enabled: bool, startup: Option<string>)
  datatype Installer = Installer(iso: string, mode: string)

  /** `expires` is in whole seconds. */
  datatype Lease = Lease(nonce: string, owner: string, expires: int)
  datatype Orchestration = Orchestration(resourceId: Id, phase: Phase, network: Option<Network>,
                                         installer: Option<Installer>,
                                         lease: Option<Lease>, revision: nat)

  datatype Slots = Slots(start: int, maxProduction: int, maxStaging: int)
  datatype Policy = Policy(hostFirst: int, hostLast: int, gateway: int, maxHosts: nat, slots: Slots)

  /** The files: the policy, one record a resource, the deferred cleanups in the
      order they were made, one record a lease. `issued` is every UUID ever handed
      out; only the proofs look at it. */
  datatype Store = Store(policy: Policy, resources: map<Name, Resource>, cleanup: seq<Cleanup>,
                         orchestration: map<Name, Orchestration>, issued: set<Id>)
}

/** What the registry's validators accept. */
module RegistryRules {
  import opened Common
  import opened RegistryTypes

  const MAX_PRODUCTION_SLOTS := 10
  const MAX_STAGING_SLOTS_PER_PRODUCTION := 9

  // The policy and its slots --------------------------------------------------------

  predicate ValidPolicy(p: Policy) {
    var last := p.slots.start + 10 * p.slots.maxProduction - 1;
    && 1 <= p.hostFirst <= p.hostLast <= 254
    && 1 <= p.gateway <= 254 && !(p.hostFirst <= p.gateway <= p.hostLast)
    && 1 <= p.maxHosts <= 10 && p.hostLast - p.hostFirst + 1 >= p.maxHosts
    && 1 <= p.slots.maxProduction <= MAX_PRODUCTION_SLOTS
    && 1 <= p.slots.maxStaging <= MAX_STAGING_SLOTS_PER_PRODUCTION
    && p.slots.start % 10 == 0 && 10 <= p.slots.start && last <= 254
    && (last < p.hostFirst || p.hostLast < p.slots.start) && !(p.slots.start <= p.gateway <= last)
  }

  function StageOf(name: Name): nat {
    match name
    case Prod(_) => 0
    case Stage(k, _) => k
  }

  predicate NameOk(name: Name) {
    name.n >= 1 && (name.Stage? ==> name.k >= 1)
  }

  predicate InSlots(p: Policy, name: Name) {
    1 <= name.n <= p.slots.maxProduction && 0 <= StageOf(name) <= p.slots.maxStaging
  }

  function SlotOctet(p: Policy, name: Name): int {
    p.slots.start + 10 * (name.n - 1) + StageOf(name)
  }

  // One record ------------------------------------------------------------------------

  function SetOf<T>(s: seq<T>): set<T> {
    set x | x in s
  }

  predicate NodesOk(nodes: seq<Node>, p: Policy) {
    Distinct(nodes) && forall n :: n in nodes ==> 1 <= n <= p.maxHosts
  }

  predicate Within(nodes: seq<Node>, placement: seq<Node>) {
    forall n :: n in nodes ==> n in placement
  }

  function Domains(r: Resource): seq<string> {
    [r.primary] + r.aliases
  }

  predicate OneGuid(guids: map<Node, string>) {
    forall a, b :: a in guids && b in guids ==> guids[a] == guids[b]
  }

  predicate ValidClaim(s: Snapshot, c: Claim, r: Resource, p: Policy)
    requires r.name.Stage?
  {
    && c.source == SourceOf(r.name)
    && c.volumes != [] && Distinct(c.volumes) && c.root in c.volumes
    && (if c.verified then
          && c.volumeGuids.Keys == SetOf(c.volumes)
          && (forall v :: v in c.volumeGuids ==>
                c.volumeGuids[v] != map[] && OneGuid(c.volumeGuids[v])
                && forall n :: n in c.volumeGuids[v] ==> 1 <= n <= p.maxHosts)
          && s.guids == c.volumeGuids[c.root]
        else s.guids == map[] && c.volumeGuids == map[])
    && c.dependents == [r.name] && c.refcount == 1
  }

  predicate ValidSnapshot(s: Snapshot, r: Resource, p: Policy) {
    && 1 <= s.owner <= p.maxHosts
    && (forall n :: n in s.guids ==> 1 <= n <= p.maxHosts)
    && (if r.name.Prod?
        then s.claim.None? && s.owner in r.placement && forall n :: n in s.guids ==> n in r.placement
        else s.claim.Some? && ValidClaim(s, s.claim.value, r, p))
  }

  predicate ValidBackup(r: Resource) {
    && r.name.Stage?
    && r.snapshot.None?
    && (r.volume.Some? ==> r.volume.value.Overlay? && r.volume.value.vmid == r.vmid)
  }

  predicate ValidInstant(r: Resource)
    requires r.instant.Some?
  {
    r.name.Prod? && r.instant.value.point.vmid == r.vmid
  }

  predicate ValidResource(r: Resource, p: Policy) {
    && NameOk(r.name) && InSlots(p, r.name) && r.octet == SlotOctet(p, r.name)
    && 100 <= r.vmid <= 999_999_999 && r.revision >= 1
    && Distinct(Domains(r)) && r.stagingBase !in Domains(r)
    && r.placement != [] && NodesOk(r.placement, p)
    && r.initial in r.placement && (r.owner.Some? ==> r.owner.value in r.placement)
    && NodesOk(r.haNodes, p) && NodesOk(r.targets, p) && Within(r.haNodes + r.targets, r.placement)
    && (r.snapshot.Some? ==> ValidSnapshot(r.snapshot.value, r, p))
    && (r.name.Stage? ==> |r.placement| == 1 && r.haNodes == [])
    && (r.backup.Some? ==> ValidBackup(r))
    && (r.instant.Some? ==> ValidInstant(r))
  }

  // The whole registry ------------------------------------------------------------------

  predicate Verified(s: Snapshot) {
    s.claim.Some? && s.claim.value.verified
  }

  /** The part of a snapshot record that every sharing resource repeats. */
  function SharedIdentity(s: Snapshot): Snapshot {
    if s.claim.None? then s else s.(claim := Some(s.claim.value.(dependents := [], refcount := 0)))
  }

  /** Two staging guests of one source that name the same snapshot. */
  predicate Sharers(a: Resource, b: Resource) {
    && a.name.Stage? && b.name.Stage? && a.name.n == b.name.n
    && a.snapshot.Some? && b.snapshot.Some? && a.snapshot.value.name == b.snapshot.value.name
  }

  predicate SharingOk(a: Resource, b: Resource) {
    Sharers(a, b) ==>
      && Verified(a.snapshot.value) && Verified(b.snapshot.value)
      && SharedIdentity(a.snapshot.value) == SharedIdentity(b.snapshot.value)
  }

  /** No field that must be unique is the same in both. */
  predicate Apart(a: Resource, b: Resource) {
    && a.name != b.name && a.vmid != b.vmid && a.octet != b.octet && a.mac != b.mac
    && (a.allocation.Some? ==> a.allocation != b.allocation)
    && (a.name.Prod? && b.name.Prod? ==> a.purpose != b.purpose)
    && (forall d :: d in Domains(a) ==> d !in Domains(b))
  }

  predicate Compatible(a: Resource, b: Resource) {
    Apart(a, b) && SharingOk(a, b)
  }

  predicate SnapshotLinked(s: Snapshot, r: Resource, source: Resource) {
    s.claim.Some? ==>
      var c := s.claim.value;
      && c.source == source.name
      && Some(c.root) == source.volume
      && s.owner in source.placement
      && (if c.verified then
            && s.guids.Keys == SetOf(source.placement)
            && (forall v :: v in c.volumeGuids ==> c.volumeGuids[v].Keys == SetOf(source.placement))
          else r.state in {Snapshotting, Replicating, CleanupPending, Failed})
  }

  /** A staging guest's production source exists and its snapshot agrees with it. */
  predicate Linked(all: map<Name, Resource>, r: Resource) {
    r.name.Stage? ==>
      && SourceOf(r.name) in all
      && (r.snapshot.Some? ==> SnapshotLinked(r.snapshot.value, r, all[SourceOf(r.name)]))
  }

  /** The pairwise meaning of the registry's invariants. */
  ghost predicate Consistent(all: map<Name, Resource>) {
    && (forall a, b :: a in all && b in all && a != b ==> Compatible(all[a], all[b]))
    && (forall n :: n in all ==> Linked(all, all[n]))
  }

  /** Every record is well formed, is kept under its own name, and fits the others. */
  ghost predicate Readable(s: Store) {
    && (forall n :: n in s.resources ==> s.resources[n].name == n && ValidResource(s.resources[n], s.policy))
    && Consistent(s.resources)
  }
}
