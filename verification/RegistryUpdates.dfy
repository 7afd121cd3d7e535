/** What an update of a guest's record does, option by option, and when it is refused;
    which states may follow which.
 */
module RegistryUpdates {
  import opened Common
  import opened RegistryTypes
  import opened RegistryRules
  import opened RegistryPlans
  import opened RegistrySafety
  import opened RegistryRuns

  // States ------------------------------------------------------------------------------

  /** The states from which a production guest may come to a state. */
  function BeforeOnProduction(to: State): set<State> {
    match to
    case Reserved | Snapshotting | Cloning | Patching => {}
    case Provisioning => {Reserved, Stopped, Failed}
    case Replicating => {Provisioning, Stopped}
    case Stopped => {Provisioning, Replicating, Ready, Active, Stopping, Failed}
    case Ready => {Replicating, Stopped}
    case Active => {Stopped, Ready}
    case Stopping => {Active}
    case CleanupPending => {Reserved, Provisioning, Replicating, Stopped, Ready, Stopping, Failed}
    case Failed => {Reserved, Provisioning, Replicating, Stopped, Ready, Active, Stopping, CleanupPending}
  }

  function BeforeOnStaging(to: State): set<State> {
    match to
    case Reserved | Provisioning => {}
    case Snapshotting => {Reserved, Failed}
    case Replicating => {Snapshotting}
    case Cloning => {Reserved, Snapshotting, Replicating, Failed}
    case Patching => {Cloning, Failed}
    case Stopped => {Patching, Ready, Active, Stopping, Failed}
    case Ready => {Patching, Stopped}
    case Active => {Stopped, Ready}
    case Stopping => {Active}
    case CleanupPending =>
      {Reserved, Snapshotting, Replicating, Cloning, Patching, Stopped, Ready, Stopping, Failed}
    case Failed =>
      {Reserved, Snapshotting, Replicating, Cloning, Patching, Stopped, Ready, Active, Stopping, CleanupPending}
  }

  predicate MayCome(production: bool, from: State, to: State) {
    if production then from in BeforeOnProduction(to) else from in BeforeOnStaging(to)
  }

  lemma StatesBefore(production: bool, from: State, to: State)
    ensures MayBecome(production, from, to) <==> MayCome(production, from, to)
  {
  }

  // Fields ------------------------------------------------------------------------------

  /** An option that was given is the field afterwards; a field nobody asked about stays. */
  predicate Set<V(==)>(option: Option<V>, was: V, now: V) {
    (option.Some? ==> now == option.value) && (option.None? ==> now == was)
  }

  /** The same for a field that may also be cleared. */
  predicate SetOrCleared<V(==)>(clear: bool, option: Option<V>, was: Option<V>, now: Option<V>) {
    && (clear ==> now == None)
    && (!clear && option.Some? ==> now == option)
    && (!clear && option.None? ==> now == was)
  }

  predicate AskedNodes(a: UpdateArgs, was: Resource, now: Resource) {
    && Set(a.placement, was.placement, now.placement)
    && (a.initial.Some? ==> now.initial == a.initial.value)
    // A placement without the initial node moves it to the placement's first node.
    && (a.initial.None? && was.initial in now.placement ==> now.initial == was.initial)
    && (a.initial.None? && was.initial !in now.placement && now.placement != [] ==> now.initial == now.placement[0])
    && SetOrCleared(a.clearOwner, a.owner, was.owner, now.owner)
    && Set(a.haNodes, was.haNodes, now.haNodes) && Set(a.targets, was.targets, now.targets)
  }

  predicate AskedDomains(a: UpdateArgs, was: Resource, now: Resource) {
    && Set(a.purpose, was.purpose, now.purpose) && Set(a.primary, was.primary, now.primary)
    && Set(a.stagingBase, was.stagingBase, now.stagingBase)
    && (a.aliases.Some? ==> now.aliases == a.aliases.value)
    && (a.aliases.None? ==> now.aliases == if a.clearAliases then [] else was.aliases)
  }

  /** A snapshot is cleared, or its given parts replace the ones there are. */
  predicate AskedSnapshot(a: UpdateArgs, was: Option<Snapshot>, now: Option<Snapshot>) {
    var asked := a.snapshotName.Some? || a.snapshotOwner.Some? || a.snapshotGuids != map[];
    && (a.clearSnapshot ==> now == None)
    && (!a.clearSnapshot && !asked ==> now == was)
    && (!a.clearSnapshot && asked ==>
          && now.Some?
          && (a.snapshotName.Some? ==> now.value.name == a.snapshotName.value)
          && (a.snapshotOwner.Some? ==> now.value.owner == a.snapshotOwner.value)
          && (was.Some? && a.snapshotName.None? ==> now.value.name == was.value.name)
          && (was.Some? && a.snapshotOwner.None? ==> now.value.owner == was.value.owner)
          && now.value.claim == (if was.Some? then was.value.claim else None)
          && now.value.guids.Keys == a.snapshotGuids.Keys + (if was.Some? then was.value.guids.Keys else {})
          && (forall n :: n in now.value.guids ==>
                now.value.guids[n] == if n in a.snapshotGuids then a.snapshotGuids[n] else was.value.guids[n]))
  }

  /** An instant restore is cleared, begun as planned, or goes on with its phase. */
  predicate AskedInstant(a: UpdateArgs, was: Option<InstantRestore>, now: Option<InstantRestore>) {
    var asked := a.instantStorage.Some? || a.instantPoint.Some? || a.instantPhase.Some?;
    && (a.clearInstant ==> now == None)
    && (!a.clearInstant && !asked ==> now == was)
    && (!a.clearInstant && asked ==>
          && now.Some?
          && now.value.phase == (if a.instantPhase.Some? then a.instantPhase.value
                                 else if was.Some? then was.value.phase else Planned)
          && (was.Some? ==> now.value.storage == was.value.storage && now.value.point == was.value.point)
          && (a.instantStorage.Some? ==> now.value.storage == a.instantStorage.value)
          && (a.instantPoint.Some? ==> now.value.point == a.instantPoint.value))
  }

  /** The changed record: every field as it was asked for, and the identity kept. */
  predicate Asked(a: UpdateArgs, was: Resource, now: Resource) {
    && SameIdentity(was, now) && now.revision == was.revision + 1
    && Set(a.state, was.state, now.state)
    && AskedNodes(a, was, now) && AskedDomains(a, was, now)
    && SetOrCleared(a.clearVolume, a.volume, was.volume, now.volume)
    && AskedSnapshot(a, was.snapshot, now.snapshot) && AskedInstant(a, was.instant, now.instant)
  }

  /** What the request is refused for before anything is validated. */
  ghost predicate Permitted(s: Store, policy: Policy, was: Resource, a: UpdateArgs) {
    var placement := if a.placement.Some? then a.placement.value else was.placement;
    && (a.expected.Some? ==> was.revision == a.expected.value)
    && (a.state.Some? && a.state.value != was.state ==> MayCome(was.name.Prod?, was.state, a.state.value))
    // Nodes of the policy, each once, and inside the placement.
    && (a.placement.Some? ==>
          placement != [] && Listed(placement, policy) && (was.name.Stage? ==> |placement| == 1)
          && (was.owner.Some? ==> was.owner.value in placement))
    && (a.initial.Some? ==> a.initial.value in placement)
    && (a.owner.Some? && !a.clearOwner ==> a.owner.value in placement)
    && (a.haNodes.Some? ==>
          Listed(a.haNodes.value, policy) && (forall n :: n in a.haNodes.value ==> n in placement)
          && (was.name.Stage? ==> a.haNodes.value == []))
    && (a.targets.Some? ==> Listed(a.targets.value, policy) && forall n :: n in a.targets.value ==> n in placement)
    // A production guest's own, and only while nothing was copied from it.
    && (a.purpose.Some? || a.stagingBase.Some? ==> was.name.Prod? && !(exists d :: CopyOf(s, d, was.name)))
    && (a.aliases.Some? ==>
          Distinct(a.aliases.value)
          && (if a.primary.Some? then a.primary.value else was.primary) !in a.aliases.value)
    // A volume stays while a snapshot of it is in use.
    && (was.name.Prod? && (exists d :: CopyOf(s, d, was.name) && s.resources[d].snapshot.Some?) ==>
          (a.clearVolume ==> was.volume == None) && (!a.clearVolume && a.volume.Some? ==> a.volume == was.volume))
    && (!a.clearSnapshot && (a.snapshotName.Some? || a.snapshotOwner.Some? || a.snapshotGuids != map[]) ==>
          && (was.snapshot.Some? || (a.snapshotName.Some? && a.snapshotOwner.Some?))
          && (a.snapshotOwner.Some? ==> a.snapshotOwner.value in placement))
    && PermittedInstant(s, was, a)
  }

  predicate Listed(nodes: seq<Node>, policy: Policy) {
    && (forall i, j :: 0 <= i < j < |nodes| ==> nodes[i] != nodes[j])
    && (forall n :: n in nodes ==> 1 <= n <= policy.maxHosts)
  }

  /** A staging guest of the production guest. */
  predicate CopyOf(s: Store, d: Name, source: Name) {
    d in s.resources && d.Stage? && Prod(d.n) == source
  }

  /** An instant restore is cleared while nothing was freed. A new one names its restore
      point and finds no prod-linked copy; one under way goes forward with its own. */
  ghost predicate PermittedInstant(s: Store, was: Resource, a: UpdateArgs) {
    if a.clearInstant then was.instant.Some? ==> was.instant.value.phase != Freed
    else a.instantStorage.Some? || a.instantPoint.Some? || a.instantPhase.Some? ==>
      && was.name.Prod?
      && (was.instant.None? ==>
            a.instantStorage.Some? && a.instantPoint.Some?
            && forall d :: CopyOf(s, d, was.name) ==> s.resources[d].backup.Some?)
      && (was.instant.Some? ==>
            && (a.instantStorage.Some? ==> a.instantStorage.value == was.instant.value.storage)
            && (a.instantPoint.Some? ==> a.instantPoint.value == was.instant.value.point)
            && (a.instantPhase.Some? && was.instant.value.phase == Freed ==> a.instantPhase.value != Planned)
            && (a.instantPhase.Some? && was.instant.value.phase == Switched ==> a.instantPhase.value == Switched))
  }

  // Both together -------------------------------------------------------------------------

  /** Something besides the instant restore is asked for. */
  predicate AsksMore(a: UpdateArgs, was: Resource) {
    || (a.state.Some? && a.state.value != was.state)
    || a.placement.Some? || a.initial.Some? || a.clearOwner || a.owner.Some? || a.haNodes.Some? || a.targets.Some?
    || a.purpose.Some? || a.primary.Some? || a.aliases.Some? || a.clearAliases || a.stagingBase.Some?
    || a.clearVolume || a.volume.Some? || a.other
    || a.clearSnapshot || a.snapshotName.Some? || a.snapshotOwner.Some? || a.snapshotGuids != map[]
  }

  lemma CopiesMean(s: Store, name: Name)
    ensures forall d :: d in Dependents(s.resources, name) <==> CopyOf(s, d, name)
  {
  }

  lemma PermittedMeans(s: Store, policy: Policy, was: Resource, a: UpdateArgs)
    ensures Permitted(s, policy, was, a)
            <==> AcceptsFirst(was, a, policy, Dependents(s.resources, was.name))
                 && AcceptsRest(was, a, ProdLinked(s, was.name), SnapshotDependents(s, was.name))
  {
    CopiesMean(s, was.name);
    StatesMean(was, a);
    assert Dependents(s.resources, was.name) == {} <==> !(exists d :: CopyOf(s, d, was.name));
    assert SnapshotDependents(s, was.name)
      <==> exists d :: CopyOf(s, d, was.name) && s.resources[d].snapshot.Some?;
    InstantMeans(s, was, a);
  }

  lemma StatesMean(was: Resource, a: UpdateArgs)
    ensures a.state.Some? ==> (MayBecome(was.name.Prod?, was.state, a.state.value)
                               <==> MayCome(was.name.Prod?, was.state, a.state.value))
  {
    if a.state.Some? {
      StatesBefore(was.name.Prod?, was.state, a.state.value);
    }
  }

  lemma InstantMeans(s: Store, was: Resource, a: UpdateArgs)
    ensures PermittedInstant(s, was, a) <==> AcceptsInstant(was, a, ProdLinked(s, was.name))
  {
    CopiesMean(s, was.name);
    assert ProdLinked(s, was.name) <==> exists d :: CopyOf(s, d, was.name) && s.resources[d].backup.None?;
  }

  predicate SameNodes(x: Resource, y: Resource) {
    x.placement == y.placement && x.initial == y.initial && x.owner == y.owner && x.haNodes == y.haNodes
    && x.targets == y.targets
  }

  predicate SameDomains(x: Resource, y: Resource) {
    x.purpose == y.purpose && x.primary == y.primary && x.aliases == y.aliases && x.stagingBase == y.stagingBase
  }

  lemma AskedNodesMean(a: UpdateArgs, was: Resource, now: Resource)
    requires (a.placement.Some? ==> a.placement.value != []) && was.initial in was.placement
    ensures AskedNodes(a, was, now) <==> SameNodes(now, NewNodes(was, a))
  {
  }

  lemma AskedDomainsMean(a: UpdateArgs, was: Resource, now: Resource)
    ensures AskedDomains(a, was, now) <==> SameDomains(now, NewDomains(was, a))
  {
  }

  lemma AskedMeans(s: Store, policy: Policy, a: UpdateArgs, was: Resource, now: Resource)
    requires Permitted(s, policy, was, a) && was.initial in was.placement
    ensures Asked(a, was, now) <==> now == Updated(was, a)
  {
    PermittedMeans(s, policy, was, a);
    AskedNodesMean(a, was, now);
    AskedDomainsMean(a, was, now);
    AskedSnapshotMeans(a, was, now.snapshot);
    AskedInstantMeans(a, was, now.instant);
    FieldsOfUpdated(a, was, now);
  }

  lemma FieldsOfUpdated(a: UpdateArgs, was: Resource, now: Resource)
    requires a.placement.Some? ==> a.placement.value != []
    ensures now == Updated(was, a) <==>
            && SameIdentity(was, now) && now.revision == was.revision + 1
            && SameNodes(now, NewNodes(was, a)) && SameDomains(now, NewDomains(was, a))
            && Set(a.state, was.state, now.state) && SetOrCleared(a.clearVolume, a.volume, was.volume, now.volume)
            && now.snapshot == NewSnapshot(was, a) && now.instant == NewInstant(was, a)
  {
  }

  lemma AskedSnapshotMeans(a: UpdateArgs, was: Resource, now: Option<Snapshot>)
    requires AcceptsSnapshot(was, a)
    ensures AskedSnapshot(a, was.snapshot, now) <==> now == NewSnapshot(was, a)
  {
    if !a.clearSnapshot && AsksSnapshot(a) {
      var before := if was.snapshot.Some? then was.snapshot.value.guids else map[];
      assert before + a.snapshotGuids == NewSnapshot(was, a).value.guids;
      if AskedSnapshot(a, was.snapshot, now) {
        assert now.value.guids == before + a.snapshotGuids;
      }
    }
  }

  lemma AskedInstantMeans(a: UpdateArgs, was: Resource, now: Option<InstantRestore>)
    requires AcceptsInstant(was, a, false) || AcceptsInstant(was, a, true)
    ensures AskedInstant(a, was.instant, now) <==> now == NewInstant(was, a)
  {
  }

  /** An update that is not permitted is refused. One that is writes the record it asks
      for, if that is valid and fits the others; one that asks for nothing new is
      refused, but for a repeated step of an instant restore, which changes nothing. */
  lemma WhatAnUpdateDoes(s: Store, policy: Policy, name: Name, a: UpdateArgs, now: Resource)
    requires Readable(s) && name in s.resources
    requires Permitted(s, policy, s.resources[name], a) ==> Asked(a, s.resources[name], now)
    ensures var was := s.resources[name];
            var asksInstant := a.clearInstant || a.instantStorage.Some? || a.instantPoint.Some? || a.instantPhase.Some?;
            Update(s, policy, name, a)
            == if !Permitted(s, policy, was, a) then Plan(Refused, [])
               else if !AsksMore(a, was) && now.instant == was.instant
               then Plan(if asksInstant then Unchanged else Refused, [])
               else if ValidResource(now, policy) && Consistent(s.resources[name := now])
               then Plan(Done, [PutResource(now)])
               else Plan(Refused, [])
  {
    var was := s.resources[name];
    assert was.name == name && ValidResource(was, s.policy);
    PermittedMeans(s, policy, was, a);
    if Permitted(s, policy, was, a) {
      AskedMeans(s, policy, a, was, now);
    }
  }

  /** There is exactly one such record. */
  lemma OneRecordIsAsked(s: Store, policy: Policy, a: UpdateArgs, was: Resource)
    requires Permitted(s, policy, was, a) && was.initial in was.placement
    ensures exists now :: Asked(a, was, now)
    ensures forall now, other :: Asked(a, was, now) && Asked(a, was, other) ==> now == other
  {
    PermittedMeans(s, policy, was, a);
    AskedMeans(s, policy, a, was, Updated(was, a));
    forall now, other | Asked(a, was, now) && Asked(a, was, other) ensures now == other {
      AskedMeans(s, policy, a, was, now);
      AskedMeans(s, policy, a, was, other);
    }
  }

  /** So what an accepted update writes is what was asked for, field by field. */
  lemma AnUpdateWritesWhatIsAsked(s: Store, policy: Policy, name: Name, a: UpdateArgs)
    requires Update(s, policy, name, a).outcome == Done
    ensures name in s.resources && Permitted(s, policy, s.resources[name], a)
    ensures var plan := Update(s, policy, name, a);
            |plan.writes| == 1 && plan.writes[0].PutResource? && Asked(a, s.resources[name], plan.writes[0].record)
  {
    var was := s.resources[name];
    assert was.name == name && ValidResource(was, s.policy);
    PermittedMeans(s, policy, was, a);
    AskedMeans(s, policy, a, was, Updated(was, a));
  }

  // Owners ----------------------------------------------------------------------------------

  /** The targets to record: those given, or the placement without the owner. */
  predicate TargetsFor(a: OwnerArgs, placement: seq<Node>, targets: seq<Node>) {
    && (a.targets.Some? ==> targets == a.targets.value)
    && (a.targets.None? ==>
          forall i :: 0 <= i < |placement| && placement[i] == a.node ==> targets == placement[..i] + placement[i + 1..])
  }

  predicate NobodyHolds(s: Store, name: Name, now: real) {
    name in s.orchestration && s.orchestration[name].lease.Some? ==>
      s.orchestration[name].lease.value.expires as real <= now
  }

  lemma {:induction false} OthersMean(placement: seq<Node>, node: Node, i: nat)
    requires Distinct(placement) && i < |placement| && placement[i] == node
    ensures OtherNodes(placement, node) == placement[..i] + placement[i + 1..]
  {
    var init, last := placement[..|placement| - 1], placement[|placement| - 1];
    if i == |init| {
      NoneOther(init, node);
    } else {
      OthersMean(init, node, i);
      assert init[..i] == placement[..i] && init[i + 1..] + [last] == placement[i + 1..];
    }
  }

  lemma {:induction false} NoneOther(placement: seq<Node>, node: Node)
    requires node !in placement
    ensures OtherNodes(placement, node) == placement
  {
    if placement != [] {
      NoneOther(placement[..|placement| - 1], node);
    }
  }

  /** The same record but for its owner, its targets and its revision. */
  predicate OnlyOwner(was: Resource, now: Resource) {
    now == was.(owner := now.owner, targets := now.targets, revision := now.revision)
  }

  lemma OwnersKeepPairs(a: Resource, b: Resource, a': Resource, b': Resource)
    requires Compatible(a, b) && OnlyOwner(a, a') && OnlyOwner(b, b')
    ensures Compatible(a', b')
  {
    assert Domains(a') == Domains(a) && Domains(b') == Domains(b);
  }

  lemma OwnersKeepLinks(was: map<Name, Resource>, now: map<Name, Resource>, n: Name)
    requires was.Keys == now.Keys && (forall m :: m in was ==> OnlyOwner(was[m], now[m]))
    requires n in was && Linked(was, was[n])
    ensures Linked(now, now[n])
  {
  }

  lemma AnotherOwnerFits(all: map<Name, Resource>, name: Name, now: Resource)
    requires Consistent(all) && name in all && OnlyOwner(all[name], now)
    ensures Consistent(all[name := now])
  {
    var all' := all[name := now];
    forall x, y | x in all' && y in all' && x != y ensures Compatible(all'[x], all'[y]) {
      OwnersKeepPairs(all[x], all[y], all'[x], all'[y]);
    }
    forall n | n in all' ensures Linked(all', all'[n]) {
      OwnersKeepLinks(all, all', n);
    }
  }

  predicate Fit(targets: seq<Node>, node: Node, placement: seq<Node>, policy: Policy) {
    node !in targets && Listed(targets, policy) && forall n :: n in targets ==> n in placement
  }

  lemma AnotherOwnerIsRecorded(s: Store, was: Resource, owner: Node, targets: seq<Node>)
    requires Readable(s) && was.name in s.resources && s.resources[was.name] == was && owner in was.placement
    requires Fit(targets, owner, was.placement, s.policy)
    ensures var now := was.(owner := Some(owner), targets := targets, revision := was.revision + 1);
            Replace(s, s.policy, now) == Plan(Done, [PutResource(now)])
  {
    var now := was.(owner := Some(owner), targets := targets, revision := was.revision + 1);
    assert Domains(now) == Domains(was);
    AnotherOwnerFits(s.resources, was.name, now);
  }

  /** An owner is recorded exactly for an active guest that nobody holds, on a node of
      its placement, when something changes; the request is refused exactly for a node
      or targets that do not belong there. */
  lemma WhatRecordingAnOwnerDoes(s: Store, a: OwnerArgs, targets: seq<Node>)
    requires Readable(s) && a.name in s.resources && a.name.Prod? && 1 <= a.node <= s.policy.maxHosts
    requires TargetsFor(a, s.resources[a.name].placement, targets)
    ensures var was := s.resources[a.name];
            var plan := RecordOwner(s, s.policy, a);
            var fit := Fit(targets, a.node, was.placement, s.policy);
            var free := NobodyHolds(s, a.name, a.now);
            && (plan.outcome == Done <==>
                  was.state == Active && a.node in was.placement && free && fit
                  && (was.owner != Some(a.node) || was.targets != targets))
            && (plan.outcome == Refused <==>
                  was.state == Active && (a.node !in was.placement || (free && !fit)))
            && (plan.outcome == Done ==>
                  plan.writes == [PutResource(was.(owner := Some(a.node), targets := targets,
                                                   revision := was.revision + 1))])
  {
    var was := s.resources[a.name];
    assert was.name == a.name && ValidResource(was, s.policy);
    TargetsMean(s.policy, a, was, targets);
    var now := was.(owner := Some(a.node), targets := targets, revision := was.revision + 1);
    if !MayRecord(s, a, targets) {
      NoOwnerRecorded(s, a, targets);
    } else {
      AnotherOwnerIsRecorded(s, was, a.node, targets);
      OwnerRecorded(s, a, targets, now);
    }
  }

  predicate MayRecord(s: Store, a: OwnerArgs, targets: seq<Node>)
    requires a.name in s.resources
  {
    var was := s.resources[a.name];
    && was.state == Active && a.node in was.placement && NobodyHolds(s, a.name, a.now)
    && Fit(targets, a.node, was.placement, s.policy) && (was.owner != Some(a.node) || was.targets != targets)
  }

  predicate TargetsAre(s: Store, a: OwnerArgs, targets: seq<Node>)
    requires a.name in s.resources
  {
    var was := s.resources[a.name];
    var fit := Fit(targets, a.node, was.placement, s.policy);
    && NodesOk([a.node], s.policy)
    && (TargetsOk(targets, was, a.node, s.policy) <==> fit)
    && (a.node in was.placement ==> targets == Or(a.targets, OtherNodes(was.placement, a.node)))
    && (a.node in was.placement && a.targets.None? ==> fit)
  }

  lemma OwnerRecorded(s: Store, a: OwnerArgs, targets: seq<Node>, now: Resource)
    requires Readable(s) && a.name in s.resources && a.name.Prod? && TargetsAre(s, a, targets)
    requires MayRecord(s, a, targets)
    requires now == s.resources[a.name].(owner := Some(a.node), targets := targets,
                                         revision := s.resources[a.name].revision + 1)
    requires Replace(s, s.policy, now) == Plan(Done, [PutResource(now)])
    ensures RecordOwner(s, s.policy, a) == Plan(Done, [PutResource(now)])
  {
    var was := s.resources[a.name];
    assert now == Revised(was.(owner := Some(a.node), targets := Or(a.targets, OtherNodes(was.placement, a.node))));
  }

  lemma NoOwnerRecorded(s: Store, a: OwnerArgs, targets: seq<Node>)
    requires Readable(s) && a.name in s.resources && a.name.Prod? && TargetsAre(s, a, targets)
    requires !MayRecord(s, a, targets)
    ensures var was := s.resources[a.name];
            RecordOwner(s, s.policy, a)
            == if was.state == Active && (a.node !in was.placement
                                          || (NobodyHolds(s, a.name, a.now)
                                              && !Fit(targets, a.node, was.placement, s.policy)))
               then REFUSED else UNCHANGED
  {
  }

  lemma TargetsMean(policy: Policy, a: OwnerArgs, was: Resource, targets: seq<Node>)
    requires ValidResource(was, policy) && 1 <= a.node <= policy.maxHosts && TargetsFor(a, was.placement, targets)
    ensures NodesOk([a.node], policy)
    ensures TargetsOk(targets, was, a.node, policy) <==> Fit(targets, a.node, was.placement, policy)
    ensures a.node in was.placement ==> targets == Or(a.targets, OtherNodes(was.placement, a.node))
    ensures a.node in was.placement && a.targets.None? ==> Fit(targets, a.node, was.placement, policy)
  {
    OneNode(a.node, policy);
    if a.node in was.placement {
      DefaultTargets(policy, a, was.placement, targets);
    }
  }

  lemma OneNode(node: Node, policy: Policy)
    requires 1 <= node <= policy.maxHosts
    ensures NodesOk([node], policy)
  {
    assert Distinct([node]);
  }

  lemma DefaultTargets(policy: Policy, a: OwnerArgs, placement: seq<Node>, targets: seq<Node>)
    requires Listed(placement, policy) && TargetsFor(a, placement, targets) && a.node in placement
    ensures targets == Or(a.targets, OtherNodes(placement, a.node))
    ensures a.targets.None? ==> Fit(targets, a.node, placement, policy)
  {
    var i :| 0 <= i < |placement| && placement[i] == a.node;
    OthersMean(placement, a.node, i);
    OthersFit(policy, placement, i);
  }

  lemma OthersFit(policy: Policy, placement: seq<Node>, i: nat)
    requires Listed(placement, policy) && i < |placement|
    ensures Fit(placement[..i] + placement[i + 1..], placement[i], placement, policy)
  {
    var others := placement[..i] + placement[i + 1..];
    assert forall k :: 0 <= k < |others| ==> others[k] == placement[if k < i then k else k + 1];
    assert forall k :: 0 <= k < |others| ==> others[k] in placement;
  }
}
