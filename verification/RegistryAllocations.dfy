/** When a new guest is allocated, and what its record says; on the request and the
    registered records alone.
 */
module RegistryAllocations {
  import opened Common
  import opened RegistryTypes
  import opened RegistryRules
  import opened RegistryPlans
  import opened RegistrySafety
  import opened RegistryRuns
  import opened RegistrySlots
  import U = RegistryUpdates
  import T = Text

  /** The registered guest has neither the VMID nor one of the domains. */
  predicate Foreign(r: Resource, vmid: nat, domains: seq<string>) {
    r.vmid != vmid && r.primary !in domains && forall d :: d in r.aliases ==> d !in domains
  }

  ghost predicate AllForeign(s: Store, vmid: nat, domains: seq<string>) {
    forall n :: n in s.resources ==> Foreign(s.resources[n], vmid, domains)
  }

  ghost predicate UnusedAllocation(s: Store, allocation: Option<string>) {
    forall n :: n in s.resources && s.resources[n].allocation.Some? ==> s.resources[n].allocation != allocation
  }

  ghost predicate FitsThere(s: Store, r: Resource) {
    && (forall n :: n in s.resources ==> Compatible(s.resources[n], r) && Compatible(r, s.resources[n]))
    && Linked(s.resources[r.name := r], r)
  }

  /** Adding a record leaves the others as they fit. */
  lemma AddedFits(s: Store, r: Resource)
    requires Readable(s) && r.name !in s.resources
    ensures Consistent(s.resources[r.name := r]) <==> FitsThere(s, r)
  {
    var all := s.resources[r.name := r];
    if Consistent(all) {
      forall n | n in s.resources ensures Compatible(s.resources[n], r) && Compatible(r, s.resources[n]) {
        assert Compatible(all[n], all[r.name]) && Compatible(all[r.name], all[n]);
      }
      assert Linked(all, all[r.name]);
    }
    if FitsThere(s, r) {
      forall a, b | a in all && b in all && a != b ensures Compatible(all[a], all[b]) {
        assert a in s.resources && b in s.resources ==> Compatible(s.resources[a], s.resources[b]);
      }
      forall n | n in all ensures Linked(all, all[n]) {
        assert n in s.resources ==> Linked(s.resources, s.resources[n]);
      }
    }
  }

  // Production guests ----------------------------------------------------------------------

  /** The new record, with nothing recorded yet of what the guest will own. */
  predicate IsNewProd(r: Resource, a: ProdArgs, i: nat, start: int)
    requires |a.placement| > 0
  {
    var initial := if a.initial.Some? then a.initial.value else a.placement[0];
    var base := if a.stagingBase.Some? then a.stagingBase.value else "staging." + a.primary;
    && r.id == a.newId && r.allocation == a.allocation && r.revision == 1
    && r.request == ProductionRequest(a.vmid, a.purpose, a.primary, a.aliases, base, a.placement, initial)
    && r.name == Prod(i) && r.vmid == a.vmid && r.octet == start + 10 * (i - 1) && r.mac == MacFor(Prod(i))
    && r.state == Reserved && r.purpose == a.purpose
    && r.primary == a.primary && r.aliases == a.aliases && r.stagingBase == base
    && r.placement == a.placement && r.initial == initial && OwnsNothing(r)
    && r.backup == None && r.instant == None
  }

  predicate OwnsNothing(r: Resource) {
    r.owner == None && r.haNodes == [] && r.targets == [] && r.volume == None && r.snapshot == None
  }

  predicate WellFormed(a: ProdArgs, p: Policy) {
    var base := if a.stagingBase.Some? then a.stagingBase.value else "staging." + a.primary;
    && |a.placement| > 0 && U.Listed(a.placement, p)
    && (a.initial.Some? ==> a.initial.value in a.placement)
    && (forall i, j :: 0 <= i < j < |a.aliases| ==> a.aliases[i] != a.aliases[j])
    && a.primary !in a.aliases && base != a.primary && base !in a.aliases
    && 100 <= a.vmid <= 999_999_999
  }

  ghost predicate PurposeUnused(s: Store, purpose: string) {
    forall n :: n in s.resources && n.Prod? ==> s.resources[n].purpose != purpose
  }

  lemma WellFormedMeans(a: ProdArgs, p: Policy)
    ensures WellFormed(a, p) <==> ProdArgsOk(a, p)
  {
    assert forall d :: d in [a.primary] + a.aliases <==> d == a.primary || d in a.aliases;
  }

  lemma NewProdIs(a: ProdArgs, i: nat, p: Policy, r: Resource)
    requires |a.placement| > 0
    ensures IsNewProd(r, a, i, p.slots.start) <==> r == NewProd(a, i, p)
  {
  }

  lemma NewProdIsValid(a: ProdArgs, i: nat, p: Policy, r: Resource)
    requires WellFormed(a, p) && IsNewProd(r, a, i, p.slots.start) && 1 <= i <= p.slots.maxProduction
    requires p.slots.maxStaging >= 0
    ensures ValidResource(r, p)
  {
    var domains := [a.primary] + a.aliases;
    assert Domains(r) == domains;
    assert forall k :: 0 < k < |domains| ==> domains[k] == a.aliases[k - 1];
  }

  lemma ApartFromANewProd(x: Resource, r: Resource, p: Policy)
    requires ValidPolicy(p) && ValidResource(x, p) && ValidResource(r, p) && x.name != r.name && r.name.Prod?
    requires r.snapshot == None && (x.allocation.Some? ==> x.allocation != r.allocation)
    requires x.mac == MacFor(x.name) && r.mac == MacFor(r.name)
    ensures Compatible(x, r) && Compatible(r, x)
            <==> Foreign(x, r.vmid, Domains(r)) && (x.name.Prod? ==> x.purpose != r.purpose)
  {
    GuestsNeverShareAnAddress(x, r, p);
    DomainsApart(x, r);
  }

  lemma DomainsApart(x: Resource, r: Resource)
    ensures (forall d :: d in Domains(x) ==> d !in Domains(r))
            <==> x.primary !in Domains(r) && forall d :: d in x.aliases ==> d !in Domains(r)
    ensures (forall d :: d in Domains(x) ==> d !in Domains(r)) <==> (forall d :: d in Domains(r) ==> d !in Domains(x))
  {
    assert forall d :: d in Domains(x) <==> d == x.primary || d in x.aliases;
  }

  lemma NewProdFits(s: Store, r: Resource)
    requires Inv(s) && ValidResource(r, s.policy) && r.name.Prod? && r.name !in s.resources
    requires r.mac == MacFor(r.name) && r.snapshot == None && UnusedAllocation(s, r.allocation)
    ensures Consistent(s.resources[r.name := r])
            <==> AllForeign(s, r.vmid, Domains(r)) && PurposeUnused(s, r.purpose)
  {
    AddedFits(s, r);
    forall n | n in s.resources
      ensures Compatible(s.resources[n], r) && Compatible(r, s.resources[n])
              <==> Foreign(s.resources[n], r.vmid, Domains(r)) && (n.Prod? ==> s.resources[n].purpose != r.purpose)
    {
      assert s.resources[n].name == n;
      ApartFromANewProd(s.resources[n], r, s.policy);
    }
  }

  lemma UnusedMeans(s: Store, allocation: Option<string>)
    ensures UnusedAllocation(s, allocation) <==> !(exists n :: HasAllocation(s, allocation, n))
  {
    if !UnusedAllocation(s, allocation) {
      var n :| n in s.resources && s.resources[n].allocation.Some? && s.resources[n].allocation == allocation;
      assert HasAllocation(s, allocation, n);
    }
  }

  /** The slot that the request gets: the one it names, or the lowest free one. */
  ghost predicate GetsProd(s: Store, a: ProdArgs, i: nat) {
    && 1 <= i <= s.policy.slots.maxProduction && Prod(i) !in s.resources
    && (if a.index.Some? then a.index.value == i else forall j: nat :: 1 <= j < i ==> Prod(j) in s.resources)
  }

  lemma WhichProd(s: Store, a: ProdArgs, i: nat)
    requires GetsProd(s, a, i)
    ensures ProdIndex(a, s.resources.Keys, s.policy) == Some(i)
  {
  }

  lemma NoProd(s: Store, a: ProdArgs)
    ensures ProdIndex(a, s.resources.Keys, s.policy).Some? ==>
              GetsProd(s, a, ProdIndex(a, s.resources.Keys, s.policy).value)
  {
  }

  /** A well-formed request under a new allocation id is refused exactly when no slot is
      left for it, or its VMID, its purpose or one of its domains is taken; otherwise
      the guest that it describes is registered. */
  lemma AProdIsAllocatedIff(s: Store, a: ProdArgs)
    requires Inv(s) && WellFormed(a, s.policy) && UnusedAllocation(s, a.allocation)
    ensures var plan := AllocateProd(s, s.policy, a);
            var free := AllForeign(s, a.vmid, [a.primary] + a.aliases) && PurposeUnused(s, a.purpose);
            && (plan.outcome == Done <==> free && exists i :: GetsProd(s, a, i))
            && (plan.outcome != Done ==> plan == Plan(Refused, []))
            && (plan.outcome == Done ==>
                  |plan.writes| == 1 && plan.writes[0].PutResource?
                  && exists i :: GetsProd(s, a, i) && IsNewProd(plan.writes[0].record, a, i, s.policy.slots.start))
  {
    WellFormedMeans(a, s.policy);
    UnusedMeans(s, a.allocation);
    NoProd(s, a);
    if i :| GetsProd(s, a, i) {
      WhichProd(s, a, i);
      var r := NewProd(a, i, s.policy);
      NewProdIs(a, i, s.policy, r);
      NewProdIsValid(a, i, s.policy, r);
      NewProdFits(s, r);
      assert Domains(r) == [a.primary] + a.aliases;
    }
  }

  /** A malformed request is refused whatever is registered. */
  lemma AMalformedProdIsRefused(s: Store, a: ProdArgs)
    requires !WellFormed(a, s.policy)
    ensures AllocateProd(s, s.policy, a) == Plan(Refused, [])
  {
    WellFormedMeans(a, s.policy);
  }

  /** Under an id that was used, the same request is answered with nothing new, and any
      other one is refused. */
  lemma ARepeatedProdIff(s: Store, a: ProdArgs, n: Name)
    requires Inv(s) && WellFormed(a, s.policy)
    requires n in s.resources && a.allocation.Some? && s.resources[n].allocation == a.allocation
    ensures AllocateProd(s, s.policy, a).writes == []
    ensures var base := if a.stagingBase.Some? then a.stagingBase.value else "staging." + a.primary;
            var initial := if a.initial.Some? then a.initial.value else a.placement[0];
            AllocateProd(s, s.policy, a).outcome
            == if n.Prod? && s.resources[n].request == ProductionRequest(a.vmid, a.purpose, a.primary, a.aliases, base,
                                                                        a.placement, initial)
               then Unchanged else Refused
  {
    WellFormedMeans(a, s.policy);
    assert HasAllocation(s, a.allocation, n);
    forall m | HasAllocation(s, a.allocation, m) ensures m == n {
      OneHolder(s, a.allocation, m, n);
    }
  }

  // Staging guests -----------------------------------------------------------------------------

  /** The request fits its source: a node of its placement that does not own it, and a
      restore point, which it needs while the source is under an instant restore. */
  predicate MayCopy(s: Store, a: StagingArgs) {
    && a.source.Prod? && a.source in s.resources && 1 <= a.node <= s.policy.maxHosts && 100 <= a.vmid <= 999_999_999
    && var source := s.resources[a.source];
    && a.node in source.placement && source.owner != Some(a.node)
    && (a.storage.Some? ==> a.point.Some?) && (a.point.Some? ==> a.storage.Some?)
    && (source.instant.Some? ==> a.point.Some?)
  }

  predicate IsNewStaging(r: Resource, a: StagingArgs, k: nat, source: Resource) {
    var n := source.name.n;
    var backup := if a.storage.Some? && a.point.Some? then Some(Backup(a.storage.value, a.point.value)) else None;
    && r.id == a.newId && r.allocation == a.allocation && r.revision == 1
    && r.request == StagingRequest(source.name, a.vmid, [a.node], backup)
    && r.name == Stage(k, n) && r.vmid == a.vmid && r.octet == source.octet + k && r.mac == MacFor(Stage(k, n))
    && r.state == Reserved && r.purpose == source.purpose
    && r.primary == "stage" + T.Decimal(k) + "prod" + T.Decimal(n) + "." + source.primary
    && r.aliases == [] && r.stagingBase == source.stagingBase
    && r.placement == [a.node] && r.initial == a.node && OwnsNothing(r) && r.backup == backup && r.instant == None
  }

  lemma NewStagingIs(a: StagingArgs, k: nat, source: Resource, p: Policy, r: Resource)
    requires source.name.Prod? && source.octet == SlotOctet(p, source.name)
    ensures IsNewStaging(r, a, k, source) <==> r == NewStaging(a, k, source, p)
  {
  }

  lemma NewStagingIsValid(a: StagingArgs, k: nat, source: Resource, p: Policy, r: Resource)
    requires ValidResource(source, p) && source.name.Prod? && IsNewStaging(r, a, k, source)
    requires 1 <= k <= p.slots.maxStaging && 1 <= a.node <= p.maxHosts && 100 <= a.vmid <= 999_999_999
    ensures ValidResource(r, p) <==> r.primary != source.stagingBase
  {
    assert Domains(r) == [r.primary];
    assert NodesOk([a.node], p) by {
      assert Distinct([a.node]);
    }
  }

  lemma ApartFromANewStaging(x: Resource, r: Resource, p: Policy)
    requires ValidPolicy(p) && ValidResource(x, p) && ValidResource(r, p) && x.name != r.name && r.name.Stage?
    requires r.snapshot == None && (x.allocation.Some? ==> x.allocation != r.allocation)
    requires x.mac == MacFor(x.name) && r.mac == MacFor(r.name)
    ensures Compatible(x, r) && Compatible(r, x) <==> Foreign(x, r.vmid, Domains(r))
  {
    GuestsNeverShareAnAddress(x, r, p);
    DomainsApart(x, r);
  }

  lemma NewStagingFits(s: Store, r: Resource)
    requires Inv(s) && ValidResource(r, s.policy) && r.name.Stage? && r.name !in s.resources
    requires r.mac == MacFor(r.name) && r.snapshot == None && UnusedAllocation(s, r.allocation)
    requires Prod(r.name.n) in s.resources
    ensures Consistent(s.resources[r.name := r]) <==> AllForeign(s, r.vmid, Domains(r))
  {
    AddedFits(s, r);
    forall n | n in s.resources
      ensures Compatible(s.resources[n], r) && Compatible(r, s.resources[n])
              <==> Foreign(s.resources[n], r.vmid, Domains(r))
    {
      assert s.resources[n].name == n;
      ApartFromANewStaging(s.resources[n], r, s.policy);
    }
  }

  /** The lowest free slot of the source. */
  ghost predicate GetsStage(s: Store, n: nat, k: nat) {
    && 1 <= k <= s.policy.slots.maxStaging && Stage(k, n) !in s.resources
    && forall j: nat :: 1 <= j < k ==> Stage(j, n) in s.resources
  }

  lemma WhichStage(s: Store, n: nat)
    ensures var k := FirstFreeStage(s.resources.Keys, n, 1, s.policy.slots.maxStaging);
            && (k.Some? ==> GetsStage(s, n, k.value))
            && forall j: nat :: GetsStage(s, n, j) ==> k == Some(j)
  {
  }

  /** How many staging guests are placed on the node, and there alone. */
  function PlacedOn(s: Store, node: Node): nat {
    |set n | n in s.resources && n.Stage? && s.resources[n].placement == [node]|
  }

  /** What the registered guests leave no room for. */
  ghost predicate RoomForStage(s: Store, a: StagingArgs, k: nat)
    requires a.source in s.resources
  {
    var source := s.resources[a.source];
    var domain := "stage" + T.Decimal(k) + "prod" + T.Decimal(a.source.n) + "." + source.primary;
    GetsStage(s, a.source.n, k) && AllForeign(s, a.vmid, [domain]) && domain != source.stagingBase
  }

  lemma StagePlan(s: Store, a: StagingArgs)
    requires Readable(s) && MayCopy(s, a) && UnusedAllocation(s, a.allocation)
    ensures AllocateStaging(s, s.policy, a)
            == if PlacedOn(s, a.node) >= a.limit then REFUSED
               else var k := FirstFreeStage(s.resources.Keys, a.source.n, 1, s.policy.slots.maxStaging);
                    if k.None? then REFUSED
                    else Replace(s, s.policy, NewStaging(a, k.value, s.resources[a.source], s.policy))
  {
    UnusedMeans(s, a.allocation);
    assert s.resources[a.source].name == a.source;
    assert Distinct([a.node]);
    assert StagedOn(s.resources, a.node)
      == set n | n in s.resources && n.Stage? && s.resources[n].placement == [a.node];
  }

  lemma StageReplaces(s: Store, a: StagingArgs, k: nat)
    requires Inv(s) && MayCopy(s, a) && UnusedAllocation(s, a.allocation) && GetsStage(s, a.source.n, k)
    ensures var r := NewStaging(a, k, s.resources[a.source], s.policy);
            && IsNewStaging(r, a, k, s.resources[a.source])
            && Replace(s, s.policy, r) == if RoomForStage(s, a, k) then Plan(Done, [PutResource(r)]) else REFUSED
  {
    var source := s.resources[a.source];
    var r := NewStaging(a, k, source, s.policy);
    assert source.name == a.source && ValidResource(source, s.policy);
    NewStagingIs(a, k, source, s.policy, r);
    NewStagingIsValid(a, k, source, s.policy, r);
    assert Domains(r) == [r.primary];
    if ValidResource(r, s.policy) {
      NewStagingFits(s, r);
    }
  }

  /** A request that fits its source, under a new allocation id, is refused exactly when
      the node's limit is reached, the source has no slot left, or the VMID or the new
      domain is taken. */
  lemma AStagingIsAllocatedIff(s: Store, a: StagingArgs)
    requires Inv(s) && MayCopy(s, a) && UnusedAllocation(s, a.allocation)
    ensures var plan := AllocateStaging(s, s.policy, a);
            && (plan.outcome == Done <==> PlacedOn(s, a.node) < a.limit && exists k :: RoomForStage(s, a, k))
            && (plan.outcome != Done ==> plan == Plan(Refused, []))
            && (plan.outcome == Done ==>
                  |plan.writes| == 1 && plan.writes[0].PutResource?
                  && exists k :: RoomForStage(s, a, k)
                                 && IsNewStaging(plan.writes[0].record, a, k, s.resources[a.source]))
  {
    StagePlan(s, a);
    WhichStage(s, a.source.n);
    var k := FirstFreeStage(s.resources.Keys, a.source.n, 1, s.policy.slots.maxStaging);
    if k.Some? {
      StageReplaces(s, a, k.value);
    }
  }

  /** A request that does not fit its source is refused. */
  lemma AMisplacedStagingIsRefused(s: Store, a: StagingArgs)
    requires !MayCopy(s, a)
    ensures AllocateStaging(s, s.policy, a) == Plan(Refused, [])
  {
    if !(1 <= a.node <= s.policy.maxHosts) {
      assert a.node in [a.node];
    }
  }

  /** Under an id that was used, the same copy is answered with nothing new, and any
      other one is refused. */
  lemma ARepeatedStagingIff(s: Store, a: StagingArgs, n: Name)
    requires Inv(s) && MayCopy(s, a)
    requires n in s.resources && a.allocation.Some? && s.resources[n].allocation == a.allocation
    ensures var backup := if a.point.Some? then Some(Backup(a.storage.value, a.point.value)) else None;
            AllocateStaging(s, s.policy, a)
            == Plan(if n.Stage? && s.resources[n].request == StagingRequest(a.source, a.vmid, [a.node], backup)
                    then Unchanged else Refused, [])
  {
    assert Distinct([a.node]);
    assert HasAllocation(s, a.allocation, n);
    forall m | HasAllocation(s, a.allocation, m) ensures m == n {
      OneHolder(s, a.allocation, m, n);
    }
  }

  // Slots ----------------------------------------------------------------------------------------

  /** Every address of the slots is one of the network, and neither a host's nor the
      gateway's. */
  ghost predicate SlotsFit(p: Policy, slots: Slots) {
    && 1 <= slots.maxProduction <= 10 && 1 <= slots.maxStaging <= 9 && slots.start % 10 == 0 && slots.start >= 10
    && forall octet :: slots.start <= octet < slots.start + 10 * slots.maxProduction ==> AddressFree(p, octet)
  }

  predicate AddressFree(p: Policy, octet: int) {
    octet <= 254 && !(p.hostFirst <= octet <= p.hostLast) && octet != p.gateway
  }

  lemma SlotsFitMeans(p: Policy, slots: Slots)
    requires ValidPolicy(p)
    ensures SlotsFit(p, slots) <==> ValidPolicy(p.(slots := slots))
  {
    if SlotsFit(p, slots) {
      var last := slots.start + 10 * slots.maxProduction - 1;
      assert AddressFree(p, last) && AddressFree(p, slots.start);
      assert slots.start <= p.gateway <= last ==> AddressFree(p, p.gateway);
      assert slots.start <= p.hostFirst <= last ==> AddressFree(p, p.hostFirst);
      assert slots.start <= p.hostLast <= last ==> AddressFree(p, p.hostLast);
    }
  }

  /** The slots change exactly to others that fit the network and keep every registered
      guest where it is. */
  lemma SlotsAreChangedIff(s: Store, slots: Slots)
    requires Inv(s)
    ensures var plan := UpdateSlots(s, slots);
            && (plan.outcome == Unchanged <==> slots == s.policy.slots)
            && (plan.outcome == Done <==>
                  slots != s.policy.slots && SlotsFit(s.policy, slots)
                  && forall n :: n in s.resources ==>
                       slots.start == s.policy.slots.start && n.n <= slots.maxProduction
                       && (n.Stage? ==> n.k <= slots.maxStaging))
            && (plan.outcome == Done ==> plan.writes == [PutPolicy(s.policy.(slots := slots))])
  {
    SlotsFitMeans(s.policy, slots);
    forall n | n in s.resources && slots.maxStaging >= 0
      ensures ValidResource(s.resources[n], s.policy.(slots := slots)) <==>
              slots.start == s.policy.slots.start && n.n <= slots.maxProduction
              && (n.Stage? ==> n.k <= slots.maxStaging)
    {
      assert s.resources[n].name == n;
      StaysInItsSlot(s.resources[n], s.policy, slots);
    }
  }

  lemma StaysInItsSlot(r: Resource, p: Policy, slots: Slots)
    requires ValidResource(r, p) && slots.maxStaging >= 0
    ensures ValidResource(r, p.(slots := slots)) <==>
            slots.start == p.slots.start && r.name.n <= slots.maxProduction
            && (r.name.Stage? ==> r.name.k <= slots.maxStaging)
  {
  }
}
