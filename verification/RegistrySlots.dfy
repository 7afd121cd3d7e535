/** Slots and addresses, and what a retried allocation does.
 */
module RegistrySlots {
  import opened Common
  import opened RegistryTypes
  import opened RegistryRules
  import opened RegistryPlans
  import opened RegistrySafety
  import opened RegistryRuns

  // Addresses -------------------------------------------------------------------------

  /** Different slots have different addresses, none of them a host's or the gateway's. */
  lemma SlotsHaveTheirOwnAddresses(p: Policy, a: Name, b: Name)
    requires ValidPolicy(p) && NameOk(a) && NameOk(b) && InSlots(p, a) && InSlots(p, b)
    ensures SlotOctet(p, a) == SlotOctet(p, b) <==> a == b
    ensures 1 <= SlotOctet(p, a) <= 254 && !(p.hostFirst <= SlotOctet(p, a) <= p.hostLast)
            && SlotOctet(p, a) != p.gateway
  {
  }

  /** So no two well-formed guests of different names share an address. */
  lemma GuestsNeverShareAnAddress(a: Resource, b: Resource, p: Policy)
    requires ValidPolicy(p) && ValidResource(a, p) && ValidResource(b, p) && a.name != b.name
    ensures a.octet != b.octet
  {
    SlotsHaveTheirOwnAddresses(p, a.name, b.name);
  }

  /** An accepted change of the slots keeps every registered guest's address, so with
      any guest registered the slots keep their start. */
  lemma ChangedSlotsKeepTheStart(s: Store, slots: Slots)
    requires Inv(s) && UpdateSlots(s, slots).outcome == Done && s.resources != map[]
    ensures slots.start == s.policy.slots.start
    ensures forall n :: n in s.resources ==> InSlots(s.policy.(slots := slots), n)
  {
    var n :| n in s.resources;
    assert ValidResource(s.resources[n], s.policy);
    forall n | n in s.resources ensures InSlots(s.policy.(slots := slots), n) {
      assert s.resources[n].name == n;
    }
  }

  // Which slot a new guest gets -----------------------------------------------------------

  /** Without a requested slot a new production guest gets the lowest free one. */
  lemma NewProdGetsTheLowestSlot(s: Store, a: ProdArgs)
    requires Inv(s) && AllocateProd(s, s.policy, a).outcome == Done && a.index.None?
    ensures var name := AllocateProd(s, s.policy, a).writes[0].record.name;
            name.Prod? && name !in s.resources && forall j: nat :: 1 <= j < name.n ==> Prod(j) in s.resources
  {
  }

  /** There is no slot for it only when all are taken. */
  lemma NoSlotLeft(s: Store, a: ProdArgs)
    requires a.index.None?
    ensures ProdIndex(a, s.resources.Keys, s.policy).None? <==>
            forall j: nat :: 1 <= j <= s.policy.slots.maxProduction ==> Prod(j) in s.resources
  {
    var index := FirstFreeProd(s.resources.Keys, 1, s.policy.slots.maxProduction);
    if index.Some? {
      assert Prod(index.value) !in s.resources;
    }
  }

  lemma NewStagingGetsTheLowestSlot(s: Store, a: StagingArgs)
    requires Inv(s) && AllocateStaging(s, s.policy, a).outcome == Done
    ensures var r := AllocateStaging(s, s.policy, a).writes[0].record;
            && r.name.Stage? && SourceOf(r.name) == a.source && r.name !in s.resources
            && (forall j: nat :: 1 <= j < r.name.k ==> Stage(j, r.name.n) in s.resources)
            && r.placement == [a.node] && |StagedOn(s.resources, a.node)| < a.limit
            && r.octet == s.resources[a.source].octet + r.name.k
  {
    assert s.resources[a.source].name == a.source;
    assert ValidResource(s.resources[a.source], s.policy);
  }

  // Retries ----------------------------------------------------------------------------------

  lemma OneHolder(s: Store, allocation: Option<string>, a: Name, b: Name)
    requires Readable(s) && HasAllocation(s, allocation, a) && HasAllocation(s, allocation, b)
    ensures a == b
  {
    assert a != b ==> Compatible(s.resources[a], s.resources[b]);
  }

  /** The same allocation asked for again, under its id: nothing more is allocated. A
      different one under that id is refused. */
  lemma ARetriedProdIsNotAllocatedTwice(s: Store, a: ProdArgs, again: ProdArgs)
    requires Inv(s) && a.newId !in s.issued && AllocateProd(s, s.policy, a).outcome == Done
    requires a.allocation.Some? && again.allocation == a.allocation && ProdArgsOk(again, s.policy)
    ensures var t := After(s, AllocateProd(s, s.policy, a).writes);
            AllocateProd(t, t.policy, again) == if ProdRequest(again) == ProdRequest(a) then UNCHANGED else REFUSED
  {
    var writes := AllocateProd(s, s.policy, a).writes;
    assert writes == [writes[0]];
    var r := writes[0].record;
    AllocateProdIsSafe(s, a);
    SafeAllKeeps(s, writes);
    AfterSingle(s, writes[0]);
    var t := After(s, writes);
    assert HasAllocation(t, again.allocation, r.name);
    forall n | HasAllocation(t, again.allocation, n) ensures n == r.name {
      OneHolder(t, again.allocation, n, r.name);
    }
  }
}
