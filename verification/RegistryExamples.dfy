/** Short runs from an empty registry that end where the commands refuse what they
    themselves have left.
 */
module RegistryExamples {
  import opened Common
  import opened RegistryTypes
  import opened RegistryRules
  import opened RegistryPlans
  import opened RegistrySafety
  import opened RegistryRuns
  import T = Text
  import Hazards = RegistryHazards
  import Tunnel
  import TunnelRuns

  // A small cluster -----------------------------------------------------------------

  function PolicyAt(start: int): (p: Policy)
    requires start == 10 || start == 100
    ensures ValidPolicy(p)
  {
    Policy(1, 3, 254, 3, Slots(start, 2, 2))
  }

  const PRIMARY := "a.example"

  function NewGuest(aliases: seq<string>, id: Id): ProdArgs {
    ProdArgs(100, "web", PRIMARY, aliases, None, [1], None, None, None, id)
  }

  /** Texts longer than the names of the guest itself. */
  predicate Long(aliases: seq<string>) {
    Distinct(aliases) && forall a :: a in aliases ==> |a| > |PRIMARY| + 8
  }

  lemma StageDomainsAreLong(k: nat, n: nat, primary: string)
    ensures |StagingDomain(Stage(k, n), primary)| > |primary| + 8
  {
  }

  lemma GuestFits(q: Policy, start: int, aliases: seq<string>, id: Id)
    requires (start == 10 || start == 100) && q == PolicyAt(start) && Long(aliases)
    ensures var a := NewGuest(aliases, id);
            ProdArgsOk(a, q) && ValidResource(NewProd(a, 1, q), q) && Consistent(map[Prod(1) := NewProd(a, 1, q)])
  {
    var a := NewGuest(aliases, id);
    assert |StagingBase(a)| == |PRIMARY| + 8;
  }

  /** In an empty registry the guest is allocated as prod1. */
  lemma FirstGuest(s: Store, start: int, aliases: seq<string>, id: Id)
    requires s.resources == map[] && (start == 10 || start == 100) && Long(aliases)
    ensures var q := PolicyAt(start);
            AllocateProd(s, q, NewGuest(aliases, id)) == Plan(Done, [PutResource(NewProd(NewGuest(aliases, id), 1, q))])
  {
    GuestFits(PolicyAt(start), start, aliases, id);
    assert s.resources[Prod(1) := NewProd(NewGuest(aliases, id), 1, PolicyAt(start))]
           == map[Prod(1) := NewProd(NewGuest(aliases, id), 1, PolicyAt(start))];
  }

  lemma StepDone(s: Store, c: Command, w: Write)
    requires PlanOf(s, s.policy, c) == Plan(Done, [w])
    ensures Step(s, Event(c, None)) == Perform(s, w)
  {
    AfterSingle(s, w);
  }

  const P10 := PolicyAt(10)

  ghost predicate Reachable(s: Store) {
    exists es :: Fresh(P10, es) && Run(P10, es) == s
  }

  lemma ReachableStart()
    ensures Reachable(Initial(P10))
  {
    assert Fresh(P10, []) && Run(P10, []) == Initial(P10);
  }

  lemma ReachableStep(s: Store, e: Event)
    requires Reachable(s) && FreshIds(s, e.command)
    ensures Reachable(Step(s, e))
  {
    var es :| Fresh(P10, es) && Run(P10, es) == s;
    assert (es + [e])[..|es|] == es;
    assert Fresh(P10, es + [e]) && Run(P10, es + [e]) == Step(s, e);
  }

  lemma ReachableIsValid(s: Store)
    requires Reachable(s)
    ensures Inv(s)
  {
    var es :| Fresh(P10, es) && Run(P10, es) == s;
    EveryRunKeepsTheInvariant(P10, es);
  }

  // An allocation under an old policy -------------------------------------------------------

  /** The slots are moved between the allocation's reading of the policy and its turn
      at the lock: its guest makes the registry unreadable. */
  lemma AnUnreadableRegistry()
    ensures var s := Step(Initial(PolicyAt(10)), Event(CUpdateSlots(PolicyAt(100).slots), None));
            var plan := AllocateProd(s, PolicyAt(10), NewGuest([], 0));
            plan.outcome == Done && Inv(s) && !Readable(After(s, plan.writes))
  {
    var s0 := Initial(PolicyAt(10));
    var c := CUpdateSlots(PolicyAt(100).slots);
    StepDone(s0, c, PutPolicy(PolicyAt(100)));
    var s := Step(s0, Event(c, None));
    FirstGuest(s, 10, [], 0);
    var r := NewProd(NewGuest([], 0), 1, PolicyAt(10));
    AfterSingle(s, PutResource(r));
    assert !ValidResource(r, s.policy);
    assert Perform(s, PutResource(r)).resources[Prod(1)] == r;
  }

  // A release that dies half-way ---------------------------------------------------------------

  function Allocation(aliases: seq<string>, id: Id): Event {
    Event(CAllocateProd(NewGuest(aliases, id)), None)
  }

  const ACQUIRE := AcquireArgs(Prod(1), "nonce", "owner", None, 60, Unstarted, Network(true, None),
      Installer("iso", "auto"), 1.0)
  const HALF_RELEASE := Event(CRelease(Prod(1), false, 100.0), Some(1))

  /** With the first guest, and nothing else but what is orchestrated. */
  function WithGuest(aliases: seq<string>, id: Id, orchestration: map<Name, Orchestration>, issued: set<Id>): Store {
    Store(P10, map[Prod(1) := NewProd(NewGuest(aliases, id), 1, P10)], [], orchestration, issued)
  }

  lemma Allocated(s: Store, aliases: seq<string>, id: Id)
    requires s == Store(P10, map[], [], s.orchestration, s.issued) && Long(aliases)
    ensures Step(s, Allocation(aliases, id)) == WithGuest(aliases, id, s.orchestration, s.issued + {id})
  {
    FirstGuest(s, 10, aliases, id);
    StepDone(s, CAllocateProd(NewGuest(aliases, id)), PutResource(NewProd(NewGuest(aliases, id), 1, P10)));
  }

  const RECORD := Orchestration(0, Unstarted, Some(ACQUIRE.network), Some(ACQUIRE.installer),
                                Some(LeaseFor(ACQUIRE)), 1)

  lemma AcquireIsDone(s: Store)
    requires s == WithGuest([], 0, map[], {0})
    ensures Acquire(s, ACQUIRE) == Plan(Done, [PutOrchestration(Prod(1), RECORD)])
  {
    GuestFits(P10, 10, [], 0);
  }

  lemma Acquired(s: Store)
    requires s == WithGuest([], 0, map[], {0})
    ensures Step(s, Event(CAcquire(ACQUIRE), None)) == WithGuest([], 0, map[Prod(1) := RECORD], {0})
  {
    AcquireIsDone(s);
    StepDone(s, CAcquire(ACQUIRE), PutOrchestration(Prod(1), RECORD));
  }

  lemma ReleaseIsDone(s: Store)
    requires s == WithGuest([], 0, map[Prod(1) := RECORD], {0})
    ensures MayRelease(s, Prod(1), 100.0) && Releasable(s.resources[Prod(1)])
  {
    GuestFits(P10, 10, [], 0);
  }

  lemma HalfReleased(s: Store)
    requires s == WithGuest([], 0, map[Prod(1) := RECORD], {0})
    ensures Step(s, HALF_RELEASE) == Store(P10, map[], [], map[Prod(1) := RECORD], {0})
  {
    ReleaseIsDone(s);
    Hazards.OrchestratedRelease(s, Prod(1), false, 100.0);
    assert Release(s, Prod(1), false, 100.0).writes[..1] == [DropResource(Prod(1))];
    AfterSingle(s, DropResource(Prod(1)));
    assert s.resources - {Prod(1)} == map[];
  }

  lemma OneGuest(aliases: seq<string>)
    requires Long(aliases)
    ensures Reachable(WithGuest(aliases, 0, map[], {0}))
  {
    ReachableStart();
    ReachableStep(Initial(P10), Allocation(aliases, 0));
    Allocated(Initial(P10), aliases, 0);
  }

  const ORPHANED := Store(P10, map[], [], map[Prod(1) := RECORD], {0})

  lemma OneOrphan()
    ensures Reachable(ORPHANED)
  {
    OneGuest([]);
    ReachableStep(WithGuest([], 0, map[], {0}), Event(CAcquire(ACQUIRE), None));
    Acquired(WithGuest([], 0, map[], {0}));
    ReachableStep(WithGuest([], 0, map[Prod(1) := RECORD], {0}), HALF_RELEASE);
    HalfReleased(WithGuest([], 0, map[Prod(1) := RECORD], {0}));
  }

  /** A guest is allocated and orchestrated, its release dies half-way, and the next
      guest of its name is stuck. */
  lemma AStuckGuest()
    ensures exists s :: Reachable(s) && Hazards.Stuck(s, Prod(1), 1, 0)
  {
    OneOrphan();
    StuckAfter(ORPHANED);
  }

  lemma IsStuck(s: Store)
    requires s.resources == map[Prod(1) := NewProd(NewGuest([], 1), 1, P10)]
    requires s.orchestration == map[Prod(1) := RECORD]
    ensures Hazards.Stuck(s, Prod(1), 1, 0)
  {
  }

  lemma StuckAfter(s: Store)
    requires Reachable(s) && s == Store(P10, map[], [], map[Prod(1) := RECORD], {0})
    ensures exists t :: Reachable(t) && Hazards.Stuck(t, Prod(1), 1, 0)
  {
    var t := Step(s, Allocation([], 1));
    ReachableStep(s, Allocation([], 1));
    Allocated(s, [], 1);
    IsStuck(t);
  }

  // Host names of the tunnel -----------------------------------------------------------------

  lemma AliasOfItsSlot(rows: seq<Tunnel.Row>, slots: Slots, i: nat)
    requires slots.maxStaging >= 1 && Tunnel.RowsApart(rows) && i < |rows|
    requires Tunnel.StageHost(1, rows[i]) in rows[i].aliases
    ensures !Tunnel.OneOwnerEach(Tunnel.AllRoutes(rows, slots))
  {
    Tunnel.RoutesAreAcceptedIff(rows, slots);
    AliasIsAStageDomain(rows, slots, i);
  }

  lemma AliasIsAStageDomain(rows: seq<Tunnel.Row>, slots: Slots, i: nat)
    requires slots.maxStaging >= 1 && i < |rows| && Tunnel.StageHost(1, rows[i]) in rows[i].aliases
    ensures !Tunnel.NoStageDomain(rows, slots)
  {
    var alias := Tunnel.StageHost(1, rows[i]);
    var hosts := Tunnel.StageHosts(rows[i], slots.maxStaging);
    assert hosts[0] == alias;
    assert alias in Tunnel.RowDomains(rows[i]) && alias in hosts;
    assert !Tunnel.Disjoint(Tunnel.RowDomains(rows[i]), hosts);
  }

  lemma RefusedWithAlias(s: Store, n: nat)
    requires Inv(s) && Prod(n) in s.resources
    requires StagingDomain(Stage(1, n), s.resources[Prod(n)].primary) in s.resources[Prod(n)].aliases
    ensures !Tunnel.OneOwnerEach(TunnelRuns.RoutesOf(s))
  {
    var rows := Tunnel.Productions(s.resources, s.policy.slots.maxProduction);
    Tunnel.RegistryRowsAreAccepted(s);
    Tunnel.ProductionsMean(s.resources, s.policy.slots.maxProduction);
    assert ValidResource(s.resources[Prod(n)], s.policy);
    var row := Tunnel.RowOf(s.resources[Prod(n)]);
    assert row in rows;
    var i :| 0 <= i < |rows| && rows[i] == row;
    AliasOfItsSlot(rows, s.policy.slots, i);
  }

  /** A production guest may have a staging slot's host name as an alias: the registry
      is valid, and the tunnel's routes are refused. */
  lemma RefusedRoutes()
    ensures exists s :: Reachable(s) && Inv(s) && !Tunnel.OneOwnerEach(TunnelRuns.RoutesOf(s))
  {
    var alias := StagingDomain(Stage(1, 1), PRIMARY);
    StageDomainsAreLong(1, 1, PRIMARY);
    OneGuest([alias]);
    var s := WithGuest([alias], 0, map[], {0});
    ReachableIsValid(s);
    RefusedWithAlias(s, 1);
  }

  const COPY := StagingArgs(Prod(1), 101, 1, 1, None, None, None, 1)

  /** Nothing but another primary domain. */
  const RENAME := UpdateArgs(None, None, None, None, false, None, None, Some("b.example"), None, false, None, None,
      None, false,
                             None, None, None, false, None, false, None, None, map[], false)

  function Source(): Resource {
    NewProd(NewGuest([], 0), 1, P10)
  }

  function Copy(): Resource {
    NewStaging(COPY, 1, Source(), P10)
  }

  function WithCopy(source: Resource): Store {
    Store(P10, map[Prod(1) := source, Stage(1, 1) := Copy()], [], map[], {0, 1})
  }

  lemma CopyIsValid()
    ensures ValidResource(Copy(), P10) && |Copy().primary| > |PRIMARY| + 8
  {
    StageDomainsAreLong(1, 1, PRIMARY);
    assert |Source().stagingBase| == |PRIMARY| + 8;
  }

  /** The copy fits its source, under whatever primary domain that has no more than a
      few characters. */
  lemma CopyFits(source: Resource)
    requires source == Source().(primary := source.primary, revision := source.revision)
             && |source.primary| <= |PRIMARY| + 8
    ensures Consistent(map[Prod(1) := source, Stage(1, 1) := Copy()])
  {
    CopyIsValid();
    var all := map[Prod(1) := source, Stage(1, 1) := Copy()];
    assert Domains(source) == [source.primary] && Domains(Copy()) == [Copy().primary];
    assert Compatible(source, Copy()) && Compatible(Copy(), source);
    assert Linked(all, Copy()) && Linked(all, source);
  }

  lemma GuestIsReadable(s: Store)
    requires s == WithGuest([], 0, map[], {0})
    ensures Readable(s) && s.resources[Prod(1)] == Source()
  {
    GuestFits(P10, 10, [], 0);
  }

  lemma CopyIsAsked(s: Store)
    requires s.resources == map[Prod(1) := Source()]
    ensures NodesOk([COPY.node], P10) && CanStage(Source(), COPY) && StagedOn(s.resources, 1) == {}
    ensures !(exists n :: HasAllocation(s, COPY.allocation, n))
    ensures FirstFreeStage(s.resources.Keys, 1, 1, P10.slots.maxStaging) == Some(1)
  {
  }

  lemma CopyIsDone(s: Store)
    requires s == WithGuest([], 0, map[], {0})
    ensures AllocateStaging(s, P10, COPY) == Plan(Done, [PutResource(Copy())])
  {
    GuestIsReadable(s);
    CopyIsAsked(s);
    CopyIsValid();
    CopyFits(Source());
    assert s.resources[Stage(1, 1) := Copy()] == map[Prod(1) := Source(), Stage(1, 1) := Copy()];
  }

  lemma Copied(s: Store)
    requires s == WithGuest([], 0, map[], {0})
    ensures Step(s, Event(CAllocateStaging(COPY), None)) == WithCopy(Source())
  {
    CopyIsDone(s);
    StepDone(s, CAllocateStaging(COPY), PutResource(Copy()));
    assert s.resources[Stage(1, 1) := Copy()] == map[Prod(1) := Source(), Stage(1, 1) := Copy()];
  }

  function Renamed(): Resource {
    Source().(primary := "b.example", revision := 2)
  }

  lemma RenamedIsValid()
    ensures ValidResource(Renamed(), P10) && Updated(Source(), RENAME) == Renamed()
  {
    GuestFits(P10, 10, [], 0);
    assert |Renamed().stagingBase| == |PRIMARY| + 8;
  }

  lemma WithCopyIsReadable()
    ensures Readable(WithCopy(Source()))
  {
    GuestFits(P10, 10, [], 0);
    CopyIsValid();
    CopyFits(Source());
  }

  lemma RenameIsAccepted(s: Store)
    requires s == WithCopy(Source())
    ensures AcceptsFirst(Source(), RENAME, P10, Dependents(s.resources, Prod(1)))
    ensures AcceptsRest(Source(), RENAME, ProdLinked(s, Prod(1)), SnapshotDependents(s, Prod(1)))
    ensures ChangesFirst(Source(), RENAME)
  {
  }

  lemma RenameIsDone(s: Store)
    requires s == WithCopy(Source())
    ensures Update(s, P10, Prod(1), RENAME) == Plan(Done, [PutResource(Renamed())])
  {
    WithCopyIsReadable();
    RenameIsAccepted(s);
    RenamedIsValid();
    CopyFits(Renamed());
    assert s.resources[Prod(1) := Renamed()] == map[Prod(1) := Renamed(), Stage(1, 1) := Copy()];
  }

  lemma CopyIsNamed(s: Store)
    requires s == WithCopy(Source())
    ensures TunnelRuns.AllNamed(s.resources)
  {
    forall d ensures TunnelRuns.Named(s.resources, d) {
      assert d in s.resources ==> d == Prod(1) || d == Stage(1, 1);
    }
  }

  lemma RenamesTheSource(s: Store)
    requires s == WithCopy(Source())
    ensures TunnelRuns.Renames(s, Prod(1), RENAME)
  {
    RenameIsDone(s);
    assert Stage(1, 1) in Dependents(s.resources, Prod(1));
  }

  lemma CopyIsReachable()
    ensures Reachable(WithCopy(Source()))
  {
    OneGuest([]);
    ReachableStep(WithGuest([], 0, map[], {0}), Event(CAllocateStaging(COPY), None));
    Copied(WithGuest([], 0, map[], {0}));
  }

  /** A production guest is given another primary domain while it has a staging guest:
      the tunnel no longer serves that one. */
  lemma AGuestThatIsNotServed()
    ensures exists s, d ::
              Reachable(s) && Inv(s) && d in s.resources && d.Stage? && !TunnelRuns.Serves(s, s.resources[d])
  {
    CopyIsReachable();
    NotServedAfter(WithCopy(Source()));
  }

  lemma NotServedAfter(s: Store)
    requires Reachable(s) && s == WithCopy(Source())
    ensures exists t, d ::
              Reachable(t) && Inv(t) && d in t.resources && d.Stage? && !TunnelRuns.Serves(t, t.resources[d])
  {
    var e := Event(CUpdate(Prod(1), RENAME), None);
    ReachableStep(s, e);
    ReachableIsValid(s);
    CopyIsNamed(s);
    RenamesTheSource(s);
    TunnelRuns.ARenamedGuestIsNotServed(s, Prod(1), RENAME);
  }
}
