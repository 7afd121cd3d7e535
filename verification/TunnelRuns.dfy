/** Which registered staging guests the tunnel serves, over whole runs of registry
    commands.

    The tunnel's routes are computed from the production guests' domains alone, and a
    staging guest keeps the host name that it was allocated with. The two agree until
    a primary domain is changed while a staging guest depends on it.
 */
module TunnelRuns {
  import opened Common
  import opened RegistryTypes
  import opened RegistryRules
  import P = RegistryPlans
  import opened RegistrySafety
  import opened RegistryRuns
  import W = RegistryWrites
  import opened Tunnel

  // One registry ------------------------------------------------------------------------

  /** The routes of the registry's production guests. */
  function RoutesOf(s: Store): seq<Route>
    requires s.policy.slots.maxStaging >= 0 && s.policy.slots.maxProduction >= 0
  {
    AllRoutes(Productions(s.resources, s.policy.slots.maxProduction), s.policy.slots)
  }

  function OwnRoute(r: Resource): Route {
    Route(r.primary, r.name, r.octet)
  }

  /** A staging guest answers under its source's primary domain. */
  predicate Named(resources: map<Name, Resource>, d: Name) {
    d in resources && d.Stage? && SourceOf(d) in resources ==>
      resources[d].primary == P.StagingDomain(d, resources[SourceOf(d)].primary)
  }

  ghost predicate AllNamed(resources: map<Name, Resource>) {
    forall d :: Named(resources, d)
  }

  lemma {:induction false} StageRoutesAreTheirRows(rows: seq<Row>, slots: Slots, r: Route)
    requires slots.maxStaging >= 0 && (forall row :: row in rows ==> row.name.Prod?)
    requires r in AllRoutes(rows, slots) && r.resource.Stage?
    ensures exists row :: row in rows && row.name.n == r.resource.n && r.fqdn == StageHost(r.resource.k, row)
  {
    var init := rows[..|rows| - 1];
    if r in AllRoutes(init, slots) {
      StageRoutesAreTheirRows(init, slots, r);
    } else {
      var row := rows[|rows| - 1];
      assert row in rows;
      StageRouteIsItsRow(row, slots, r);
    }
  }

  lemma StageRouteIsItsRow(row: Row, slots: Slots, r: Route)
    requires slots.maxStaging >= 0 && row.name.Prod? && r in RowRoutes(row, slots) && r.resource.Stage?
    ensures row.name.n == r.resource.n && r.fqdn == StageHost(r.resource.k, row)
  {
    var hosts := StageHosts(row, slots.maxStaging);
    assert r in StageRoutes(row, slots, hosts);
    var i :| 0 <= i < |hosts| && StageRoutes(row, slots, hosts)[i] == r;
  }

  lemma ListedIffNamed(s: Store, d: Name)
    requires Inv(s) && d in s.resources && d.Stage?
    ensures OwnRoute(s.resources[d]) in RoutesOf(s) <==> Named(s.resources, d)
  {
    var rows := Productions(s.resources, s.policy.slots.maxProduction);
    ProductionsMean(s.resources, s.policy.slots.maxProduction);
    var r := s.resources[d];
    var source := s.resources[SourceOf(d)];
    assert ValidResource(r, s.policy) && ValidResource(source, s.policy);
    assert RowOf(source) in rows;
    if Named(s.resources, d) {
      RoutedInItsSlot(r, RowOf(source), rows, s.policy.slots);
    }
    if OwnRoute(r) in RoutesOf(s) {
      StageRoutesAreTheirRows(rows, s.policy.slots, OwnRoute(r));
      var row :| row in rows && row.name.n == d.n && r.primary == StageHost(d.k, row);
      assert row == RowOf(source);
    }
  }

  function RowsOf(s: Store): seq<Row>
    requires s.policy.slots.maxProduction >= 0
  {
    Productions(s.resources, s.policy.slots.maxProduction)
  }

  /** The routes are not refused, and the guest's own name and address are one of them. */
  ghost predicate Serves(s: Store, r: Resource)
    requires s.policy.slots.maxStaging >= 0 && s.policy.slots.maxProduction >= 0
  {
    OneOwnerEach(RoutesOf(s)) && OwnRoute(r) in RoutesOf(s)
  }

  /** The tunnel serves a registered staging guest exactly when its name is under its
      source's present primary domain and no registered domain is the host name of a
      staging slot. */
  lemma ServedIff(s: Store, d: Name)
    requires Inv(s) && d in s.resources && d.Stage?
    ensures Serves(s, s.resources[d]) <==> Named(s.resources, d) && NoStageDomain(RowsOf(s), s.policy.slots)
  {
    ListedIffNamed(s, d);
    RegistryRowsAreAccepted(s);
    RoutesAreAcceptedIff(RowsOf(s), s.policy.slots);
  }

  // One write ------------------------------------------------------------------------------

  /** Every record that is there later was there before, with the same primary domain. */
  predicate SamePrimaries(was: map<Name, Resource>, now: map<Name, Resource>) {
    forall n :: n in now ==> n in was && now[n].primary == was[n].primary
  }

  lemma FewerStayNamed(was: map<Name, Resource>, now: map<Name, Resource>)
    requires AllNamed(was) && SamePrimaries(was, now)
    ensures AllNamed(now)
  {
    forall d ensures Named(now, d) {
      assert Named(was, d);
    }
  }

  predicate KeepsPrimary(resources: map<Name, Resource>, w: P.Write) {
    w.PutResource? ==> w.record.name in resources && w.record.primary == resources[w.record.name].primary
  }

  predicate AllKeepPrimary(resources: map<Name, Resource>, writes: seq<P.Write>) {
    forall w :: w in writes ==> KeepsPrimary(resources, w)
  }

  lemma {:induction false} PrimariesLeft(s: Store, writes: seq<P.Write>)
    requires AllKeepPrimary(s.resources, writes)
    ensures SamePrimaries(s.resources, P.After(s, writes).resources)
  {
    if writes != [] {
      assert writes[|writes| - 1] in writes;
      PrimariesLeft(s, writes[..|writes| - 1]);
    }
  }

  /** A new guest: nothing depends on it yet, and a staging one takes its source's name. */
  lemma NewGuestsAreNamed(s: Store, r: Resource)
    requires Readable(s) && r.name !in s.resources && AllNamed(s.resources)
    requires r.name.Stage? && SourceOf(r.name) in s.resources ==>
               r.primary == P.StagingDomain(r.name, s.resources[SourceOf(r.name)].primary)
    ensures AllNamed(s.resources[r.name := r])
  {
    var now := s.resources[r.name := r];
    forall d ensures Named(now, d) {
      assert Named(s.resources, d);
      assert d in s.resources ==> Linked(s.resources, s.resources[d]);
    }
  }

  // Each command ------------------------------------------------------------------------------

  lemma {:induction false} GiveUpsKeepPrimaries(resources: map<Name, Resource>, stale: seq<Name>)
    requires forall n :: n in resources ==> resources[n].name == n
    ensures AllKeepPrimary(resources, P.GiveUps(resources, stale))
  {
    if stale != [] {
      GiveUpsKeepPrimaries(resources, stale[..|stale| - 1]);
    }
  }

  lemma ReconcileKeepsPrimaries(s: Store, stale: seq<Name>, seen: set<CleanupKey>)
    requires Readable(s)
    ensures AllKeepPrimary(s.resources, P.Reconcile(s, s.policy, stale, seen).writes)
  {
    GiveUpsKeepPrimaries(s.resources, stale);
    W.CompletionsFit(s.cleanup, seen);
    W.DropsOnlyDrop(P.Victims(P.After(s, P.GiveUps(s.resources, stale) + P.Completions(s.cleanup, seen)).cleanup,
        P.Ids(s.resources)));
  }

  predicate KeyedByName(resources: map<Name, Resource>) {
    forall n :: n in resources ==> resources[n].name == n
  }

  lemma ReplacedKeepsPrimary(s: Store, r: Resource)
    requires r.name in s.resources && r.primary == s.resources[r.name].primary
    ensures AllKeepPrimary(s.resources, P.Replace(s, s.policy, r).writes)
  {
  }

  lemma SnapshotIntentKeepsPrimaries(s: Store, a: P.IntentArgs)
    requires KeyedByName(s.resources)
    ensures AllKeepPrimary(s.resources, P.SnapshotIntent(s, s.policy, a).writes)
  {
    var plan := P.SnapshotIntent(s, s.policy, a);
    if plan.writes != [] {
      ReplacedKeepsPrimary(s, plan.writes[0].record);
    }
  }

  lemma RecordSnapshotKeepsPrimaries(s: Store, a: P.RecordArgs)
    requires KeyedByName(s.resources)
    ensures AllKeepPrimary(s.resources, P.RecordSnapshot(s, s.policy, a).writes)
  {
    var plan := P.RecordSnapshot(s, s.policy, a);
    if plan.writes != [] {
      ReplacedKeepsPrimary(s, plan.writes[0].record);
    }
  }

  lemma ShareSnapshotKeepsPrimaries(s: Store, a: P.ShareArgs)
    requires KeyedByName(s.resources)
    ensures AllKeepPrimary(s.resources, P.ShareSnapshot(s, s.policy, a).writes)
  {
    var plan := P.ShareSnapshot(s, s.policy, a);
    if plan.writes != [] {
      ReplacedKeepsPrimary(s, plan.writes[0].record);
    }
  }

  lemma OwnersKeepPrimaries(s: Store, a: P.OwnerArgs)
    requires Readable(s)
    ensures AllKeepPrimary(s.resources, P.RecordOwner(s, s.policy, a).writes)
  {
  }

  /** Neither makes a guest nor updates one. */
  predicate Plain(c: P.Command) {
    !c.CAllocateProd? && !c.CAllocateStaging? && !c.CUpdate?
  }

  lemma PlainCommandsKeepPrimaries(s: Store, c: P.Command)
    requires Readable(s) && Plain(c)
    ensures AllKeepPrimary(s.resources, P.PlanOf(s, s.policy, c).writes)
  {
    match c
    case CReconcile(stale, seen) => ReconcileKeepsPrimaries(s, stale, seen);
    case CRecordOwner(a) => OwnersKeepPrimaries(s, a);
    case CSnapshotIntent(a) => SnapshotIntentKeepsPrimaries(s, a);
    case CRecordSnapshot(a) => RecordSnapshotKeepsPrimaries(s, a);
    case CShareSnapshot(a) => ShareSnapshotKeepsPrimaries(s, a);
    case _ => W.EveryWriteFits(s, s.policy, c);
  }

  lemma AllocatedProdIsNamed(s: Store, a: P.ProdArgs)
    requires Inv(s) && AllNamed(s.resources)
    ensures AllNamed(P.After(s, P.AllocateProd(s, s.policy, a).writes).resources)
  {
    var writes := P.AllocateProd(s, s.policy, a).writes;
    AllocatedProdWrites(s, a);
    if writes != [] {
      AfterSingle(s, writes[0]);
      NewGuestsAreNamed(s, writes[0].record);
    }
  }

  lemma AllocatedProdWrites(s: Store, a: P.ProdArgs)
    ensures var writes := P.AllocateProd(s, s.policy, a).writes;
            writes == []
            || (writes == [writes[0]] && writes[0].PutResource? && writes[0].record.name.Prod?
                && writes[0].record.name !in s.resources)
  {
  }

  lemma AllocatedStagingIsNamed(s: Store, a: P.StagingArgs)
    requires Inv(s) && AllNamed(s.resources)
    ensures AllNamed(P.After(s, P.AllocateStaging(s, s.policy, a).writes).resources)
  {
    var writes := P.AllocateStaging(s, s.policy, a).writes;
    if writes != [] {
      var r := writes[0].record;
      assert writes == [P.PutResource(r)] && r.name !in s.resources;
      NewStagingIsItsSlot(s, a);
      AfterSingle(s, P.PutResource(r));
      NewGuestsAreNamed(s, r);
    }
  }

  /** An accepted update gives a guest another primary domain, and the guest is, or
      has, a staging guest. */
  ghost predicate Renames(s: Store, name: Name, a: P.UpdateArgs) {
    && P.Update(s, s.policy, name, a).outcome == P.Done && name in s.resources
    && a.primary.Some? && a.primary.value != s.resources[name].primary
    && (name.Stage? || P.Dependents(s.resources, name) != {})
  }

  lemma UpdatePlan(s: Store, name: Name, a: P.UpdateArgs)
    requires Readable(s)
    ensures var plan := P.Update(s, s.policy, name, a);
            plan.writes == [] <==> plan.outcome != P.Done
    ensures var plan := P.Update(s, s.policy, name, a);
            plan.writes != [] ==>
              && name in s.resources && |plan.writes| == 1 && plan.writes[0].PutResource?
              && plan.writes[0].record.name == name
              && plan.writes[0].record.primary == P.Or(a.primary, s.resources[name].primary)
  {
  }

  lemma UpdatedKeepNames(s: Store, name: Name, a: P.UpdateArgs)
    requires Inv(s) && AllNamed(s.resources)
    ensures AllNamed(P.After(s, P.Update(s, s.policy, name, a).writes).resources) <==> !Renames(s, name, a)
  {
    UpdatePlan(s, name, a);
    NamesAfterUpdate(s, name, a, P.Update(s, s.policy, name, a));
  }

  lemma NamesAfterUpdate(s: Store, name: Name, a: P.UpdateArgs, plan: P.Plan)
    requires Inv(s) && AllNamed(s.resources) && plan == P.Update(s, s.policy, name, a)
    requires plan.writes == [] <==> plan.outcome != P.Done
    requires plan.writes != [] ==>
               && name in s.resources && |plan.writes| == 1 && plan.writes[0].PutResource?
               && plan.writes[0].record.name == name
               && plan.writes[0].record.primary == P.Or(a.primary, s.resources[name].primary)
    ensures AllNamed(P.After(s, plan.writes).resources) <==> !Renames(s, name, a)
  {
    if plan.writes != [] {
      var r := plan.writes[0].record;
      assert plan.writes == [P.PutResource(r)];
      AfterSingle(s, P.PutResource(r));
      assert Linked(s.resources, s.resources[name]);
      RenamedIff(s.resources, r);
    }
  }

  lemma RenamedIff(was: map<Name, Resource>, r: Resource)
    requires AllNamed(was) && r.name in was && (r.name.Stage? ==> SourceOf(r.name) in was)
    ensures AllNamed(was[r.name := r])
       <==> r.primary == was[r.name].primary || (r.name.Prod? && P.Dependents(was, r.name) == {})
  {
    if r.primary == was[r.name].primary {
      FewerStayNamed(was, was[r.name := r]);
    } else if r.name.Stage? {
      assert Named(was, r.name) && !Named(was[r.name := r], r.name);
    } else {
      RenamedSourceIff(was, r);
    }
  }

  lemma RenamedSourceIff(was: map<Name, Resource>, r: Resource)
    requires AllNamed(was) && r.name in was && r.name.Prod? && r.primary != was[r.name].primary
    ensures AllNamed(was[r.name := r]) <==> P.Dependents(was, r.name) == {}
  {
    var now := was[r.name := r];
    if d :| d in P.Dependents(was, r.name) {
      DomainsDiffer(d, r.primary, was[r.name].primary);
      assert Named(was, d) && !Named(now, d);
    } else {
      forall d ensures Named(now, d) {
        assert Named(was, d);
        assert d.Stage? && d in was ==> d !in P.Dependents(was, r.name);
      }
    }
  }

  lemma DomainsDiffer(d: Name, p: string, q: string)
    ensures P.StagingDomain(d, p) == P.StagingDomain(d, q) <==> p == q
  {
    var head := P.NameText(d) + ".";
    assert (head + p)[|head|..] == p && (head + q)[|head|..] == q;
  }

  // Every run ----------------------------------------------------------------------------------

  lemma PlainStepStaysNamed(s: Store, e: Event)
    requires Inv(s) && AllNamed(s.resources) && Plain(e.command)
    ensures AllNamed(Step(s, e).resources)
  {
    var writes := P.PlanOf(s, s.policy, e.command).writes;
    var reached := Reached(writes, e.diesAfter);
    PlainCommandsKeepPrimaries(s, e.command);
    PrimariesLeft(s, reached);
    FewerStayNamed(s.resources, P.After(s, reached).resources);
  }

  /** A command of one write has performed all of them, or none. */
  lemma AllOrNothing(s: Store, writes: seq<P.Write>, diesAfter: Option<nat>)
    requires |writes| <= 1
    ensures P.After(s, Reached(writes, diesAfter)) == if diesAfter == Some(0) then s else P.After(s, writes)
  {
    assert writes[..0] == [];
  }

  /** A step, in terms of the plan of its command. */
  lemma StepOf(s: Store, e: Event, plan: P.Plan)
    requires P.PlanOf(s, s.policy, e.command) == plan && |plan.writes| <= 1
    ensures Step(s, e) == if e.diesAfter == Some(0) then s else P.After(s, plan.writes)
  {
    AllOrNothing(s, plan.writes, e.diesAfter);
  }

  lemma AllocationStepStaysNamed(s: Store, e: Event)
    requires Inv(s) && AllNamed(s.resources) && (e.command.CAllocateProd? || e.command.CAllocateStaging?)
    ensures AllNamed(Step(s, e).resources)
  {
    match e.command
    case CAllocateProd(a) =>
      W.AllocateProdFits(s, s.policy, a);
      StepOf(s, e, P.AllocateProd(s, s.policy, a));
      AllocatedProdIsNamed(s, a);
    case CAllocateStaging(a) =>
      W.AllocateStagingFits(s, s.policy, a);
      StepOf(s, e, P.AllocateStaging(s, s.policy, a));
      AllocatedStagingIsNamed(s, a);
  }

  lemma UpdatesOnce(s: Store, name: Name, a: P.UpdateArgs)
    ensures |P.Update(s, s.policy, name, a).writes| <= 1
  {
    W.UpdateFits(s, s.policy, name, a);
  }

  lemma UpdateStep(s: Store, name: Name, a: P.UpdateArgs, diesAfter: Option<nat>)
    ensures Step(s, Event(P.CUpdate(name, a), diesAfter))
            == if diesAfter == Some(0) then s else P.After(s, P.Update(s, s.policy, name, a).writes)
  {
    UpdatesOnce(s, name, a);
    StepOf(s, Event(P.CUpdate(name, a), diesAfter), P.Update(s, s.policy, name, a));
  }

  lemma UpdateStepStaysNamed(s: Store, name: Name, a: P.UpdateArgs, diesAfter: Option<nat>)
    requires Inv(s) && AllNamed(s.resources)
    ensures AllNamed(Step(s, Event(P.CUpdate(name, a), diesAfter)).resources)
       <==> !(Renames(s, name, a) && diesAfter != Some(0))
  {
    UpdateStep(s, name, a, diesAfter);
    UpdatedKeepNames(s, name, a);
  }

  /** What one command does: the staging guests stay under their sources' primary
      domains exactly unless an update changes the primary domain of a staging guest
      or of a production guest that has one. */
  lemma StagingStaysNamedIff(s: Store, e: Event)
    requires Inv(s) && AllNamed(s.resources)
    ensures AllNamed(Step(s, e).resources)
       <==> !(e.command.CUpdate? && Renames(s, e.command.name, e.command.update) && e.diesAfter != Some(0))
  {
    match e.command
    case CUpdate(name, a) => UpdateStepStaysNamed(s, name, a, e.diesAfter);
    case CAllocateProd(_) => AllocationStepStaysNamed(s, e);
    case CAllocateStaging(_) => AllocationStepStaysNamed(s, e);
    case _ => PlainStepStaysNamed(s, e);
  }

  ghost predicate NoRenames(p: Policy, es: seq<Event>) {
    es == [] || (NoRenames(p, es[..|es| - 1])
                 && var e := es[|es| - 1];
                    !(e.command.CUpdate? && Renames(Run(p, es[..|es| - 1]), e.command.name, e.command.update)))
  }

  lemma {:induction false} RunsStayNamed(p: Policy, es: seq<Event>)
    requires ValidPolicy(p) && Fresh(p, es) && NoRenames(p, es)
    ensures AllNamed(Run(p, es).resources)
  {
    if es != [] {
      var init := es[..|es| - 1];
      RunsStayNamed(p, init);
      EveryRunKeepsTheInvariant(p, init);
      StagingStaysNamedIff(Run(p, init), es[|es| - 1]);
    }
  }

  /** In every run without such an update, a registered staging guest is served
      exactly while no registered domain is the host name of a staging slot. */
  lemma EveryStagingGuestIsServedIff(p: Policy, es: seq<Event>, d: Name)
    requires ValidPolicy(p) && Fresh(p, es) && NoRenames(p, es)
    requires d in Run(p, es).resources && d.Stage?
    ensures Inv(Run(p, es))
    ensures Serves(Run(p, es), Run(p, es).resources[d]) <==> NoStageDomain(RowsOf(Run(p, es)), Run(p, es).policy.slots)
  {
    EveryRunKeepsTheInvariant(p, es);
    RunsStayNamed(p, es);
    assert Named(Run(p, es).resources, d);
    ServedIff(Run(p, es), d);
  }

  /** Such an update, in a registry whose staging guests are all served, leaves one
      that the tunnel no longer serves. */
  lemma ARenamedGuestIsNotServed(s: Store, name: Name, a: P.UpdateArgs)
    requires Inv(s) && AllNamed(s.resources) && Renames(s, name, a)
    ensures var t := Step(s, Event(P.CUpdate(name, a), None));
            Inv(t) && exists d :: d in t.resources && d.Stage? && !Serves(t, t.resources[d])
  {
    var e := Event(P.CUpdate(name, a), None);
    var t := Step(s, e);
    StepKeeps(s, e);
    UpdateStepStaysNamed(s, name, a, None);
    var d :| !Named(t.resources, d);
    ServedIff(t, d);
  }
}
