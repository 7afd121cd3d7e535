/** How long an orchestration lease holds, who may then do what, and along which
    steps an installation goes; from the commands' arguments alone.
 */
module RegistryHolding {
  import opened Common
  import opened RegistryTypes
  import opened RegistryRules
  import opened RegistryPlans
  import opened RegistrySafety
  import opened RegistryRuns
  import opened RegistryWrites
  import opened RegistryLeases

  // Phases --------------------------------------------------------------------------------

  /** What an installation must have reached before a phase, and whether coming from
      there wipes the disk. */
  predicate Precedes(from: Phase, to: Phase) {
    match to
    case Unknown | Unstarted => false
    case MediaAttached => from == Unknown || from == Unstarted || from == InstallerStarted
    case InstallerStarted => from == MediaAttached
    case InstalledConfirmed => from == Unknown || from == Unstarted || from == InstallerStarted
    case GuestVerified => from == InstalledConfirmed
    case NetworkFinalized => from == GuestVerified
  }

  predicate Wipes(from: Phase, to: Phase) {
    to == MediaAttached && from != Unstarted
  }

  /** A phase is recorded exactly by the holder of a lease that has not run out, one
      step further, and with the WIPE confirmation when that step wipes the disk. */
  lemma APhaseIsRecordedIff(s: Store, a: PhaseArgs)
    requires Readable(s) && a.name in s.resources && a.name.Prod? && a.name in s.orchestration
    requires s.orchestration[a.name].resourceId == s.resources[a.name].id
    ensures var o := s.orchestration[a.name];
            var plan := SetPhase(s, a);
            var holds := o.lease.Some? && o.lease.value.nonce == a.nonce && a.now < o.lease.value.expires as real;
            && (plan.outcome == Done <==>
                  holds && Precedes(o.phase, a.phase) && (Wipes(o.phase, a.phase) ==> a.wipe))
            && (plan.outcome == Unchanged <==> holds && o.phase == a.phase)
            && (plan.outcome == Done ==>
                  plan.writes == [PutOrchestration(a.name, o.(phase := a.phase, revision := o.revision + 1))])
  {
  }

  // Leases ----------------------------------------------------------------------------------

  /** A lease is released exactly by its nonce; without one nothing changes. */
  lemma ALeaseIsReleasedIff(s: Store, name: Name, nonce: string)
    requires Readable(s) && name in s.resources && name.Prod? && name in s.orchestration
    requires s.orchestration[name].resourceId == s.resources[name].id
    ensures var o := s.orchestration[name];
            var plan := ReleaseLease(s, name, nonce);
            && (plan.outcome == Done <==> exists l :: o.lease == Some(l) && l.nonce == nonce)
            && (plan.outcome == Unchanged <==> o.lease == None)
            && (plan.outcome == Done ==>
                  plan.writes == [PutOrchestration(name, o.(lease := None, revision := o.revision + 1))])
  {
  }

  /** The guest is registered, and its orchestration record has this lease and contract. */
  ghost predicate Holds(s: Store, a: AcquireArgs) {
    && Readable(s) && a.name in s.resources && a.name.Prod? && a.name in s.orchestration
    && var o := s.orchestration[a.name];
    && o.resourceId == s.resources[a.name].id
    && o.lease == Some(Lease(a.nonce, a.owner, a.now.Floor + a.ttl))
    && o.network == Some(a.network) && o.installer == Some(a.installer)
  }

  predicate WellAsked(a: AcquireArgs) {
    60 <= a.ttl <= 172800 && (a.initial == Unknown || a.initial == Unstarted)
  }

  /** An accepted request leaves its own lease, for its own time, and its contract; the
      phase is the one there was, or for a first lease the one it asked for. */
  lemma AnAcquireHolds(s: Store, a: AcquireArgs)
    requires Inv(s) && Acquire(s, a).outcome == Done
    ensures var t := After(s, Acquire(s, a).writes);
            && Holds(t, a) && WellAsked(a)
            && (a.name in s.orchestration ==> t.orchestration[a.name].phase == s.orchestration[a.name].phase)
            && (a.name !in s.orchestration ==> t.orchestration[a.name].phase == a.initial)
            && t.resources == s.resources
  {
    AfterSingle(s, Acquire(s, a).writes[0]);
  }

  /** While a lease is held, a request with another nonce that does not name its owner
      is refused exactly before the time is over. */
  lemma AnotherIsRefusedIff(s: Store, a: AcquireArgs, b: AcquireArgs)
    requires Holds(s, a) && b.name == a.name && b.nonce != a.nonce && b.takeOverFrom != Some(a.owner)
    requires WellAsked(b) && b.network == a.network && b.installer == a.installer
    ensures Acquire(s, b).outcome == Refused <==> b.now.Floor < a.now.Floor + a.ttl
    ensures Acquire(s, b).outcome != Refused ==> Acquire(s, b).outcome == Done
  {
  }

  /** The holder, and who names its owner, may always acquire with the same contract;
      nobody may with another one. */
  lemma WhoMayAcquire(s: Store, a: AcquireArgs, b: AcquireArgs)
    requires Holds(s, a) && b.name == a.name && WellAsked(b)
    requires b.nonce == a.nonce || b.takeOverFrom == Some(a.owner)
    ensures Acquire(s, b).outcome == Done <==> b.network == a.network && b.installer == a.installer
  {
  }

  /** The holder's clock decides whether it may record the next phase. */
  lemma TheHolderRecordsIff(s: Store, a: AcquireArgs, b: PhaseArgs)
    requires Holds(s, a) && b.name == a.name && b.nonce == a.nonce
    requires Precedes(s.orchestration[a.name].phase, b.phase)
    requires Wipes(s.orchestration[a.name].phase, b.phase) ==> b.wipe
    ensures SetPhase(s, b).outcome == Done <==> b.now < (a.now.Floor + a.ttl) as real
  {
    APhaseIsRecordedIff(s, b);
  }

  // Over whole runs -------------------------------------------------------------------------

  lemma {:induction false} StaysRegistered(s: Store, writes: seq<Write>, n: Name, id: Id)
    requires SafeAll(s, writes) && Registered(s.resources, n, id) && DropResource(n) !in writes
    ensures Registered(After(s, writes).resources, n, id)
  {
    if writes != [] {
      assert writes[|writes| - 1] in writes;
      StaysRegistered(s, writes[..|writes| - 1], n, id);
    }
  }

  predicate ReleaseOf(c: Command, n: Name) {
    c.CRelease? && c.name == n
  }

  /** A production guest's record is dropped only by its release. */
  lemma OnlyAReleaseDrops(s: Store, e: Event, n: Name)
    requires n.Prod? && DropResource(n) in PlanOf(s, s.policy, e.command).writes
    ensures ReleaseOf(e.command, n)
  {
    EveryWriteFits(s, s.policy, e.command);
    assert Fits(e.command, DropResource(n));
  }

  lemma AHeldGuestIsNotReleased(s: Store, n: Name, force: bool, now: real)
    requires n in s.orchestration && s.orchestration[n].lease.Some?
             && now < s.orchestration[n].lease.value.expires as real
    ensures Release(s, n, force, now).writes == []
  {
  }

  lemma AHeldGuestStays(s: Store, e: Event, n: Name, id: Id, lease: Lease)
    requires Inv(s) && FreshIds(s, e.command) && n.Prod? && Registered(s.resources, n, id)
    requires n in s.orchestration && s.orchestration[n].lease == Some(lease) && BeforeExpiry(e.command, lease)
    ensures Registered(Step(s, e).resources, n, id)
  {
    var writes := PlanOf(s, s.policy, e.command).writes;
    var reached := Reached(writes, e.diesAfter);
    PlansAreSafe(s, e.command);
    if DropResource(n) in writes {
      OnlyAReleaseDrops(s, e, n);
      AHeldGuestIsNotReleased(s, n, e.command.force, e.command.now);
    }
    SafePrefix(s, writes, |reached|);
    assert writes[..|reached|] == reached;
    StaysRegistered(s, reached, n, id);
  }

  /** The lease that a request leaves. */
  function LeaseOf(a: AcquireArgs): Lease {
    Lease(a.nonce, a.owner, a.now.Floor + a.ttl)
  }

  /** The i-th command is the request, it ran to its end and was accepted. */
  ghost predicate Accepted(p: Policy, es: seq<Event>, i: nat, a: AcquireArgs)
    requires i < |es|
  {
    es[i] == Event(CAcquire(a), None) && Acquire(Run(p, es[..i]), a).outcome == Done
  }

  /** No later command comes when the time is over, carries the nonce, or names the
      owner to take over from. */
  predicate Undisturbed(es: seq<Event>, i: nat, a: AcquireArgs) {
    forall j :: i < j < |es| ==>
                  BeforeExpiry(es[j].command, LeaseOf(a)) && !Authorized(es[j].command, a.name, LeaseOf(a))
  }

  /** In every run, from an accepted request on, the lease is held for the time that was
      asked for, with its contract and on the same guest, whatever other commands run
      and wherever they die, until its nonce or its owner's name comes back: by
      AnotherIsRefusedIff and TheHolderRecordsIff, others are refused and the holder is
      not, exactly during that time. */
  lemma {:induction false} ALeaseLastsItsTime(p: Policy, es: seq<Event>, i: nat, a: AcquireArgs)
    requires ValidPolicy(p) && Fresh(p, es) && i < |es| && Accepted(p, es, i, a) && Undisturbed(es, i, a)
    ensures Holds(Run(p, es), a)
  {
    var init := es[..|es| - 1];
    EveryRunKeepsTheInvariant(p, init);
    if i == |init| {
      assert es[..i] == init;
      AcquiredLast(Run(p, init), es[i], a);
    } else {
      assert init[..i] == es[..i];
      ALeaseLastsItsTime(p, init, i, a);
      HoldsOn(Run(p, init), es[|es| - 1], a);
    }
  }

  lemma AcquiredLast(s: Store, e: Event, a: AcquireArgs)
    requires Inv(s) && e == Event(CAcquire(a), None) && Acquire(s, a).outcome == Done
    ensures Holds(Step(s, e), a)
  {
    AnAcquireHolds(s, a);
  }

  lemma HoldsOn(s: Store, e: Event, a: AcquireArgs)
    requires Inv(s) && FreshIds(s, e.command) && Holds(s, a)
    requires BeforeExpiry(e.command, LeaseOf(a)) && !Authorized(e.command, a.name, LeaseOf(a))
    ensures Holds(Step(s, e), a) && Step(s, e).orchestration[a.name] == s.orchestration[a.name]
  {
    StepKeeps(s, e);
    UnauthorizedStep(s, e, a.name, LeaseOf(a));
    AHeldGuestStays(s, e, a.name, s.resources[a.name].id, LeaseOf(a));
  }
}
