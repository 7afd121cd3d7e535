/** Orchestration leases and install phases over whole runs.
 */
module RegistryLeases {
  import opened Common
  import opened RegistryTypes
  import opened RegistryRules
  import opened RegistryPlans
  import opened RegistrySafety
  import opened RegistryRuns
  import opened RegistryWrites

  // Exclusivity -------------------------------------------------------------------------

  /** The time at which a command looks at leases. */
  function ClockOf(c: Command): Option<real> {
    match c
    case CAcquire(a) => Some(a.now)
    case CSetPhase(a) => Some(a.now)
    case CRelease(_, _, now) => Some(now)
    case _ => None
  }

  /** The command carries the lease's nonce, or names its owner to take it over. */
  predicate Authorized(c: Command, n: Name, lease: Lease) {
    match c
    case CAcquire(a) => a.name == n && (a.nonce == lease.nonce || a.takeOverFrom == Some(lease.owner))
    case CSetPhase(a) => a.name == n && a.nonce == lease.nonce
    case CReleaseLease(name, nonce) => name == n && nonce == lease.nonce
    case _ => false
  }

  predicate BeforeExpiry(c: Command, lease: Lease) {
    ClockOf(c).Some? ==> ClockOf(c).value < lease.expires as real
  }

  /** The write is not about the name's orchestration record. */
  predicate LeavesOrchestration(w: Write, n: Name) {
    match w
    case PutOrchestration(name, _) => name != n
    case DropOrchestration(name) => name != n
    case _ => true
  }

  lemma {:induction false} OrchestrationLeft(s: Store, writes: seq<Write>, n: Name)
    requires n in s.orchestration && forall w :: w in writes ==> LeavesOrchestration(w, n)
    ensures var t := After(s, writes); n in t.orchestration && t.orchestration[n] == s.orchestration[n]
  {
    if writes != [] {
      assert writes[|writes| - 1] in writes;
      OrchestrationLeft(s, writes[..|writes| - 1], n);
    }
  }

  /** An unauthorized command about a live lease's guest is refused. */
  lemma UnauthorizedIsRefused(s: Store, c: Command, n: Name, lease: Lease)
    requires n in s.orchestration && s.orchestration[n].lease == Some(lease)
             && RegistryWrites.Orchestrated(c) == Some(n)
    requires BeforeExpiry(c, lease) && !Authorized(c, n, lease)
    ensures PlanOf(s, s.policy, c).writes == []
  {
    if c.CAcquire? {
      assert HeldByAnother(Some(lease), c.acquire);
    }
  }

  /** A command that is not authorized does not touch the record of a live lease. */
  lemma UnauthorizedWrites(s: Store, c: Command, n: Name, lease: Lease)
    requires n in s.orchestration && s.orchestration[n].lease == Some(lease)
    requires BeforeExpiry(c, lease) && !Authorized(c, n, lease)
    ensures forall w :: w in PlanOf(s, s.policy, c).writes ==> LeavesOrchestration(w, n)
  {
    if RegistryWrites.Orchestrated(c) == Some(n) {
      UnauthorizedIsRefused(s, c, n, lease);
    } else {
      EveryWriteFits(s, s.policy, c);
    }
  }

  lemma UnauthorizedStep(s: Store, e: Event, n: Name, lease: Lease)
    requires n in s.orchestration && s.orchestration[n].lease == Some(lease)
    requires BeforeExpiry(e.command, lease) && !Authorized(e.command, n, lease)
    ensures var t := Step(s, e); n in t.orchestration && t.orchestration[n] == s.orchestration[n]
  {
    var writes := PlanOf(s, s.policy, e.command).writes;
    var reached := Reached(writes, e.diesAfter);
    UnauthorizedWrites(s, e.command, n, lease);
    OrchestrationLeft(s, reached, n);
  }

  /** While a lease is unexpired and unreleased, nobody but its holder, or who takes
      over from its owner by name, changes anything on the record: not the lease,
      not the install phase, not the contract. */
  lemma {:induction false} AHeldRecordIsLeftAlone(p: Policy, es: seq<Event>, i: nat, n: Name, lease: Lease)
    requires i <= |es|
    requires n in Run(p, es[..i]).orchestration && Run(p, es[..i]).orchestration[n].lease == Some(lease)
    requires forall j :: i <= j < |es| ==> BeforeExpiry(es[j].command, lease) && !Authorized(es[j].command, n, lease)
    ensures n in Run(p, es).orchestration && Run(p, es).orchestration[n] == Run(p, es[..i]).orchestration[n]
  {
    if i == |es| {
      assert es[..i] == es;
    } else {
      var init := es[..|es| - 1];
      assert init[..i] == es[..i];
      AHeldRecordIsLeftAlone(p, init, i, n, lease);
      UnauthorizedStep(Run(p, init), es[|es| - 1], n, lease);
    }
  }

  // Install phases --------------------------------------------------------------------------

  /** The guest's orchestration record before and after. */
  predicate Continues(s: Store, t: Store, n: Name) {
    n in s.orchestration && Orchestrates(t, n, s.orchestration[n].resourceId)
  }

  predicate PutsSamePhase(s: Store, writes: seq<Write>) {
    writes == []
    || (|writes| == 1 && writes[0].PutOrchestration?
        && (writes[0].name in s.orchestration ==>
              writes[0].orchestration.phase == s.orchestration[writes[0].name].phase))
  }

  lemma AcquireKeepsThePhase(s: Store, a: AcquireArgs)
    ensures PutsSamePhase(s, Acquire(s, a).writes)
  {
  }

  lemma ReleaseLeaseKeepsThePhase(s: Store, name: Name, nonce: string)
    ensures PutsSamePhase(s, ReleaseLease(s, name, nonce).writes)
  {
  }

  lemma PhaseLeft(s: Store, writes: seq<Write>, n: Name, k: nat)
    requires n in s.orchestration && PutsSamePhase(s, writes) && k <= |writes|
    ensures var t := After(s, writes[..k]); Continues(s, t, n) ==> t.orchestration[n].phase == s.orchestration[n].phase
  {
    if k == 1 {
      assert writes[..k] == [writes[0]];
      AfterSingle(s, writes[0]);
    } else {
      assert writes[..k] == [];
    }
  }

  /** No other command puts an orchestration record. */
  lemma {:induction false} NothingPut(s: Store, writes: seq<Write>, n: Name)
    requires forall w :: w in writes ==> !w.PutOrchestration?
    ensures var t := After(s, writes); n in t.orchestration ==>
              n in s.orchestration && t.orchestration[n] == s.orchestration[n]
  {
    if writes != [] {
      assert writes[|writes| - 1] in writes;
      NothingPut(s, writes[..|writes| - 1], n);
    }
  }

  lemma OthersPutNothing(s: Store, c: Command)
    requires !OrchestrationCommand(c)
    ensures forall w :: w in PlanOf(s, s.policy, c).writes ==> !w.PutOrchestration?
  {
    EveryWriteFits(s, s.policy, c);
  }

  /** What must hold for one command to change a guest's install phase. */
  ghost predicate MayChangePhase(s: Store, c: Command, n: Name, to: Phase)
    requires n in s.orchestration
  {
    var o := s.orchestration[n];
    && c.CSetPhase? && c.phase.name == n && c.phase.phase == to
    && Live(o.lease, c.phase.now) && o.lease.value.nonce == c.phase.nonce
    && MayFollow(o.phase, to) && (Destructive(o.phase, to) ==> c.phase.wipe)
  }

  lemma SetPhaseChanges(s: Store, a: PhaseArgs, n: Name, diesAfter: Option<nat>)
    requires n in s.orchestration
    ensures var t := After(s, Reached(SetPhase(s, a).writes, diesAfter));
            Continues(s, t, n) && t.orchestration[n].phase != s.orchestration[n].phase ==>
              MayChangePhase(s, CSetPhase(a), n, t.orchestration[n].phase)
  {
    var writes := SetPhase(s, a).writes;
    if |writes| == 1 {
      assert writes == [writes[0]];
      AfterSingle(s, writes[0]);
      assert writes[..0] == [];
    }
  }

  ghost predicate PhaseKeptOrAllowed(s: Store, c: Command, t: Store, n: Name) {
    Continues(s, t, n) && t.orchestration[n].phase != s.orchestration[n].phase ==>
      MayChangePhase(s, c, n, t.orchestration[n].phase)
  }

  lemma ReachedPhase(s: Store, c: Command, diesAfter: Option<nat>, n: Name)
    ensures PhaseKeptOrAllowed(s, c, After(s, Reached(PlanOf(s, s.policy, c).writes, diesAfter)), n)
  {
    if n in s.orchestration {
      var writes := PlanOf(s, s.policy, c).writes;
      var reached := Reached(writes, diesAfter);
      assert reached == writes[..|reached|];
      match c
      case CSetPhase(a) => SetPhaseChanges(s, a, n, diesAfter);
      case CAcquire(a) =>
        AcquireKeepsThePhase(s, a);
        PhaseLeft(s, writes, n, |reached|);
      case CReleaseLease(name, nonce) =>
        ReleaseLeaseKeepsThePhase(s, name, nonce);
        PhaseLeft(s, writes, n, |reached|);
      case _ =>
        OthersPutNothing(s, c);
        NothingPut(s, reached, n);
    }
  }

  /** An install phase is changed only by the current holder of a live lease, along
      the allowed transitions, and a destructive restart only with a confirmation. */
  lemma OnlyTheHolderChangesThePhase(s: Store, e: Event, n: Name)
    ensures PhaseKeptOrAllowed(s, e.command, Step(s, e), n)
  {
    ReachedPhase(s, e.command, e.diesAfter, n);
    assert Step(s, e) == After(s, Reached(PlanOf(s, s.policy, e.command).writes, e.diesAfter));
  }

  /** The destructive restarts of a name's installation in a run. */
  ghost function Restarts(p: Policy, es: seq<Event>, n: Name): nat {
    if es == [] then 0 else
      var init := es[..|es| - 1];
      Restarts(p, init, n) + if RestartedBetween(Run(p, init), Run(p, es), n) then 1 else 0
  }

  predicate RestartedBetween(s: Store, t: Store, n: Name) {
    Continues(s, t, n) && Destructive(s.orchestration[n].phase, t.orchestration[n].phase)
  }

  /** The set-phase commands about a name that came with the WIPE confirmation. */
  function Confirmations(es: seq<Event>, n: Name): nat {
    if es == [] then 0 else
      var c := es[|es| - 1].command;
      Confirmations(es[..|es| - 1], n) + if c.CSetPhase? && c.phase.name == n && c.phase.wipe then 1 else 0
  }

  /** Every destructive restart used up a confirmation of its own. */
  lemma {:induction false} EachRestartWasConfirmed(p: Policy, es: seq<Event>, n: Name)
    ensures Restarts(p, es, n) <= Confirmations(es, n)
  {
    if es != [] {
      var init := es[..|es| - 1];
      EachRestartWasConfirmed(p, init, n);
      if RestartedBetween(Run(p, init), Run(p, es), n) {
        OnlyTheHolderChangesThePhase(Run(p, init), es[|es| - 1], n);
      }
    }
  }

  /** The contract is the same once recorded, and a confirmed installation stays so. */
  predicate ForGood(was: Orchestration, now: Orchestration) {
    && (was.network.Some? ==> now.network == was.network)
    && (was.installer.Some? ==> now.installer == was.installer)
    && (was.phase in {InstalledConfirmed, GuestVerified, NetworkFinalized} ==>
          now.phase in {InstalledConfirmed, GuestVerified, NetworkFinalized})
  }

  predicate ContinuesForGood(s: Store, t: Store, n: Name) {
    Continues(s, t, n) ==> ForGood(s.orchestration[n], t.orchestration[n])
  }

  lemma LaterIsForGood(s: Store, t: Store, n: Name)
    requires Later(s, t)
    ensures ContinuesForGood(s, t, n)
  {
  }

  /** For one guest, whatever happens: the VM contract never changes once it is
      recorded, and once the installation was confirmed the installation medium is
      never attached again. */
  lemma InstalledIsForGood(p: Policy, es: seq<Event>, i: nat, n: Name)
    requires ValidPolicy(p) && Fresh(p, es) && i <= |es|
    ensures ContinuesForGood(Run(p, es[..i]), Run(p, es), n)
  {
    RunsMoveForward(p, es, i);
    LaterIsForGood(Run(p, es[..i]), Run(p, es), n);
  }
}
