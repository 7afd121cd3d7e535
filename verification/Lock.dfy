/** The allocator lock and the commands it protects, with any number of processes
    interleaved step by step (class AllocatorLock of
    scripts/host_runtime/cluster_registry.py).

    Entering is one atomic mkdir and then a write of an owner file with a nonce;
    leaving reads the nonce back, removes the owner file, and removes the directory.
    Between them a command reads the registry and performs its writes one at a
    time. A process may die before any step. Nobody breaks a stale lock. Most commands
    read the policy before they lock, so it may be an older one than the one in force
    when they read the registry.
 */
module Lock {
  import opened Common
  import opened RegistryTypes
  import opened RegistryRules
  import opened RegistryPlans
  import opened RegistrySafety
  import opened RegistryRuns
  import opened RegistryWrites
  import opened RegistryHazards

  type Pid = nat

  /** Where a process is. Its nonce is its own, so the model uses its number. */
  datatype Pc =
    | Waiting(command: Command, policy: Policy)
    | Locked(command: Command, policy: Policy)
    | Entered(command: Command, policy: Policy)
    | Reading(command: Command, policy: Policy, seen: Store)
    | Writing(command: Command, seen: Store, writes: seq<Write>, done: nat)
    | Leaving
    | Verified
    | Unlinked
    | Finished
    | GaveUp
    | Alarmed
    | Dead(holding: bool)

  /** `log` is the commands in the order they wrote, with how much they wrote; only
      the proofs look at it. */
  datatype World = World(store: Store, locked: bool, owner: Option<Pid>, procs: map<Pid, Pc>, log: seq<Event>)

  datatype Move =
    | Start(pid: Pid, command: Command)
    | Go(pid: Pid)
    | OwnerWriteFails(pid: Pid)
    | TimesOut(pid: Pid)
    | Die(pid: Pid)

  predicate Holds(pc: Pc) {
    match pc
    case Waiting(_, _) => false
    case Finished => false
    case GaveUp => false
    case Alarmed => true
    case Dead(holding) => holding
    case _ => true
  }

  function To(w: World, pid: Pid, pc: Pc): World {
    w.(procs := w.procs[pid := pc])
  }

  /** One step of a process that is not failing. */
  ghost function Advance(w: World, pid: Pid): World
    requires pid in w.procs
  {
    match w.procs[pid]
    case Waiting(c, q) => if w.locked then w else To(w, pid, Locked(c, q)).(locked := true)
    case Locked(c, q) => To(w, pid, Entered(c, q)).(owner := Some(pid))
    case Entered(c, q) => To(w, pid, Reading(c, q, w.store))
    case Reading(c, q, seen) => To(w, pid, Writing(c, seen, PlanOf(seen, q, c).writes, 0))
    case Writing(c, seen, writes, done) =>
      if done < |writes| then To(w, pid, Writing(c, seen, writes, done + 1)).(store := Perform(w.store, writes[done]))
      else To(w, pid, Leaving).(log := w.log + [Event(c, Some(done))])
    case Leaving => To(w, pid, if w.owner == Some(pid) then Verified else Alarmed)
    case Verified => To(w, pid, Unlinked).(owner := None)
    case Unlinked => To(w, pid, Finished).(locked := false)
    case _ => w
  }

  /** A writing process that dies is logged with what it has written. */
  function Killed(w: World, pid: Pid): World
    requires pid in w.procs
  {
    var pc := w.procs[pid];
    var dead := To(w, pid, Dead(Holds(pc)));
    if pc.Writing? then dead.(log := w.log + [Event(pc.command, Some(pc.done))]) else dead
  }

  ghost function Next(w: World, m: Move): World {
    if m.Start? then if m.pid in w.procs then w else To(w, m.pid, Waiting(m.command, w.store.policy))
    else if m.pid !in w.procs then w
    else
      match m
      case Go(pid) => Advance(w, pid)
      case OwnerWriteFails(pid) => if w.procs[pid].Locked? then To(w, pid, GaveUp).(locked := false) else w
      case TimesOut(pid) => if w.procs[pid].Waiting? && w.locked then To(w, pid, GaveUp) else w
      case Die(pid) => Killed(w, pid)
      case _ => w
  }

  /** Ids that are handed out are new, and no allocation gives out a slot that was
      moved or removed since it read the policy. */
  ghost predicate Permitted(w: World, m: Move) {
    m.Go? && m.pid in w.procs && w.procs[m.pid].Reading? ==>
      var pc := w.procs[m.pid];
      FreshIds(pc.seen, pc.command) && Timely(pc.seen, pc.policy, pc.command)
  }

  ghost function Worlds(p: Policy, ms: seq<Move>): World {
    if ms == [] then World(Initial(p), false, None, map[], []) else Next(Worlds(p, ms[..|ms| - 1]), ms[|ms| - 1])
  }

  ghost predicate AllPermitted(p: Policy, ms: seq<Move>) {
    ms == [] || (AllPermitted(p, ms[..|ms| - 1]) && Permitted(Worlds(p, ms[..|ms| - 1]), ms[|ms| - 1]))
  }

  // The protocol's invariant -----------------------------------------------------------------

  /** The lock directory exists exactly while one process holds the lock. */
  ghost predicate Exclusive(w: World) {
    && (forall a, b :: a in w.procs && b in w.procs && Holds(w.procs[a]) && Holds(w.procs[b]) ==> a == b)
    && (w.locked <==> exists a :: a in w.procs && Holds(w.procs[a]))
  }

  predicate Owns(pc: Pc) {
    pc.Entered? || pc.Reading? || pc.Writing? || pc.Leaving? || pc.Verified?
  }

  /** The owner file carries the nonce of the process inside. */
  ghost predicate OwnerRecorded(w: World) {
    forall a :: a in w.procs && Owns(w.procs[a]) ==> w.owner == Some(a)
  }

  /** What a process that reads or writes the registry has in hand is what is there,
      but for the slots of its policy. */
  ghost predicate InHand(w: World, pc: Pc) {
    match pc
    case Waiting(c, q) => SlotsOnly(w.store.policy, q)
    case Locked(c, q) => SlotsOnly(w.store.policy, q)
    case Entered(c, q) => SlotsOnly(w.store.policy, q)
    case Reading(c, q, seen) => SlotsOnly(w.store.policy, q) && seen == w.store
    case Writing(c, seen, writes, done) =>
      && FreshIds(seen, c) && (writes == [] || writes == PlanOf(seen, seen.policy, c).writes)
      && done <= |writes| && w.store == After(seen, writes[..done])
    case Alarmed => false
    case _ => true
  }

  ghost predicate AllInHand(w: World) {
    forall a :: a in w.procs ==> InHand(w, w.procs[a])
  }

  predicate Writes(w: World, pid: Pid) {
    pid in w.procs && w.procs[pid].Writing?
  }

  /** The store is what the logged commands made of it one after the other, and the
      one that is being written started from there. */
  ghost predicate Sequential(p: Policy, w: World) {
    && Fresh(p, w.log)
    && (forall a :: Writes(w, a) ==> w.procs[a].seen == Run(p, w.log))
    && ((forall a :: !Writes(w, a)) ==> w.store == Run(p, w.log))
  }

  ghost predicate LockInv(p: Policy, w: World) {
    Exclusive(w) && OwnerRecorded(w) && AllInHand(w) && Sequential(p, w)
  }

  // Every step keeps it ------------------------------------------------------------------------

  /** A process that changes neither the store nor who holds what. */
  lemma QuietKeeps(p: Policy, w: World, pid: Pid, pc: Pc)
    requires LockInv(p, w) && pid in w.procs && Holds(w.procs[pid]) == Holds(pc)
    requires InHand(w, pc) && (Owns(pc) ==> w.owner == Some(pid))
    requires !Writes(w, pid) && !pc.Writing?
    ensures LockInv(p, To(w, pid, pc))
  {
    QuietExclusive(w, pid, pc);
    var t := To(w, pid, pc);
    assert forall a :: Writes(t, a) <==> Writes(w, a);
  }

  lemma QuietExclusive(w: World, pid: Pid, pc: Pc)
    requires Exclusive(w) && pid in w.procs && Holds(w.procs[pid]) == Holds(pc)
    ensures Exclusive(To(w, pid, pc))
  {
    var t := To(w, pid, pc);
    if w.locked {
      var a :| a in w.procs && Holds(w.procs[a]);
      assert a in t.procs && Holds(t.procs[a]);
    }
  }

  lemma StartKeeps(p: Policy, w: World, pid: Pid, c: Command)
    requires LockInv(p, w) && pid !in w.procs
    ensures LockInv(p, To(w, pid, Waiting(c, w.store.policy)))
  {
    var t := To(w, pid, Waiting(c, w.store.policy));
    if w.locked {
      var a :| a in w.procs && Holds(w.procs[a]);
      assert a in t.procs && Holds(t.procs[a]);
    }
    assert forall a :: Writes(t, a) <==> Writes(w, a);
  }

  lemma LockKeeps(p: Policy, w: World, pid: Pid)
    requires LockInv(p, w) && pid in w.procs && w.procs[pid].Waiting? && !w.locked
    ensures LockInv(p, Advance(w, pid))
  {
    var t := Advance(w, pid);
    assert Holds(t.procs[pid]);
    assert forall a :: Writes(t, a) <==> Writes(w, a);
  }

  lemma OwnerWrittenKeeps(p: Policy, w: World, pid: Pid)
    requires LockInv(p, w) && pid in w.procs && w.procs[pid].Locked?
    ensures LockInv(p, Advance(w, pid))
  {
    var t := Advance(w, pid);
    QuietExclusive(w, pid, t.procs[pid]);
    OnlyTheHolderWrites(w, pid);
    assert forall a :: Writes(t, a) <==> Writes(w, a);
  }

  /** Nobody writes but the process that holds the lock. */
  lemma OnlyTheHolderWrites(w: World, pid: Pid)
    requires Exclusive(w) && pid in w.procs && Holds(w.procs[pid])
    ensures forall a :: Writes(w, a) ==> a == pid
    ensures forall a :: a in w.procs && Holds(w.procs[a]) ==> a == pid
  {
  }

  lemma PlanReadKeeps(p: Policy, w: World, pid: Pid)
    requires ValidPolicy(p) && LockInv(p, w) && pid in w.procs && w.procs[pid].Reading? && Permitted(w, Go(pid))
    ensures LockInv(p, Advance(w, pid))
  {
    var was := w.procs[pid];
    var t := Advance(w, pid);
    var pc := t.procs[pid];
    QuietExclusive(w, pid, pc);
    OnlyTheHolderWrites(w, pid);
    EveryRunKeepsTheInvariant(p, w.log);
    TimelyCommands(was.seen, was.policy, was.command);
    assert pc.writes[..0] == [];
    assert InHand(t, pc);
    assert Writes(t, pid);
  }

  /** A write leaves the policy as it was when the command read it, but for its slots. */
  predicate OnlySlotsWritten(p: Policy, writes: seq<Write>) {
    forall w :: w in writes && w.PutPolicy? ==> SlotsOnly(p, w.policy)
  }

  lemma OnlySlotsAreWritten(s: Store, c: Command)
    ensures OnlySlotsWritten(s.policy, PlanOf(s, s.policy, c).writes)
  {
    match c
    case CUpdateSlots(_) =>
    case _ => EveryWriteFits(s, s.policy, c);
  }

  lemma {:induction false} OnlySlotsSince(s: Store, p: Policy, writes: seq<Write>)
    requires OnlySlotsWritten(p, writes) && SlotsOnly(p, s.policy)
    ensures SlotsOnly(p, After(s, writes).policy)
  {
    if writes != [] {
      assert writes[|writes| - 1] in writes;
      OnlySlotsSince(s, p, writes[..|writes| - 1]);
    }
  }

  lemma AfterOneMore(s: Store, writes: seq<Write>, done: nat)
    requires done < |writes|
    ensures After(s, writes[..done + 1]) == Perform(After(s, writes[..done]), writes[done])
  {
    assert writes[..done + 1][..done] == writes[..done];
  }

  lemma PolicyAfterAWrite(seen: Store, c: Command, writes: seq<Write>, done: nat)
    requires writes == PlanOf(seen, seen.policy, c).writes && done < |writes|
    ensures SlotsOnly(After(seen, writes[..done]).policy, After(seen, writes[..done + 1]).policy)
  {
    OnlySlotsAreWritten(seen, c);
    OnlySlotsSince(seen, seen.policy, writes[..done]);
    OnlySlotsSince(seen, seen.policy, writes[..done + 1]);
  }

  lemma WriteKeeps(p: Policy, w: World, pid: Pid)
    requires LockInv(p, w) && Writes(w, pid) && w.procs[pid].done < |w.procs[pid].writes|
    ensures LockInv(p, Advance(w, pid))
  {
    var pc := w.procs[pid];
    var t := Advance(w, pid);
    QuietExclusive(w, pid, t.procs[pid]);
    OnlyTheHolderWrites(w, pid);
    AfterOneMore(pc.seen, pc.writes, pc.done);
    PolicyAfterAWrite(pc.seen, pc.command, pc.writes, pc.done);
    assert Writes(t, pid);
    forall a | a in t.procs ensures InHand(t, t.procs[a]) {
      assert a != pid ==> InHand(w, w.procs[a]) && !Holds(w.procs[a]);
    }
  }

  /** What the log gains when a command has written all it will. */
  lemma LoggedIsRun(p: Policy, log: seq<Event>, e: Event, s: Store)
    requires Fresh(p, log) && s == Run(p, log) && FreshIds(s, e.command)
    ensures Fresh(p, log + [e]) && Run(p, log + [e]) == Step(s, e)
  {
    assert (log + [e])[..|log|] == log;
  }

  lemma ReachedPart(plan: seq<Write>, writes: seq<Write>, done: nat)
    requires (writes == [] || writes == plan) && done <= |writes|
    ensures Reached(plan, Some(done)) == writes[..done]
  {
  }

  /** What was written is what a run of the command, cut short there, writes. */
  lemma WrittenIsStep(s: Store, c: Command, writes: seq<Write>, done: nat)
    requires (writes == [] || writes == PlanOf(s, s.policy, c).writes) && done <= |writes|
    ensures Step(s, Event(c, Some(done))) == After(s, writes[..done])
  {
    ReachedPart(PlanOf(s, s.policy, c).writes, writes, done);
  }

  lemma WrittenIsLogged(p: Policy, w: World, pid: Pid)
    requires LockInv(p, w) && Writes(w, pid)
    ensures var log := w.log + [Event(w.procs[pid].command, Some(w.procs[pid].done))];
            Fresh(p, log) && Run(p, log) == w.store
  {
    var pc := w.procs[pid];
    assert InHand(w, pc);
    LoggedIsRun(p, w.log, Event(pc.command, Some(pc.done)), pc.seen);
    WrittenIsStep(pc.seen, pc.command, pc.writes, pc.done);
  }

  /** A writing process stops writing, complete or dead. */
  lemma StopWritingKeeps(p: Policy, w: World, pid: Pid, next: Pc)
    requires LockInv(p, w) && Writes(w, pid) && (next == Leaving || next == Dead(true))
    ensures LockInv(p, To(w, pid, next).(log := w.log + [Event(w.procs[pid].command, Some(w.procs[pid].done))]))
  {
    var t := To(w, pid, next).(log := w.log + [Event(w.procs[pid].command, Some(w.procs[pid].done))]);
    QuietExclusive(w, pid, next);
    OnlyTheHolderWrites(w, pid);
    WrittenIsLogged(p, w, pid);
    assert forall a :: !Writes(t, a);
  }

  lemma UnlinkKeeps(p: Policy, w: World, pid: Pid)
    requires LockInv(p, w) && pid in w.procs && w.procs[pid].Verified?
    ensures LockInv(p, Advance(w, pid))
  {
    var t := Advance(w, pid);
    QuietExclusive(w, pid, t.procs[pid]);
    OnlyTheHolderWrites(w, pid);
    assert forall a :: Writes(t, a) <==> Writes(w, a);
  }

  /** Leaving the lock, after unlinking the owner file or without having written it. */
  lemma UnlockKeeps(p: Policy, w: World, pid: Pid, next: Pc)
    requires LockInv(p, w) && pid in w.procs && (w.procs[pid].Unlinked? || w.procs[pid].Locked?)
    requires next == Finished || next == GaveUp
    ensures LockInv(p, To(w, pid, next).(locked := false))
  {
    var t := To(w, pid, next).(locked := false);
    OnlyTheHolderWrites(w, pid);
    assert forall a :: a in t.procs ==> !Holds(t.procs[a]);
    assert forall a :: !Writes(t, a) && !Writes(w, a);
  }

  lemma AdvanceKeeps(p: Policy, w: World, pid: Pid)
    requires ValidPolicy(p) && LockInv(p, w) && pid in w.procs && Permitted(w, Go(pid))
    ensures LockInv(p, Advance(w, pid))
  {
    match w.procs[pid]
    case Waiting(_, _) => if !w.locked { LockKeeps(p, w, pid); }
    case Locked(_, _) => OwnerWrittenKeeps(p, w, pid);
    case Entered(c, q) => QuietKeeps(p, w, pid, Reading(c, q, w.store));
    case Reading(_, _, _) => PlanReadKeeps(p, w, pid);
    case Writing(_, _, writes, done) =>
      if done < |writes| {
        WriteKeeps(p, w, pid);
      } else {
        StopWritingKeeps(p, w, pid, Leaving);
      }
    case Leaving => QuietKeeps(p, w, pid, Verified);
    case Verified => UnlinkKeeps(p, w, pid);
    case Unlinked => UnlockKeeps(p, w, pid, Finished);
    case _ =>
  }

  lemma NextKeeps(p: Policy, w: World, m: Move)
    requires ValidPolicy(p) && LockInv(p, w) && Permitted(w, m)
    ensures LockInv(p, Next(w, m))
  {
    match m
    case Start(pid, c) => if pid !in w.procs { StartKeeps(p, w, pid, c); }
    case Go(pid) => if pid in w.procs { AdvanceKeeps(p, w, pid); }
    case OwnerWriteFails(pid) => if pid in w.procs && w.procs[pid].Locked? { UnlockKeeps(p, w, pid, GaveUp); }
    case TimesOut(pid) => if pid in w.procs && w.procs[pid].Waiting? { QuietKeeps(p, w, pid, GaveUp); }
    case Die(pid) =>
      if pid in w.procs {
        if w.procs[pid].Writing? {
          StopWritingKeeps(p, w, pid, Dead(true));
        } else {
          QuietKeeps(p, w, pid, Dead(Holds(w.procs[pid])));
        }
      }
  }

  lemma {:induction false} EveryInterleavingKeepsTheProtocol(p: Policy, ms: seq<Move>)
    requires ValidPolicy(p) && AllPermitted(p, ms)
    ensures LockInv(p, Worlds(p, ms))
  {
    if ms != [] {
      EveryInterleavingKeepsTheProtocol(p, ms[..|ms| - 1]);
      NextKeeps(p, Worlds(p, ms[..|ms| - 1]), ms[|ms| - 1]);
    } else {
      assert Worlds(p, ms).log == [];
    }
  }

  // What that means -----------------------------------------------------------------------------

  predicate Inside(pc: Pc) {
    pc.Locked? || Owns(pc) || pc.Unlinked?
  }

  /** At most one process is inside, and no check of the nonce on leaving ever fails. */
  lemma MutualExclusion(p: Policy, ms: seq<Move>, a: Pid, b: Pid)
    requires ValidPolicy(p) && AllPermitted(p, ms)
    requires a in Worlds(p, ms).procs && b in Worlds(p, ms).procs
    ensures Inside(Worlds(p, ms).procs[a]) && Inside(Worlds(p, ms).procs[b]) ==> a == b
    ensures !Worlds(p, ms).procs[a].Alarmed?
    ensures Worlds(p, ms).procs[a].Leaving? ==> Worlds(p, ms).owner == Some(a)
  {
    EveryInterleavingKeepsTheProtocol(p, ms);
  }

  /** Each write is safe for the registry that is there when it is performed: it was
      planned and validated against a registry that nobody else has changed since. */
  lemma WritesFitWhatIsThere(p: Policy, ms: seq<Move>, a: Pid)
    requires ValidPolicy(p) && AllPermitted(p, ms) && Writes(Worlds(p, ms), a)
    requires Worlds(p, ms).procs[a].done < |Worlds(p, ms).procs[a].writes|
    ensures var w := Worlds(p, ms);
            var pc := w.procs[a];
            && pc.writes == PlanOf(pc.seen, pc.seen.policy, pc.command).writes
            && w.store == After(pc.seen, pc.writes[..pc.done])
            && Inv(pc.seen) && Inv(w.store) && Safe(w.store, pc.writes[pc.done])
  {
    EveryInterleavingKeepsTheProtocol(p, ms);
    var w := Worlds(p, ms);
    var pc := w.procs[a];
    EveryRunKeepsTheInvariant(p, w.log);
    PlansAreSafe(pc.seen, pc.command);
    SafePrefix(pc.seen, pc.writes, pc.done);
    SafeAllKeeps(pc.seen, pc.writes[..pc.done]);
  }

  /** Whatever the interleaving, the registry is what a sequence of complete or cut
      short commands, one after the other, makes of it. While nobody writes, that
      sequence is the log. */
  lemma InterleavingsAreSequential(p: Policy, ms: seq<Move>)
    requires ValidPolicy(p) && AllPermitted(p, ms)
    ensures exists es :: Fresh(p, es) && Worlds(p, ms).store == Run(p, es)
    ensures (forall a :: !Writes(Worlds(p, ms), a)) ==> Worlds(p, ms).store == Run(p, Worlds(p, ms).log)
    ensures Inv(Worlds(p, ms).store)
  {
    EveryInterleavingKeepsTheProtocol(p, ms);
    var w := Worlds(p, ms);
    if a :| Writes(w, a) {
      WhileWriting(p, w, a);
    } else {
      EveryRunKeepsTheInvariant(p, w.log);
    }
  }

  lemma WhileWriting(p: Policy, w: World, a: Pid)
    requires ValidPolicy(p) && LockInv(p, w) && Writes(w, a)
    ensures Inv(w.store) && exists es :: Fresh(p, es) && w.store == Run(p, es)
  {
    WrittenIsLogged(p, w, a);
    EveryRunKeepsTheInvariant(p, w.log + [Event(w.procs[a].command, Some(w.procs[a].done))]);
  }

  // Allocations that are too late ----------------------------------------------------------------

  /** The process plans, and performs the first write of its plan. */
  ghost function AfterItsFirstWrite(w: World, a: Pid): World
    requires a in w.procs
  {
    Advance(Advance(w, a), a)
  }

  lemma FirstWrite(w: World, a: Pid)
    requires a in w.procs && w.procs[a].Reading? && w.procs[a].seen == w.store
    ensures var pc := w.procs[a];
            var writes := PlanOf(pc.seen, pc.policy, pc.command).writes;
            AfterItsFirstWrite(w, a).store == if writes == [] then w.store else Perform(w.store, writes[0])
  {
  }

  lemma PlannedWrites(s: Store, q: Policy, c: Command)
    requires Inv(s) && FreshIds(s, c) && SlotsOnly(s.policy, q) && (c.CAllocateProd? || c.CAllocateStaging?)
    ensures var writes := PlanOf(s, q, c).writes;
            writes != [] ==>
              PlanOf(s, q, c).outcome == Done && writes == [writes[0]]
              && (Readable(After(s, writes)) <==> Timely(s, q, c))
  {
    var writes := PlanOf(s, q, c).writes;
    if writes != [] {
      AllocationUnderAnOldPolicy(s, q, c);
      assert writes == [writes[0]];
      assert writes[0] in writes;
    }
  }

  /** An allocation that is about to plan leaves the registry readable exactly when it
      is not too late. So in every interleaving the registry stays readable up to the
      first allocation, if any, whose slot was moved or removed since it read the
      policy. */
  lemma TimelyIff(p: Policy, ms: seq<Move>, a: Pid)
    requires ValidPolicy(p) && AllPermitted(p, ms)
    requires a in Worlds(p, ms).procs && Worlds(p, ms).procs[a].Reading?
    requires var pc := Worlds(p, ms).procs[a];
             FreshIds(pc.seen, pc.command) && (pc.command.CAllocateProd? || pc.command.CAllocateStaging?)
    ensures var pc := Worlds(p, ms).procs[a];
            Readable(AfterItsFirstWrite(Worlds(p, ms), a).store) <==> Timely(pc.seen, pc.policy, pc.command)
  {
    var w := Worlds(p, ms);
    var pc := w.procs[a];
    EveryInterleavingKeepsTheProtocol(p, ms);
    InterleavingsAreSequential(p, ms);
    assert InHand(w, pc);
    TimelyAt(w, a);
  }

  lemma TimelyAt(w: World, a: Pid)
    requires a in w.procs && w.procs[a].Reading? && InHand(w, w.procs[a]) && Inv(w.store)
    requires FreshIds(w.procs[a].seen, w.procs[a].command)
    requires w.procs[a].command.CAllocateProd? || w.procs[a].command.CAllocateStaging?
    ensures var pc := w.procs[a];
            Readable(AfterItsFirstWrite(w, a).store) <==> Timely(pc.seen, pc.policy, pc.command)
  {
    var pc := w.procs[a];
    var writes := PlanOf(pc.seen, pc.policy, pc.command).writes;
    FirstWrite(w, a);
    PlannedWrites(pc.seen, pc.policy, pc.command);
    if writes != [] {
      AfterSingle(pc.seen, writes[0]);
    }
  }
}
