/** The live disk switch (scripts/host_runtime/instant_switch.py): a running guest's
    disk moves from a qcow2 overlay over a restore point onto a zvol.

    QEMU, Proxmox's config and the guest are the environment. Between any two
    requests of the helper the guest may write, QEMU may copy a block or finish or
    fail the commit job, the VM may stop, locks may come and go. The helper may also
    be stopped between any two of its requests and run again.

    `guest` is the logical disk: what the guest wrote, over what it booted from. Only
    the proofs and the guest itself look at it.
 */
module SwitchWorld {

  type Block = int

  datatype Volume = OverlayVolume | TargetVolume | OtherVolume
  datatype Top = OnOverlay | OnTarget | OnOther

  /** What QEMU reads where the overlay has no data. */
  datatype Backing = NoBacking | Mapping | TargetBacking | StrayBacking

  /** The zvol's block node, and whether it reads the zvol's device. */
  datatype TargetNode = Absent | Present(right: bool)

  /** The block-commit job of this VM's switch. */
  datatype Job = NoJob | Running | Ready | Completing | Concluded(failed: bool)

  datatype World = World(
    running: bool, volume: Volume, locked: bool, pending: bool,
    top: Top, backing: Backing, targetNode: TargetNode, job: Job, dirty: set<nat>,
    overlay: map<nat, Block>, zvol: seq<Block>, point: seq<Block>, guest: seq<Block>)

  /** The overlay's data where it has any, and the base's elsewhere. */
  function Merge(overlay: map<nat, Block>, base: seq<Block>): (r: seq<Block>)
    ensures |r| == |base| && forall i :: 0 <= i < |base| ==> r[i] == if i in overlay then overlay[i] else base[i]
  {
    seq(|base|, i requires 0 <= i < |base| => if i in overlay then overlay[i] else base[i])
  }

  /** What a running guest reads from its disk. */
  function Visible(w: World): seq<Block> {
    match w.top
    case OnTarget => w.zvol
    case OnOverlay => if w.backing == TargetBacking then Merge(w.overlay, w.zvol) else Merge(w.overlay, w.point)
    case OnOther => w.guest
  }

  /** What the VM would boot from. */
  function BootImage(w: World): seq<Block> {
    match w.volume
    case TargetVolume => w.zvol
    case OverlayVolume => Merge(w.overlay, w.point)
    case OtherVolume => w.guest
  }

  predicate Active(job: Job) {
    job == Running || job == Ready || job == Completing
  }

  // The environment ---------------------------------------------------------------------

  datatype Env =
    | GuestWrite(i: nat, b: Block)
    | CopyBlock(i: nat)
    | BecomesReady
    | Pivots
    | JobFails
    | VmStops
    | VmStarts
    | SetsLock(locked: bool, pending: bool)
    | Refill

  /** A write while the job is active must be copied again; the pivot happens once
      everything was. `Refill` is the caller's copy of the restore point into a zvol
      that is not in use. */
  function EnvStep(w: World, e: Env): World {
    match e
    case GuestWrite(i, b) =>
      if !w.running || i >= |w.guest| || i >= |w.zvol| || w.top == OnOther then w
      else if w.top == OnTarget then w.(zvol := w.zvol[i := b], guest := w.guest[i := b])
      else w.(overlay := w.overlay[i := b], guest := w.guest[i := b],
              dirty := if Active(w.job) then w.dirty + {i} else w.dirty)
    case CopyBlock(i) =>
      if Active(w.job) && i in w.dirty && i in w.overlay && i < |w.zvol|
      then w.(zvol := w.zvol[i := w.overlay[i]], dirty := w.dirty - {i}) else w
    case BecomesReady => if w.job == Running && w.dirty == {} then w.(job := Ready) else w
    case Pivots =>
      if w.job == Completing && w.dirty == {}
      then w.(job := Concluded(false), top := OnTarget, backing := NoBacking) else w
    case JobFails => if Active(w.job) then w.(job := Concluded(true), dirty := {}) else w
    case VmStops => if w.running then w.(running := false, job := NoJob, dirty := {}, targetNode := Absent) else w
    case VmStarts =>
      if w.running then w
      else
        var up := w.(running := true, job := NoJob, dirty := {}, targetNode := Absent, guest := BootImage(w));
        (match w.volume
         case OverlayVolume => up.(top := OnOverlay, backing := Mapping)
         case TargetVolume => up.(top := OnTarget, backing := NoBacking, targetNode := Present(true))
         case OtherVolume => up.(top := OnOther, backing := StrayBacking))
    case SetsLock(locked, pending) => w.(locked := locked, pending := pending)
    case Refill => if w.running && w.top == OnOverlay && w.backing == Mapping then w.(zvol := w.point) else w
  }

  // The helper's requests -------------------------------------------------------------------

  datatype Command =
    | AddNode
    | Reopen
    | BlockCommit
    | JobComplete
    | JobDismiss
    | SetDrive(expected: Volume, volume: Volume)

  /** A request either changes the world or is refused, by QEMU or under the config's
      lock, and then changes nothing. */
  function Do(w: World, c: Command): (World, bool) {
    match c
    case AddNode => if w.running && w.targetNode == Absent then (w.(targetNode := Present(true)), true) else (w, false)
    case Reopen =>
      if w.running && w.top == OnOverlay && w.targetNode.Present? && w.job == NoJob
      then (w.(backing := if w.targetNode.right then TargetBacking else StrayBacking), true) else (w, false)
    case BlockCommit =>
      if w.running && w.top == OnOverlay && w.backing == TargetBacking && w.job == NoJob
      then (w.(job := Running, dirty := w.overlay.Keys), true) else (w, false)
    case JobComplete => if w.running && w.job == Ready then (w.(job := Completing), true) else (w, false)
    case JobDismiss => if w.running && w.job.Concluded? then (w.(job := NoJob), true) else (w, false)
    case SetDrive(expected, volume) =>
      if !w.locked && !w.pending && w.volume == expected then (w.(volume := volume), true) else (w, false)
  }

  // What always holds -------------------------------------------------------------------------

  /** Outside the overlay the zvol still has the restore point's data. */
  ghost predicate Filled(w: World) {
    |w.zvol| == |w.point| && forall i :: 0 <= i < |w.zvol| && i !in w.overlay ==> w.zvol[i] == w.point[i]
  }

  /** The zvol alone is the guest's disk. The top of a stopped VM is the one that it
      last ran on. */
  predicate Complete(w: World) {
    w.zvol == w.guest && w.top == OnTarget
  }

  function BootTop(volume: Volume): Top {
    match volume
    case OverlayVolume => OnOverlay
    case TargetVolume => OnTarget
    case OtherVolume => OnOther
  }

  /** Starting the stopped VM boots it from another disk than it last ran on. */
  predicate Reverts(w: World) {
    !w.running && BootTop(w.volume) != w.top
  }

  predicate Sizes(w: World) {
    |w.zvol| == |w.point| == |w.guest| && forall i :: i in w.overlay ==> i < |w.zvol|
  }

  /** What the guest reads is what it wrote. */
  predicate ReadsItsWrites(w: World) {
    w.running && w.top != OnOther && w.backing != StrayBacking ==> Visible(w) == w.guest
  }

  /** A commit job runs only over the zvol, and what it has copied is there. */
  ghost predicate JobOk(w: World) {
    Active(w.job) ==>
      && w.running && w.top == OnOverlay && w.backing == TargetBacking && w.dirty <= w.overlay.Keys
      && (forall i :: i in w.overlay && i !in w.dirty && i < |w.zvol| ==> w.zvol[i] == w.overlay[i])
  }

  /** A job is over the zvol until it has pivoted; one that did is on the zvol. */
  predicate JobPlace(w: World) {
    && (w.job != NoJob ==> w.running && (w.top == OnTarget || (w.top == OnOverlay && w.backing == TargetBacking)))
    && (w.job == Concluded(false) ==> w.top == OnTarget)
  }

  predicate GraphOk(w: World) {
    && (w.running && w.top == OnTarget ==> w.backing == NoBacking)
    && (w.running && w.top == OnOverlay ==> w.backing != NoBacking)
    && (w.running && w.backing == TargetBacking ==> w.top == OnOverlay && w.targetNode == Present(true))
  }

  /** While the overlay reads the zvol, and also when the VM is stopped, the guest's
      disk is what the overlay over the restore point gives, or the zvol. */
  ghost predicate DataOk(w: World) {
    && (w.running && w.top == OnOverlay && w.backing == TargetBacking ==> Filled(w))
    && (!w.running && w.volume != OtherVolume ==> w.guest == w.zvol || w.guest == Merge(w.overlay, w.point))
  }

  /** The config names the zvol only when the zvol alone is the guest's disk. */
  predicate ConfigOk(w: World) {
    w.volume == TargetVolume ==> Complete(w)
  }

  ghost predicate Inv(w: World) {
    Sizes(w) && ReadsItsWrites(w) && JobOk(w) && JobPlace(w) && GraphOk(w) && DataOk(w) && ConfigOk(w)
    && (w.running && w.top == OnOther ==> w.volume == OtherVolume)
    && (w.volume == OtherVolume ==> !w.running || w.top == OnOther)
  }

  /** A guest that runs over its mapping, or would boot from it as it last did, can be
      switched: what the zvol lacks of its disk is in the overlay. */
  ghost predicate Switchable(w: World) {
    && (w.running && w.top == OnOverlay && w.backing == Mapping ==> Filled(w))
    && (!w.running && w.volume == OverlayVolume && w.top == OnOverlay ==>
          Filled(w) && w.guest == Merge(w.overlay, w.point))
  }

  lemma FilledMerges(w: World)
    requires Filled(w)
    ensures Merge(w.overlay, w.zvol) == Merge(w.overlay, w.point)
  {
  }

  // The environment keeps it --------------------------------------------------------------------

  lemma GuestWriteKeeps(w: World, i: nat, b: Block)
    requires Inv(w)
    ensures Inv(EnvStep(w, GuestWrite(i, b))) && (Switchable(w) ==> Switchable(EnvStep(w, GuestWrite(i, b))))
  {
    var t := EnvStep(w, GuestWrite(i, b));
    if t != w && w.top == OnOverlay {
      assert Merge(t.overlay, w.zvol) == Merge(w.overlay, w.zvol)[i := b];
      assert Merge(t.overlay, w.point) == Merge(w.overlay, w.point)[i := b];
    }
  }

  lemma CopyBlockKeeps(w: World, i: nat)
    requires Inv(w)
    ensures Inv(EnvStep(w, CopyBlock(i))) && (Switchable(w) ==> Switchable(EnvStep(w, CopyBlock(i))))
  {
    var t := EnvStep(w, CopyBlock(i));
    if t != w {
      assert Merge(t.overlay, t.zvol) == Merge(w.overlay, w.zvol);
    }
  }

  /** When everything was copied the zvol is what the guest reads. */
  lemma PivotKeeps(w: World)
    requires Inv(w)
    ensures Inv(EnvStep(w, Pivots)) && (Switchable(w) ==> Switchable(EnvStep(w, Pivots)))
  {
    if w.job == Completing && w.dirty == {} {
      assert Merge(w.overlay, w.zvol) == w.zvol;
    }
  }

  lemma StopKeeps(w: World)
    requires Inv(w) && w.backing != StrayBacking
    ensures Inv(EnvStep(w, VmStops)) && (Switchable(w) ==> Switchable(EnvStep(w, VmStops)))
  {
    if w.running && w.top == OnOverlay && w.backing == TargetBacking {
      FilledMerges(w);
    }
  }

  /** No request of the helper ever puts another base under the overlay. */
  predicate NoStray(w: World) {
    w.backing == StrayBacking ==> w.top == OnOther
  }

  lemma StartKeeps(w: World)
    requires Inv(w) && NoStray(w)
    ensures var t := EnvStep(w, VmStarts);
            Inv(t) && NoStray(t) && (Switchable(w) && !Reverts(w) ==> Switchable(t) && t.guest == w.guest)
  {
  }

  /** Whatever the environment does keeps the invariant. A switchable guest stays
      switchable unless its VM is booted from another disk than it last ran on. */
  lemma EnvKeeps(w: World, e: Env)
    requires Inv(w) && NoStray(w)
    ensures Inv(EnvStep(w, e)) && NoStray(EnvStep(w, e))
    ensures Switchable(w) && !(e == VmStarts && Reverts(w)) ==> Switchable(EnvStep(w, e))
  {
    match e
    case GuestWrite(i, b) => GuestWriteKeeps(w, i, b);
    case CopyBlock(i) => CopyBlockKeeps(w, i);
    case Pivots => PivotKeeps(w);
    case VmStops =>
      if w.backing != StrayBacking {
        StopKeeps(w);
      }
    case VmStarts => StartKeeps(w);
    case _ =>
  }

  // The helper's requests keep it, and the guest sees nothing -------------------------------------

  /** When the helper may make a request. */
  ghost predicate Allowed(w: World, c: Command) {
    match c
    case Reopen => w.targetNode != Present(false) && (w.running && w.top == OnOverlay ==> Filled(w))
    case SetDrive(expected, volume) =>
      || (expected == OverlayVolume && volume == TargetVolume && Complete(w))
      || (expected == TargetVolume && volume == OverlayVolume)
    case _ => true
  }

  lemma CommandKeeps(w: World, c: Command)
    requires Inv(w) && NoStray(w) && Allowed(w, c)
    ensures var t := Do(w, c).0;
            && Inv(t) && NoStray(t) && (Switchable(w) ==> Switchable(t))
            && t.guest == w.guest && (w.running ==> Visible(t) == Visible(w))
  {
    match c
    case Reopen =>
      if Do(w, c).1 {
        FilledMerges(w);
      }
    case _ =>
  }

  /** Those are exactly the states in which it may be made: whenever it is accepted in
      another one, the guest reads something else or the invariant is gone. */
  lemma CommandKeepsIff(w: World, c: Command)
    requires Inv(w) && NoStray(w) && Do(w, c).1
    requires c.SetDrive? ==> c == POINT || c == SetDrive(TargetVolume, OverlayVolume)
    ensures var t := Do(w, c).0; Inv(t) && NoStray(t) && Visible(t) == Visible(w) <==> Allowed(w, c)
  {
    if Allowed(w, c) {
      CommandKeeps(w, c);
    } else if c == Reopen && w.targetNode == Present(true) {
      ReopenIsSeen(w);
    }
  }

  lemma ReopenIsSeen(w: World)
    requires Sizes(w) && w.backing != TargetBacking && !Filled(w) && Do(w, Reopen).1 && w.targetNode == Present(true)
    ensures Visible(Do(w, Reopen).0) != Visible(w)
  {
    var i :| 0 <= i < |w.zvol| && i !in w.overlay && w.zvol[i] != w.point[i];
    assert Visible(Do(w, Reopen).0)[i] != Visible(w)[i];
  }

  // Where it would go wrong -------------------------------------------------------------------------

  /** Reopening the overlay over the zvol is invisible to the guest exactly when the
      zvol has the restore point's data wherever the overlay has none. */
  lemma ReopenIsInvisibleIff(w: World)
    requires Inv(w) && w.running && w.top == OnOverlay && w.backing == Mapping && w.targetNode == Present(true)
             && w.job == NoJob
    ensures Visible(Do(w, Reopen).0) == Visible(w) <==> Filled(w)
  {
    if Filled(w) {
      FilledMerges(w);
    } else {
      ReopenIsSeen(w);
    }
  }

  /** What several things that happen one after the other make of a world. */
  function Applied(w: World, batch: seq<Env>): World {
    if batch == [] then w else EnvStep(Applied(w, batch[..|batch| - 1]), batch[|batch| - 1])
  }

  /** Among what happens, the VM is booted from another disk than it last ran on. */
  predicate Reverted(w: World, batch: seq<Env>) {
    batch != [] && (Reverted(w, batch[..|batch| - 1])
                    || (batch[|batch| - 1] == VmStarts && Reverts(Applied(w, batch[..|batch| - 1]))))
  }

  const POINT := SetDrive(OverlayVolume, TargetVolume)

  /** A pivoted disk, until the VM is booted from its overlay, and the same from then on. */
  ghost predicate PivotedOrReverted(w: World, reverted: bool) {
    && Inv(w) && NoStray(w) && w.job == NoJob && w.volume == OverlayVolume
    && if reverted then w.top == OnOverlay && w.backing != TargetBacking else Complete(w)
  }

  lemma OneAfterThePivot(w: World, reverted: bool, e: Env)
    requires PivotedOrReverted(w, reverted)
    ensures PivotedOrReverted(EnvStep(w, e), reverted || (e == VmStarts && Reverts(w)))
  {
    EnvKeeps(w, e);
  }

  lemma {:induction false} AfterThePivot(w: World, batch: seq<Env>)
    requires PivotedOrReverted(w, false)
    ensures PivotedOrReverted(Applied(w, batch), Reverted(w, batch))
  {
    if batch != [] {
      AfterThePivot(w, batch[..|batch| - 1]);
      OneAfterThePivot(Applied(w, batch[..|batch| - 1]), Reverted(w, batch[..|batch| - 1]), batch[|batch| - 1]);
    }
  }

  /** The config's lock and the comparison with the old setting do not see a restart:
      whatever happens between the helper's last look at a pivoted disk and its
      change of the config, an accepted change names the zvol while the running VM is
      on it, exactly unless the VM was booted from its overlay meanwhile. */
  lemma PointingIsSafeUnlessReverted(w: World, batch: seq<Env>)
    requires Inv(w) && NoStray(w) && w.running && w.top == OnTarget && w.volume == OverlayVolume && w.job == NoJob
    ensures var v := Applied(w, batch);
            v.running && Do(v, POINT).1 ==> (ConfigOk(Do(v, POINT).0) <==> !Reverted(w, batch))
  {
    AfterThePivot(w, batch);
  }

  /** Such a restart goes unnoticed, and then the config names a disk that the VM does
      not run on. */
  lemma PointingAtADiskNotRunOn(w: World)
    requires Inv(w) && w.running && w.top == OnTarget && w.volume == OverlayVolume && !w.locked && !w.pending
    ensures var (t, accepted) := Do(EnvStep(EnvStep(w, VmStops), VmStarts), POINT);
            accepted && t.running && t.volume == TargetVolume && t.top == OnOverlay && !ConfigOk(t)
  {
  }

  // What a restart before the config change loses -----------------------------------------------------

  datatype Written = Written(i: nat, b: Block)

  function Writes(ws: seq<Written>): seq<Env> {
    if ws == [] then [] else Writes(ws[..|ws| - 1]) + [GuestWrite(ws[|ws| - 1].i, ws[|ws| - 1].b)]
  }

  /** What was last written to a block, or what it was before. */
  function LastOf(ws: seq<Written>, i: nat, was: Block): Block {
    if ws == [] then was
    else if ws[|ws| - 1].i == i then ws[|ws| - 1].b
    else LastOf(ws[..|ws| - 1], i, was)
  }

  lemma {:induction false} AfterWrites(w: World, ws: seq<Written>)
    requires Sizes(w) && w.running && w.top == OnTarget && w.zvol == w.guest
    ensures var t := Applied(w, Writes(ws));
            && t == w.(zvol := t.zvol, guest := t.guest) && t.zvol == t.guest && |t.zvol| == |w.zvol|
            && forall i :: 0 <= i < |w.zvol| ==> t.zvol[i] == LastOf(ws, i, w.zvol[i])
  {
    if ws != [] {
      var init := ws[..|ws| - 1];
      AfterWrites(w, init);
      assert Writes(ws)[..|Writes(ws)| - 1] == Writes(init);
    }
  }

  /** From the moment of the pivot the guest writes what it likes, and then the VM stops
      and starts, before the config is changed: it boots its overlay, and its disk is
      what it was before the restart exactly when the last write to every block, if
      any, put back what the block was at the pivot. */
  lemma ARestartBeforeTheConfigChange(u: World, ws: seq<Written>)
    requires Inv(u) && u.job == Completing && u.dirty == {} && u.volume == OverlayVolume
    ensures var w := EnvStep(u, Pivots);
            var v := Applied(w, Writes(ws));
            var t := EnvStep(EnvStep(v, VmStops), VmStarts);
            && t.top == OnOverlay && t.guest == w.guest
            && (t.guest == v.guest <==> forall i :: 0 <= i < |w.zvol| ==> LastOf(ws, i, w.zvol[i]) == w.zvol[i])
  {
    var w := EnvStep(u, Pivots);
    PivotKeeps(u);
    FilledMerges(u);
    assert Merge(u.overlay, u.zvol) == u.zvol;
    AfterWrites(w, ws);
    var v := Applied(w, Writes(ws));
    if v.guest == w.guest {
      assert forall i :: 0 <= i < |w.zvol| ==> LastOf(ws, i, w.zvol[i]) == v.zvol[i];
    }
  }

  // What a rerun after such a restart mixes ------------------------------------------------------------

  /** The blocks that were written to a disk of n blocks. */
  function WrittenTo(ws: seq<Written>, n: nat): set<nat> {
    set w | w in ws && w.i < n :: w.i
  }

  lemma WrittenToOneMore(ws: seq<Written>, last: Written, n: nat)
    ensures WrittenTo(ws + [last], n) == WrittenTo(ws, n) + if last.i < n then {last.i} else {}
  {
    assert forall w :: w in ws + [last] <==> w in ws || w == last;
  }

  lemma {:induction false} OverlayWrites(w: World, ws: seq<Written>)
    requires w.running && w.top == OnOverlay && !Active(w.job) && |w.guest| == |w.zvol|
    ensures var t := Applied(w, Writes(ws));
            && t == w.(overlay := t.overlay, guest := t.guest) && |t.guest| == |w.guest|
            && t.overlay.Keys == w.overlay.Keys + WrittenTo(ws, |w.zvol|)
  {
    if ws != [] {
      var init, last := ws[..|ws| - 1], ws[|ws| - 1];
      OverlayWrites(w, init);
      assert Writes(ws)[..|Writes(ws)| - 1] == Writes(init);
      WrittenToOneMore(init, last, |w.zvol|);
      assert ws == init + [last];
    }
  }

  /** From the moment of the pivot: guest writes, a restart, more guest writes, and the
      zvol's node, which a rerun adds. */
  function Restarted(u: World, ws: seq<Written>, vs: seq<Written>): World {
    var v := Applied(EnvStep(u, Pivots), Writes(ws));
    Do(Applied(EnvStep(EnvStep(v, VmStops), VmStarts), Writes(vs)), AddNode).0
  }

  /** No write to the zvol is left that the overlay does not hide. */
  predicate NothingMixed(u: World, ws: seq<Written>, vs: seq<Written>)
    requires |u.point| == |u.zvol|
  {
    forall i :: 0 <= i < |u.zvol| && i !in u.overlay && i !in WrittenTo(vs, |u.zvol|) ==>
                  LastOf(ws, i, u.zvol[i]) == u.point[i]
  }

  lemma PivotedIs(u: World, ws: seq<Written>)
    requires Inv(u) && u.job == Completing && u.dirty == {} && u.volume == OverlayVolume
    ensures var v := Applied(EnvStep(u, Pivots), Writes(ws));
            && Inv(v) && NoStray(v) && v.running && v.top == OnTarget && v.volume == OverlayVolume
            && v.overlay == u.overlay && v.point == u.point && |v.zvol| == |u.zvol|
            && forall i :: 0 <= i < |u.zvol| ==> v.zvol[i] == LastOf(ws, i, u.zvol[i])
  {
    var w := EnvStep(u, Pivots);
    PivotKeeps(u);
    AfterWrites(w, ws);
    WritesKeep(w, ws);
  }

  lemma BootedIs(v: World)
    requires Inv(v) && NoStray(v) && v.running && v.volume == OverlayVolume
    ensures var r := EnvStep(EnvStep(v, VmStops), VmStarts);
            && Inv(r) && NoStray(r) && r.running && r.top == OnOverlay && r.backing == Mapping && r.job == NoJob
            && r.targetNode == Absent && r.volume == OverlayVolume
            && r.overlay == v.overlay && r.point == v.point && r.zvol == v.zvol
  {
    EnvKeeps(v, VmStops);
    StartKeeps(EnvStep(v, VmStops));
  }

  lemma RestartedIs(u: World, ws: seq<Written>, vs: seq<Written>)
    requires Inv(u) && u.job == Completing && u.dirty == {} && u.volume == OverlayVolume
    ensures var t := Restarted(u, ws, vs);
            && Inv(t) && NoStray(t) && t.running && t.top == OnOverlay && t.backing == Mapping && t.job == NoJob
            && t.targetNode == Present(true) && t.volume == OverlayVolume
            && t.point == u.point && |t.zvol| == |u.zvol| && t.overlay.Keys == u.overlay.Keys + WrittenTo(vs, |u.zvol|)
            && forall i :: 0 <= i < |u.zvol| ==> t.zvol[i] == LastOf(ws, i, u.zvol[i])
  {
    var v := Applied(EnvStep(u, Pivots), Writes(ws));
    PivotedIs(u, ws);
    BootedIs(v);
    var r := EnvStep(EnvStep(v, VmStops), VmStarts);
    OverlayWrites(r, vs);
    WritesKeep(r, vs);
    CommandKeeps(Applied(r, Writes(vs)), AddNode);
  }

  lemma {:induction false} WritesKeep(w: World, ws: seq<Written>)
    requires Inv(w)
    ensures Inv(Applied(w, Writes(ws)))
  {
    if ws != [] {
      var init, last := ws[..|ws| - 1], ws[|ws| - 1];
      WritesKeep(w, init);
      assert Writes(ws)[..|Writes(ws)| - 1] == Writes(init);
      GuestWriteKeeps(Applied(w, Writes(init)), last.i, last.b);
    }
  }

  /** After such a restart the disk looks like one that was never switched, and a rerun
      reopens the overlay over the zvol. The guest does not see it, and the switch may
      be run again at all, exactly when every block that the overlay has not got was
      last written, since the pivot, with what the restore point has there. */
  lemma AReopenAfterARestartIff(u: World, ws: seq<Written>, vs: seq<Written>)
    requires Inv(u) && u.job == Completing && u.dirty == {} && u.volume == OverlayVolume
    ensures var t := Restarted(u, ws, vs);
            && Do(t, Reopen).1 && Visible(t) == t.guest
            && (Visible(Do(t, Reopen).0) == Visible(t) <==> NothingMixed(u, ws, vs))
            && (Switchable(t) <==> NothingMixed(u, ws, vs))
  {
    var t := Restarted(u, ws, vs);
    RestartedIs(u, ws, vs);
    ReopenIsInvisibleIff(t);
    FilledIff(u, t, ws, vs);
  }

  lemma FilledIff(u: World, t: World, ws: seq<Written>, vs: seq<Written>)
    requires |u.point| == |u.zvol| == |t.zvol| && t.point == u.point
    requires t.overlay.Keys == u.overlay.Keys + WrittenTo(vs, |u.zvol|)
    requires forall i :: 0 <= i < |u.zvol| ==> t.zvol[i] == LastOf(ws, i, u.zvol[i])
    ensures Filled(t) <==> NothingMixed(u, ws, vs)
  {
    assert forall i :: i in t.overlay <==> i in u.overlay || i in WrittenTo(vs, |u.zvol|);
  }

  /** Copying the restore point into the zvol once more makes such a disk switchable. */
  lemma ARecopyMakesSwitchable(t: World)
    requires Inv(t) && t.running && t.top == OnOverlay && t.backing == Mapping
    ensures Switchable(EnvStep(t, Refill)) && EnvStep(t, Refill).guest == t.guest
  {
  }

  /** The request reopens the overlay over a zvol that differs from what the overlay
      reads until then. */
  ghost predicate Mixes(w: World, c: Command) {
    c == Reopen && Do(w, c).1 && w.backing != TargetBacking && !Filled(w)
  }

  /** Whatever the world, sound or not, no other request is ever seen by the guest. */
  lemma OnlyAReopenIsSeen(w: World, c: Command)
    requires Sizes(w) && (c == Reopen ==> w.targetNode != Present(false))
    ensures Visible(Do(w, c).0) == Visible(w) <==> !Mixes(w, c)
  {
    if c == Reopen && Do(w, c).1 && w.backing != TargetBacking {
      if Filled(w) {
        FilledMerges(w);
      } else {
        ReopenIsSeen(w);
      }
    }
  }

  /** A guest of two blocks whose commit is complete; only the first is in its overlay. */
  const HALF_OVERLAID := World(true, OverlayVolume, false, false, OnOverlay, TargetBacking, Present(true), Completing,
                               {}, map[0 := 7], [7, 5], [5, 5], [7, 5])

  /** It writes 9 to the other after the pivot, and restarts. */
  const BEFORE_RERUN := World(true, OverlayVolume, false, false, OnOverlay, Mapping, Present(true), NoJob, {},
                              map[0 := 7], [7, 9], [5, 5], [7, 5])

  lemma RerunIsReached()
    ensures Restarted(HALF_OVERLAID, [Written(1, 9)], []) == BEFORE_RERUN
  {
    var w := EnvStep(HALF_OVERLAID, Pivots);
    assert Writes([Written(1, 9)]) == [GuestWrite(1, 9)] && [GuestWrite(1, 9)][..0] == [];
    var v := Applied(w, [GuestWrite(1, 9)]);
    assert v == w.(zvol := [7, 9], guest := [7, 9]);
    assert Merge(v.overlay, v.point) == [7, 5];
    assert Writes([]) == [];
  }

  lemma HalfOverlaidIsSound()
    ensures Inv(HALF_OVERLAID)
  {
    assert Merge(HALF_OVERLAID.overlay, HALF_OVERLAID.zvol) == [7, 5];
  }

  /** A rerun's reopen brings the lost 9 back under the running guest, beside the
      restored first block. */
  lemma AMixedDisk()
    ensures Inv(HALF_OVERLAID) && Restarted(HALF_OVERLAID, [Written(1, 9)], []) == BEFORE_RERUN
    ensures Inv(BEFORE_RERUN) && BEFORE_RERUN.running && Visible(BEFORE_RERUN) == BEFORE_RERUN.guest == [7, 5]
    ensures Do(BEFORE_RERUN, Reopen).1 && Visible(Do(BEFORE_RERUN, Reopen).0) == [7, 9]
  {
    RerunIsReached();
    HalfOverlaidIsSound();
    RestartedIs(HALF_OVERLAID, [Written(1, 9)], []);
    assert Visible(BEFORE_RERUN) == [7, 5];
    assert Visible(Do(BEFORE_RERUN, Reopen).0) == [7, 9];
  }

  /** A guest of one block whose commit is complete, as an example. */
  const COMMITTED := World(true, OverlayVolume, false, false, OnOverlay, TargetBacking, Present(true), Completing, {},
                           map[0 := 7], [7], [5], [7])

  /** So a write after the pivot can be lost: here the block's 8 is 7 again. */
  lemma AWriteAfterThePivotMayBeLost()
    ensures Inv(COMMITTED)
    ensures var v := Applied(EnvStep(COMMITTED, Pivots), Writes([Written(0, 8)]));
            v.guest == [8] && EnvStep(EnvStep(v, VmStops), VmStarts).guest == [7]
  {
    var ws := [Written(0, 8)];
    assert Merge(COMMITTED.overlay, COMMITTED.zvol) == [7];
    var w := EnvStep(COMMITTED, Pivots);
    assert w == COMMITTED.(job := Concluded(false), top := OnTarget, backing := NoBacking);
    assert Writes(ws) == [GuestWrite(0, 8)] && [GuestWrite(0, 8)][..0] == [];
    var v := Applied(w, [GuestWrite(0, 8)]);
    assert v == w.(zvol := [8], guest := [8]);
    assert Merge(v.overlay, v.point) == [7];
  }
}

/** The helper itself, request by request. */
module Switch {
  import opened SwitchWorld

  datatype DiskState = StoppedState | BackupState | TargetState | SwitchedState

  datatype What = Environment(e: Env) | Request(c: Command)

  /** One thing that happened. */
  datatype Moment = Moment(before: World, what: What, after: World)

  /** At each moment the invariant held and a rerun could have been started, and no
      request changed what the guest has or reads. */
  ghost predicate Fine(m: Moment) {
    && Sound(m.before) && Sound(m.after)
    && (m.what.Environment? ==> m.after == EnvStep(m.before, m.what.e))
    && (m.what.Request? ==>
          && m.after == Do(m.before, m.what.c).0 && m.after.guest == m.before.guest
          && (m.before.running ==> Visible(m.after) == Visible(m.before)))
  }

  /** At each moment, sound or not, it is known what the guest may notice. */
  ghost predicate Explained(m: Moment) {
    && Sizes(m.before) && Sizes(m.after)
    && (m.what.Environment? ==> m.after == EnvStep(m.before, m.what.e))
    && (m.what.Request? ==>
          && m.after == Do(m.before, m.what.c).0 && m.after.guest == m.before.guest
          && (Visible(m.after) == Visible(m.before) <==> !Mixes(m.before, m.what.c)))
  }

  /** The moments lead from one world to another, one thing after the other; all of
      them are explained, and the first n are fine. */
  ghost predicate Tells(first: World, moments: seq<Moment>, n: nat, last: World) {
    if moments == [] then first == last
    else
      var m := moments[|moments| - 1];
      && Tells(first, moments[..|moments| - 1], n, m.before) && m.after == last
      && Explained(m) && (|moments| <= n ==> Fine(m))
  }

  lemma TellsOneMore(first: World, moments: seq<Moment>, n: nat, m: Moment)
    requires Tells(first, moments, n, m.before) && Explained(m) && n <= |moments|
    ensures Tells(first, moments + [m], n, m.after)
  {
    assert (moments + [m])[..|moments|] == moments;
  }

  lemma TellsOneMoreFine(first: World, moments: seq<Moment>, m: Moment)
    requires Tells(first, moments, |moments|, m.before) && Explained(m) && Fine(m)
    ensures Tells(first, moments + [m], |moments| + 1, m.after)
  {
    assert (moments + [m])[..|moments|] == moments;
    TellsMore(first, moments, m.before, |moments|, |moments| + 1);
  }

  lemma {:induction false} TellsMore(first: World, moments: seq<Moment>, last: World, n: nat, k: nat)
    requires Tells(first, moments, n, last) && |moments| <= n <= k
    ensures Tells(first, moments, k, last)
  {
    if moments != [] {
      TellsMore(first, moments[..|moments| - 1], moments[|moments| - 1].before, n, k);
    }
  }

  /** So every moment begins where the one before it ended, and is what it should be. */
  lemma {:induction false} EachMoment(first: World, moments: seq<Moment>, n: nat, last: World, i: nat)
    requires Tells(first, moments, n, last) && i < |moments|
    ensures Explained(moments[i]) && (i < n ==> Fine(moments[i]))
    ensures moments[i].before == if i == 0 then first else moments[i - 1].after
    ensures i == |moments| - 1 ==> moments[i].after == last
  {
    if i < |moments| - 1 {
      EachMoment(first, moments[..|moments| - 1], n, moments[|moments| - 1].before, i);
    } else if i > 0 {
      EachMoment(first, moments[..i], n, moments[i].before, i - 1);
    }
  }

  ghost predicate Sound(w: World) {
    Inv(w) && NoStray(w) && Switchable(w)
  }

  /** A disk that is still read through its overlay, with the copy done. */
  ghost predicate Before(w: World) {
    Filled(w) && w.volume == OverlayVolume && w.top == OnOverlay && (w.running ==> w.backing == Mapping)
  }

  /** What makes a request allowed now and, unless the VM reverts to its overlay, later. */
  ghost predicate Prepared(w: World, c: Command) {
    match c
    case Reopen => Before(w) && w.targetNode != Present(false)
    case _ => Allowed(w, c)
  }

  lemma PreparedIsAllowed(w: World, c: Command)
    requires Prepared(w, c)
    ensures Allowed(w, c)
  {
  }

  /** What stays true while the helper prepares its next request. */
  ghost predicate Stays(w: World, t: World) {
    && t.volume == w.volume && |t.zvol| == |w.zvol|
    && (Complete(w) ==> Complete(t))
    && (Before(w) ==> Before(t))
    && (w.top == OnTarget ==> t.top == OnTarget)
    && (w.targetNode != Present(false) ==> t.targetNode != Present(false))
  }

  lemma SizesStay(w: World, e: Env)
    requires Sizes(w)
    ensures Sizes(EnvStep(w, e))
  {
  }

  lemma OneStays(w: World, e: Env)
    requires Sound(w) && !(e == VmStarts && Reverts(w))
    ensures Sound(EnvStep(w, e)) && Stays(w, EnvStep(w, e)) && (e == VmStarts ==> EnvStep(w, e).guest == w.guest)
  {
    EnvKeeps(w, e);
    StartKeeps(w);
  }

  // A helpful environment ----------------------------------------------------------------

  /** The VM runs, nothing is locked, and the block nodes are the expected ones. */
  predicate Healthy(w: World) {
    && w.running && !w.locked && !w.pending && w.volume != OtherVolume && w.top != OnOther
    && w.targetNode != Present(false) && (w.top == OnTarget ==> w.targetNode == Present(true))
  }

  /** The commit job made progress, and nothing else but the guest's data changed. */
  predicate Helped(w: World, t: World) {
    && t.running == w.running && t.locked == w.locked && t.pending == w.pending && t.targetNode == w.targetNode
    && (if w.job == Completing then t.job == Concluded(false) && t.top == OnTarget && t.backing == NoBacking
        else t.job == (if w.job == Running then Ready else w.job) && t.top == w.top && t.backing == w.backing)
  }

  function CopyAll(n: nat): seq<Env> {
    if n == 0 then [] else CopyAll(n - 1) + [CopyBlock(n - 1)]
  }

  /** Some blocks were copied, those before n among them. */
  ghost predicate CopiedTo(w: World, t: World, n: nat) {
    && t == w.(zvol := t.zvol, dirty := t.dirty) && |t.zvol| == |w.zvol|
    && (Active(w.job) ==> forall i :: i in t.dirty ==> i in w.dirty && i >= n)
  }

  lemma CopyNext(w: World, t: World, n: nat)
    requires Sound(w) && Sound(t) && CopiedTo(w, t, n) && n < |w.zvol|
    ensures Sound(EnvStep(t, CopyBlock(n))) && CopiedTo(w, EnvStep(t, CopyBlock(n)), n + 1)
  {
    OneStays(t, CopyBlock(n));
    assert Active(t.job) && n in t.dirty ==> n in t.overlay.Keys;
  }

  lemma {:induction false} CopiedAll(w: World, n: nat)
    requires Sound(w) && n <= |w.zvol|
    ensures Sound(Applied(w, CopyAll(n))) && CopiedTo(w, Applied(w, CopyAll(n)), n)
  {
    if n > 0 {
      CopiedAll(w, n - 1);
      var t := Applied(w, CopyAll(n - 1));
      CopyNext(w, t, n - 1);
      assert CopyAll(n)[..|CopyAll(n)| - 1] == CopyAll(n - 1);
      assert Applied(w, CopyAll(n)) == EnvStep(t, CopyBlock(n - 1));
    }
  }

  lemma OneMore(w: World, batch: seq<Env>, i: nat)
    requires i < |batch|
    ensures var t := Applied(w, batch[..i]);
            && Applied(w, batch[..i + 1]) == EnvStep(t, batch[i])
            && Reverted(w, batch[..i + 1]) == (Reverted(w, batch[..i]) || (batch[i] == VmStarts && Reverts(t)))
  {
    assert batch[..i + 1][..i] == batch[..i];
  }

  lemma AppliedTwoMore(w: World, batch: seq<Env>, a: Env, b: Env)
    ensures Applied(w, batch + [a] + [b]) == EnvStep(EnvStep(Applied(w, batch), a), b)
  {
    assert (batch + [a] + [b])[..|batch| + 1] == batch + [a];
    assert (batch + [a])[..|batch|] == batch;
  }

  lemma AllClean(w: World, t: World)
    requires Sound(w) && Sound(t) && CopiedTo(w, t, |w.zvol|) && Active(w.job)
    ensures t.dirty == {}
  {
    assert forall i :: i in t.dirty ==> i in t.overlay.Keys && i < |w.zvol|;
  }

  lemma CleanJobsAdvance(w: World)
    requires Active(w.job) ==> w.dirty == {}
    ensures Helped(w, EnvStep(EnvStep(w, BecomesReady), Pivots))
  {
  }

  lemma {:induction false} NoStartRevertsNothing(w: World, batch: seq<Env>)
    requires VmStarts !in batch
    ensures !Reverted(w, batch)
  {
    if batch != [] {
      NoStartRevertsNothing(w, batch[..|batch| - 1]);
    }
  }

  lemma {:induction false} CopyAllStartsNothing(n: nat)
    ensures VmStarts !in CopyAll(n)
  {
    if n > 0 {
      CopyAllStartsNothing(n - 1);
    }
  }

  /** Copying every block and then letting the job advance is such progress. */
  lemma AHelpfulBatch(w: World)
    requires Sound(w)
    ensures var batch := CopyAll(|w.zvol|) + [BecomesReady] + [Pivots];
            Helped(w, Applied(w, batch)) && !Reverted(w, batch)
  {
    CopyAllStartsNothing(|w.zvol|);
    NoStartRevertsNothing(w, CopyAll(|w.zvol|) + [BecomesReady] + [Pivots]);
    var t := Applied(w, CopyAll(|w.zvol|));
    CopiedAll(w, |w.zvol|);
    AppliedTwoMore(w, CopyAll(|w.zvol|), BecomesReady, Pivots);
    if Active(t.job) {
      AllClean(w, t);
    }
    CleanJobsAdvance(t);
  }

  /** What `state` calls the disk of a running VM. */
  function DiskOf(w: World): DiskState {
    if w.top == OnTarget then SwitchedState
    else if w.top == OnOverlay && w.backing == TargetBacking then TargetState
    else BackupState
  }

  /** The rerun's last world, with the mix on the zvol. */
  const AFTER_RERUN := BEFORE_RERUN.(volume := TargetVolume, top := OnTarget, backing := NoBacking)

  /** What the rerun asks for next, and what happens in between: each request is
      accepted, each look shows what the helper expects, and the config ends on a zvol
      that is not the guest's disk. */
  lemma ARerunEndsOnTheMix()
    ensures DiskOf(BEFORE_RERUN) == BackupState
    ensures var (reopened, accepted) := Do(BEFORE_RERUN, Reopen);
            accepted && DiskOf(reopened) == TargetState
            && var (committing, started) := Do(reopened, BlockCommit);
               started
               && var (completing, asked) := Do(Applied(committing, [CopyBlock(0), BecomesReady]), JobComplete);
                  asked
                  && var (dismissed, done) := Do(Applied(completing, [Pivots]), JobDismiss);
                     done && DiskOf(dismissed) == SwitchedState && Do(dismissed, POINT) == (AFTER_RERUN, true)
    ensures AFTER_RERUN.running && AFTER_RERUN.volume == TargetVolume && AFTER_RERUN.top == OnTarget
    ensures AFTER_RERUN.guest == [7, 5] && AFTER_RERUN.zvol == [7, 9]
  {
    var reopened := Do(BEFORE_RERUN, Reopen).0;
    var committing := Do(reopened, BlockCommit).0;
    assert committing.dirty == {0};
    assert [CopyBlock(0), BecomesReady][..1] == [CopyBlock(0)] && [CopyBlock(0)][..0] == [] && [Pivots][..0] == [];
    var copied := EnvStep(committing, CopyBlock(0));
    assert copied == committing.(zvol := [7, 9], dirty := {});
    assert Applied(committing, [CopyBlock(0), BecomesReady]) == copied.(job := Ready);
  }

  class Switch {
    var world: World
    var asked: nat
    /** What happens before each request, and whether scsi0 has a single size option. */
    const env: nat -> seq<Env>
    const oneSize: bool
    /** All that happened, whether the VM was booted from another disk than it last ran
        on, and how much happened before that. */
    ghost const first: World
    ghost var moments: seq<Moment>
    ghost var reverted: bool
    ghost var unreverted: nat

    ghost predicate Good()
      reads this
    {
      && Sizes(world) && Tells(first, moments, unreverted, world) && unreverted <= |moments|
      && (!reverted ==> Sound(world) && unreverted == |moments|)
    }

    /** What stays the same, and what does unless the VM reverted. */
    ghost predicate Kept(was: World, now: World)
      reads this
    {
      && now.volume == was.volume && (was.targetNode != Present(false) ==> now.targetNode != Present(false))
      && (!reverted ==> Stays(was, now))
    }

    /** Since the first n moments the helper asked for nothing but a change of the config. */
    ghost predicate OnlyPoints(n: nat)
      reads this
    {
      forall i :: n <= i < |moments| && moments[i].what.Request? ==> moments[i].what.c.SetDrive?
    }

    /** The environment helps at every pause, whatever state a disk of this size is in,
        and reverts nothing. */
    ghost predicate Helpful(size: nat) {
      forall k, w :: Sound(w) && |w.zvol| == size ==> Helped(w, Applied(w, env(k))) && !Reverted(w, env(k))
    }

    ghost predicate Eased()
      reads this
    {
      Good() && !reverted && Helpful(|world.zvol|) && Healthy(world) && oneSize
    }

    constructor (world: World, env: nat -> seq<Env>, oneSize: bool)
      ensures this.world == world && this.env == env && this.oneSize == oneSize && asked == 0
      ensures first == world && moments == [] && !reverted && unreverted == 0
    {
      this.world, this.env, this.oneSize, asked, first := world, env, oneSize, 0, world;
      moments, reverted, unreverted := [], false, 0;
    }

    /** What the world has become when the helper pauses the k-th time from now. */
    ghost function Later(w: World, asked: nat, k: nat): World {
      if k == 0 then w else Applied(Later(w, asked, k - 1), env(asked + k - 1))
    }

    /** Whatever happens before the next request. */
    method Pause()
      requires Good()
      modifies this`world, this`asked, this`moments, this`reverted, this`unreverted
      ensures Good() && old(moments) <= moments && (old(reverted) ==> reverted)
      ensures Kept(old(world), world)
      ensures world == Applied(old(world), env(old(asked))) && asked == old(asked) + 1
      ensures reverted == (old(reverted) || Reverted(old(world), env(old(asked))))
      ensures OnlyPoints(|old(moments)|)
      ensures old(Eased()) ==> Eased() && Helped(old(world), world)
    {
      var batch := env(asked);
      asked := asked + 1;
      HappenAll(batch);
    }

    method HappenAll(batch: seq<Env>)
      requires Good()
      modifies this`world, this`moments, this`reverted, this`unreverted
      ensures Good() && old(moments) <= moments && (old(reverted) ==> reverted)
      ensures Kept(old(world), world)
      ensures world == Applied(old(world), batch)
      ensures reverted == (old(reverted) || Reverted(old(world), batch))
      ensures OnlyPoints(|old(moments)|)
    {
      var i := 0;
      while i < |batch|
        invariant i <= |batch| && Good() && old(moments) <= moments && (old(reverted) ==> reverted)
        invariant Kept(old(world), world)
        invariant world == Applied(old(world), batch[..i])
        invariant reverted == (old(reverted) || Reverted(old(world), batch[..i]))
        invariant OnlyPoints(|old(moments)|)
      {
        OneMore(old(world), batch, i);
        Happens(batch[i]);
        i := i + 1;
      }
      assert batch[..i] == batch;
    }

    method Happens(e: Env)
      requires Good()
      modifies this`world, this`moments, this`reverted, this`unreverted
      ensures Good() && old(moments) <= moments && (old(reverted) ==> reverted)
      ensures Kept(old(world), world)
      ensures world == EnvStep(old(world), e)
      ensures reverted == (old(reverted) || (e == VmStarts && Reverts(old(world))))
      ensures moments == old(moments) + [Moment(old(world), Environment(e), world)]
    {
      reverted := reverted || (e == VmStarts && Reverts(world));
      if !reverted {
        OneStays(world, e);
      }
      SizesStay(world, e);
      Record(Moment(world, Environment(e), EnvStep(world, e)));
    }

    /** One more thing happens, and is remembered. */
    method Record(m: Moment)
      requires Tells(first, moments, unreverted, world) && unreverted <= |moments| && m.before == world && Explained(m)
      requires !reverted ==> Fine(m) && unreverted == |moments|
      modifies this`world, this`moments, this`unreverted
      ensures Good() && world == m.after && moments == old(moments) + [m]
    {
      if reverted {
        TellsOneMore(first, moments, unreverted, m);
      } else {
        TellsOneMoreFine(first, moments, m);
        unreverted := unreverted + 1;
      }
      world, moments := m.after, moments + [m];
    }

    /** One request, after whatever happens before it. */
    method Issue(c: Command) returns (ok: bool)
      requires Good() && (!reverted ==> Prepared(world, c)) && (c == Reopen ==> world.targetNode != Present(false))
      modifies this`world, this`asked, this`moments, this`reverted, this`unreverted
      ensures Good() && old(moments) <= moments && (old(reverted) ==> reverted)
      ensures var v := Applied(old(world), env(old(asked)));
              world == Do(v, c).0 && ok == Do(v, c).1 && asked == old(asked) + 1 && Kept(old(world), v)
              && (!reverted ==> Sound(v))
              && (old(Eased()) ==> !reverted && Healthy(v) && Helped(old(world), v))
      ensures c.SetDrive? ==> OnlyPoints(|old(moments)|)
    {
      Pause();
      ok := Ask(c);
    }

    method Ask(c: Command) returns (ok: bool)
      requires Good() && (!reverted ==> Prepared(world, c)) && (c == Reopen ==> world.targetNode != Present(false))
      modifies this`world, this`moments, this`unreverted
      ensures Good() && |moments| == |old(moments)| + 1 && old(moments) == moments[..|old(moments)|]
      ensures (world, ok) == Do(old(world), c) && moments[|old(moments)|].what == Request(c)
    {
      var (after, accepted) := Do(world, c);
      if !reverted {
        PreparedIsAllowed(world, c);
        CommandKeeps(world, c);
      }
      OnlyAReopenIsSeen(world, c);
      Record(Moment(world, Request(c), after));
      return accepted;
    }

    // What the helper looks at ---------------------------------------------------------

    /** The volume scsi0 names, unless the config is locked, has a pending change, or
        names another disk. */
    method Config() returns (volume: Volume, ok: bool)
      requires Good()
      modifies this`world, this`asked, this`moments, this`reverted, this`unreverted
      ensures Good() && old(moments) <= moments && (old(reverted) ==> reverted)
      ensures Kept(old(world), world)
      ensures volume == world.volume == old(world.volume)
      ensures ok <==> !world.locked && !world.pending && volume != OtherVolume
      ensures world == Later(old(world), old(asked), 1) && asked == old(asked) + 1
      ensures OnlyPoints(|old(moments)|)
      ensures old(Eased()) ==> Eased() && ok && Helped(old(world), world)
    {
      Pause();
      volume := world.volume;
      ok := !world.locked && !world.pending && volume != OtherVolume;
    }

    /** What QEMU says of a running VM's disk. */
    method RunningState() returns (state: DiskState, ok: bool)
      requires Good()
      modifies this`world, this`asked, this`moments, this`reverted, this`unreverted
      ensures Good() && old(moments) <= moments && (old(reverted) ==> reverted)
      ensures Kept(old(world), world)
      ensures world == Later(old(world), old(asked), 1) && asked == old(asked) + 1
      ensures ok <==> world.running && world.top != OnOther && (world.top == OnOverlay ==> world.backing != NoBacking)
      ensures ok ==> state != StoppedState && state == DiskOf(world)
      ensures OnlyPoints(|old(moments)|)
      ensures old(Eased()) ==> Eased() && ok && Helped(old(world), world)
    {
      Pause();
      if !world.running {
        return StoppedState, false;
      }
      match world.top
      case OnTarget => return SwitchedState, true;
      case OnOther => return StoppedState, false;
      case OnOverlay =>
        match world.backing {
          case TargetBacking => return TargetState, true;
          case NoBacking => return StoppedState, false;
          case _ => return BackupState, true;
        }
    }

    method State() returns (state: DiskState, ok: bool)
      requires Good()
      modifies this`world, this`asked, this`moments, this`reverted, this`unreverted
      ensures Good() && old(moments) <= moments && (old(reverted) ==> reverted)
      ensures Kept(old(world), world)
      ensures !reverted && ok && state == SwitchedState ==> world.running && Complete(world)
      ensures !reverted && ok && state == BackupState ==> world.running && Before(world)
      ensures ok && state != StoppedState ==> world.running && world.top != OnOther && state == DiskOf(world)
      ensures var one, two, three := Later(old(world), old(asked), 1), Later(old(world), old(asked), 2),
                                     Later(old(world), old(asked), 3);
              && (ok <==> !one.locked && !one.pending && old(world.volume) != OtherVolume
                          && (!two.running || (three.running && three.top != OnOther
                                               && (three.top == OnOverlay ==> three.backing != NoBacking))))
              && (ok ==> (state == StoppedState <==> !two.running)
                         && (state == SwitchedState <==> two.running && three.top == OnTarget)
                         && (state == TargetState <==>
                               two.running && three.top == OnOverlay && three.backing == TargetBacking))
      ensures OnlyPoints(|old(moments)|)
      ensures old(Eased()) ==> Eased() && ok && state != StoppedState && world.job != Completing && world.job != Running
      ensures old(Eased()) && old(world.job) == NoJob ==>
                world.top == old(world.top) && world.backing == old(world.backing)
    {
      var volume;
      volume, ok := Config();
      if !ok {
        return StoppedState, false;
      }
      Pause();
      assert world == Later(old(world), old(asked), 2);
      if !world.running {
        return StoppedState, true;
      }
      state, ok := RunningState();
    }

    method JobStatus() returns (job: Job, ok: bool)
      requires Good()
      modifies this`world, this`asked, this`moments, this`reverted, this`unreverted
      ensures Good() && old(moments) <= moments && (old(reverted) ==> reverted)
      ensures Kept(old(world), world)
      ensures ok ==> job == world.job
      ensures old(Eased()) ==> Eased() && ok && Helped(old(world), world)
    {
      Pause();
      return world.job, world.running;
    }

    // Its steps ---------------------------------------------------------------------------

    /** Proxmox's own description of the disk, which must be the overlay's. */
    method OverlayBlockdev() returns (ok: bool)
      requires Good()
      modifies this`world, this`asked, this`moments, this`reverted, this`unreverted
      ensures Good() && old(moments) <= moments && (old(reverted) ==> reverted)
      ensures Kept(old(world), world)
      ensures ok <==> world.volume == OverlayVolume
      ensures old(Eased()) ==> Eased() && Helped(old(world), world)
    {
      Pause();
      return world.volume == OverlayVolume;
    }

    method AddTargetNode() returns (ok: bool)
      requires Good() && (!reverted ==> Before(world))
      modifies this`world, this`asked, this`moments, this`reverted, this`unreverted
      ensures Good() && old(moments) <= moments && (old(reverted) ==> reverted)
      ensures Kept(old(world), world)
      ensures ok ==> world.targetNode != Present(false)
      ensures !reverted && ok ==> Before(world)
      ensures old(Eased()) && old(world.job) == NoJob ==>
                Eased() && ok && world.targetNode == Present(true) && world.job == NoJob
    {
      Pause();
      if !world.running {
        return false;
      }
      match world.targetNode
      case Present(right) => return right;
      case Absent => ok := Issue(AddNode);
    }

    /** Waits until the job is ready, or concludes when only that is wanted. */
    method WaitFor(ready: bool, polls: nat) returns (job: Job, ok: bool)
      requires Good()
      modifies this`world, this`asked, this`moments, this`reverted, this`unreverted
      ensures Good() && old(moments) <= moments && (old(reverted) ==> reverted)
      ensures Kept(old(world), world)
      ensures ok ==> job == world.job && ((ready && job == Ready) || job.Concluded?)
      ensures old(Eased()) && ready && (old(world.job) == Running || old(world.job) == Ready) ==>
                Eased() && ok && job == Ready
      ensures old(Eased()) && old(world.job) == Completing ==> Eased() && ok && job == Concluded(false)
    {
      var left := polls;
      job, ok := JobStatus();
      while ok && job != NoJob && !(ready && job == Ready) && !job.Concluded? && left > 0
        invariant Good() && old(moments) <= moments && (old(reverted) ==> reverted) && Kept(old(world), world)
        invariant ok ==> job == world.job
        invariant old(Eased()) && ready && (old(world.job) == Running || old(world.job) == Ready) ==>
                    Eased() && ok && job == Ready
        invariant old(Eased()) && old(world.job) == Completing ==> Eased() && ok && job == Concluded(false)
      {
        left := left - 1;
        job, ok := JobStatus();
      }
      ok := ok && ((ready && job == Ready) || job.Concluded?);
    }

    /** The present job, after dismissing one that ended. */
    method DismissEnded() returns (job: Job, ok: bool)
      requires Good()
      modifies this`world, this`asked, this`moments, this`reverted, this`unreverted
      ensures Good() && old(moments) <= moments && (old(reverted) ==> reverted)
      ensures Kept(old(world), world)
      ensures ok ==> !job.Concluded?
      ensures old(Eased()) && old(world.job != Running && world.job != Completing) ==>
              Eased() && ok && (job == NoJob || job == Ready) && job == world.job && world.top == old(world.top)
                  && world.backing == old(world.backing)
    {
      job, ok := JobStatus();
      if ok && job.Concluded? {
        ok := Issue(JobDismiss);
        job := NoJob;
      }
    }

    /** Starts the commit job unless one is underway, dismissing one that ended. */
    method StartCommit() returns (ok: bool)
      requires Good()
      modifies this`world, this`asked, this`moments, this`reverted, this`unreverted
      ensures Good() && old(moments) <= moments && (old(reverted) ==> reverted)
      ensures Kept(old(world), world)
      ensures old(Eased()) && old(DiskOf(world)) == TargetState
              && old(world.job != Running && world.job != Completing) ==>
              Eased() && ok && (world.job == Running || world.job == Ready)
    {
      var job;
      job, ok := DismissEnded();
      if ok && job == NoJob {
        ok := Issue(BlockCommit);
      }
    }

    /** Starts the commit job unless one is there, completes it, and dismisses it. */
    method Commit(polls: nat) returns (ok: bool)
      requires Good()
      modifies this`world, this`asked, this`moments, this`reverted, this`unreverted
      ensures Good() && old(moments) <= moments && (old(reverted) ==> reverted)
      ensures Kept(old(world), world)
      ensures old(Eased()) && old(DiskOf(world)) == TargetState
              && old(world.job != Running && world.job != Completing) ==>
              Eased() && ok && world.top == OnTarget
    {
      ok := StartCommit();
      if !ok {
        return;
      }
      var job;
      job, ok := CompleteJob(polls);
      if !ok {
        return;
      }
      ok := Issue(JobDismiss);
      return ok && job == Concluded(false);
    }

    /** Waits until the job is ready, and completes it, or until it failed. */
    method CompleteJob(polls: nat) returns (job: Job, ok: bool)
      requires Good()
      modifies this`world, this`asked, this`moments, this`reverted, this`unreverted
      ensures Good() && old(moments) <= moments && (old(reverted) ==> reverted)
      ensures Kept(old(world), world)
      ensures ok ==> job == world.job && job.Concluded?
      ensures old(Eased()) && (old(world.job) == Running || old(world.job) == Ready) ==>
                Eased() && ok && job == Concluded(false)
    {
      job, ok := WaitFor(true, polls);
      if !ok || job != Ready {
        return;
      }
      ok := Issue(JobComplete);
      if !ok {
        return;
      }
      job, ok := WaitFor(false, polls);
    }

    /** The config names another volume, if it is free and names the expected one. */
    method SetVolume(expected: Volume, volume: Volume) returns (ok: bool)
      requires Good() && (!reverted ==> Prepared(world, SetDrive(expected, volume)))
      modifies this`world, this`asked, this`moments, this`reverted, this`unreverted
      ensures Good() && old(moments) <= moments && (old(reverted) ==> reverted)
      ensures var one := Later(old(world), old(asked), 1);
              ok <==> !one.locked && !one.pending && old(world.volume) == expected
      ensures world.volume == if ok then volume else old(world.volume)
      ensures !reverted && old(Complete(world)) ==> Complete(world)
      ensures asked == old(asked) + 1 && OnlyPoints(|old(moments)|)
      ensures old(Eased()) && volume == TargetVolume ==> Eased() && (ok <==> old(world.volume) == expected)
    {
      ok := Issue(SetDrive(expected, volume));
    }

    method PointConfigAtTarget() returns (ok: bool)
      requires Good() && (!reverted ==> Complete(world))
      modifies this`world, this`asked, this`moments, this`reverted, this`unreverted
      ensures Good() && old(moments) <= moments && (old(reverted) ==> reverted) && (!reverted ==> Complete(world))
      ensures world.volume == if ok then TargetVolume else old(world.volume)
      ensures ok ==> old(world.volume) != OtherVolume
      ensures var one, two := Later(old(world), old(asked), 1), Later(old(world), old(asked), 2);
              ok <==> !one.locked && !one.pending
                      && (old(world.volume) == TargetVolume
                          || (old(world.volume) == OverlayVolume && oneSize && !two.locked && !two.pending))
      ensures OnlyPoints(|old(moments)|)
      ensures old(Eased()) ==> Eased() && ok
    {
      var volume;
      volume, ok := Config();
      if !ok || volume == TargetVolume {
        return;
      }
      if !oneSize {
        return false;
      }
      ok := SetVolume(OverlayVolume, TargetVolume);
    }

    /** Proxmox names the zvol, and the running disk is on it. */
    method CheckProxmoxAgrees() returns (ok: bool)
      requires Good()
      modifies this`world, this`asked, this`moments, this`reverted, this`unreverted
      ensures Good() && old(moments) <= moments && (old(reverted) ==> reverted)
      ensures Kept(old(world), world)
      ensures ok ==> world.running && world.volume == TargetVolume && world.top == OnTarget
      ensures var two := Later(old(world), old(asked), 2);
              ok <==> old(world.volume) == TargetVolume && two.running && two.top == OnTarget
                      && two.targetNode == Present(true)
      ensures !reverted && ok ==> Complete(world)
      ensures OnlyPoints(|old(moments)|)
      ensures old(Eased()) && old(world.volume) == TargetVolume ==> ok
    {
      Pause();
      assert world == Later(old(world), old(asked), 1);
      if world.volume != TargetVolume {
        return false;
      }
      Pause();
      assert world == Later(old(world), old(asked), 2);
      return world.running && world.top == OnTarget && world.targetNode == Present(true);
    }

    /** With the VM stopped, moves scsi0 from the zvol to the overlay. */
    method Attach() returns (ok: bool)
      requires Good()
      modifies this`world, this`asked, this`moments, this`reverted, this`unreverted
      ensures Good() && old(moments) <= moments && (old(reverted) ==> reverted)
      ensures world.volume == if ok then OverlayVolume else old(world.volume)
      ensures var one, two, three := Later(old(world), old(asked), 1), Later(old(world), old(asked), 2),
                                     Later(old(world), old(asked), 3);
              ok <==> !one.locked && !one.pending
                      && (old(world.volume) == OverlayVolume
                          || (old(world.volume) == TargetVolume && !two.running && oneSize
                              && !three.locked && !three.pending))
      ensures old(Eased()) && old(world.volume) == TargetVolume ==> !ok
    {
      var volume;
      volume, ok := Config();
      if !ok || volume == OverlayVolume {
        return;
      }
      Pause();
      if world.running || !oneSize {
        return false;
      }
      ok := SetVolume(TargetVolume, OverlayVolume);
    }

    /** Puts the zvol under the overlay in place of the mapping. */
    method ReopenOntoTarget() returns (ok: bool)
      requires Good() && (!reverted ==> Before(world))
      modifies this`world, this`asked, this`moments, this`reverted, this`unreverted
      ensures Good() && old(moments) <= moments && (old(reverted) ==> reverted)
      ensures world.volume == old(world.volume) && (!reverted ==> |world.zvol| == old(|world.zvol|))
      ensures old(Eased()) && old(world.job) == NoJob && old(world.volume) == OverlayVolume ==>
              Eased() && ok && DiskOf(world) == TargetState && world.job == NoJob
    {
      ok := OverlayBlockdev();
      if !ok {
        return;
      }
      ok := AddTargetNode();
      if !ok {
        return;
      }
      ok := Issue(Reopen);
    }

    /** The same, and looks whether it worked. */
    method MoveOntoTarget() returns (ok: bool)
      requires Good() && (!reverted ==> Before(world))
      modifies this`world, this`asked, this`moments, this`reverted, this`unreverted
      ensures Good() && old(moments) <= moments && (old(reverted) ==> reverted)
      ensures world.volume == old(world.volume) && (!reverted ==> |world.zvol| == old(|world.zvol|))
      ensures ok ==> DiskOf(world) == TargetState
      ensures old(Eased()) && old(world.job) == NoJob && old(world.volume) == OverlayVolume ==>
              Eased() && ok && world.job != Completing && world.job != Running
    {
      ok := ReopenOntoTarget();
      if !ok {
        return;
      }
      var state;
      state, ok := State();
      return ok && state == TargetState;
    }

    /** From the overlay over the zvol to the zvol alone. */
    method CommitOntoTarget(polls: nat) returns (ok: bool)
      requires Good()
      modifies this`world, this`asked, this`moments, this`reverted, this`unreverted
      ensures Good() && old(moments) <= moments && (old(reverted) ==> reverted)
      ensures Kept(old(world), world)
      ensures !reverted && ok ==> Complete(world)
      ensures old(Eased()) && old(DiskOf(world)) == TargetState
              && old(world.job != Running && world.job != Completing) ==>
              Eased() && ok
    {
      ok := Commit(polls);
      if !ok {
        return;
      }
      var state;
      state, ok := State();
      return ok && state == SwitchedState;
    }

    /** Up to the change of the config, from wherever an earlier run left the disk. */
    method MoveDisk(polls: nat) returns (ok: bool)
      requires Good()
      modifies this`world, this`asked, this`moments, this`reverted, this`unreverted
      ensures Good() && old(moments) <= moments && (old(reverted) ==> reverted)
      ensures world.volume == old(world.volume)
      ensures !reverted && ok ==> Complete(world)
      ensures !reverted && old(world.top) == OnTarget ==> OnlyPoints(|old(moments)|)
      ensures old(Eased()) ==> Eased() && ok
    {
      var state;
      state, ok := State();
      if !ok || state == StoppedState {
        return false;
      }
      if state == BackupState {
        ok := MoveOntoTarget();
        if !ok {
          return;
        }
        state := TargetState;
      }
      if state == TargetState {
        ok := CommitOntoTarget(polls);
        if !ok {
          return;
        }
      }
    }

    /** Moves the running disk onto the zvol, from wherever an earlier run left it. It
        ends with the guest on the zvol and the config naming it, or is refused, and
        in a helpful environment it is not refused. At every moment the guest reads what
        it wrote, the config names the zvol only if the zvol alone is the guest's disk,
        and the helper could be stopped and run again; unless, and until, the stopped VM
        is booted from another disk than it last ran on. Even then the guest notices no
        request but a reopen that mixes. Once the disk is on the zvol, another run starts
        no job. */
    method Run(polls: nat) returns (ok: bool)
      requires Good()
      modifies this`world, this`asked, this`moments, this`reverted, this`unreverted
      ensures Good() && old(moments) <= moments && (old(reverted) ==> reverted)
      ensures ok ==> world.running && world.volume == TargetVolume && world.top == OnTarget
      ensures !reverted && ok ==> Complete(world)
      ensures world.volume == old(world.volume) || (old(world.volume) == OverlayVolume && world.volume == TargetVolume)
      ensures !reverted && old(world.top) == OnTarget ==> OnlyPoints(|old(moments)|)
      ensures old(Eased()) ==> ok
    {
      ok := MoveDisk(polls);
      if !ok {
        return;
      }
      ok := PointConfigAtTarget();
      if !ok {
        return;
      }
      ok := CheckProxmoxAgrees();
    }
  }
}
