/** Deferred cleanup: what pruning removes, and why the final release of a staging
    guest always sees all the evidence.
 */
module RegistryCleanup {
  import opened Common
  import opened RegistryTypes
  import opened RegistryRules
  import opened RegistryPlans
  import opened RegistrySafety
  import opened RegistryRuns

  // Pruning ---------------------------------------------------------------------------

  /** The records that are not among the dropped ones, in their order. */
  function WithoutRecords(cleanup: seq<Cleanup>, dropped: seq<Cleanup>): seq<Cleanup> {
    if cleanup == [] then [] else
      var init := WithoutRecords(cleanup[..|cleanup| - 1], dropped);
      if cleanup[|cleanup| - 1] in dropped then init else init + [cleanup[|cleanup| - 1]]
  }

  lemma {:induction false} WithoutRecordsMeans(cleanup: seq<Cleanup>, dropped: seq<Cleanup>)
    ensures forall c :: c in WithoutRecords(cleanup, dropped) <==> c in cleanup && c !in dropped
  {
    if cleanup != [] {
      WithoutRecordsMeans(cleanup[..|cleanup| - 1], dropped);
    }
  }

  lemma KeyedInit(cleanup: seq<Cleanup>)
    requires Keyed(cleanup) && cleanup != []
    ensures Keyed(cleanup[..|cleanup| - 1])
    ensures forall c :: c in cleanup[..|cleanup| - 1] ==> c.key != cleanup[|cleanup| - 1].key
  {
  }

  /** Dropping a record by its key is dropping that record. */
  lemma {:induction false} DropLast(cleanup: seq<Cleanup>, dropped: seq<Cleanup>, last: Cleanup)
    requires Keyed(cleanup) && last in cleanup && last !in dropped
    ensures DropFrom(WithoutRecords(cleanup, dropped), last.key) == WithoutRecords(cleanup, dropped + [last])
  {
    var init := cleanup[..|cleanup| - 1];
    var x := cleanup[|cleanup| - 1];
    var kept := WithoutRecords(init, dropped);
    KeyedInit(cleanup);
    WithoutRecordsMeans(init, dropped);
    if x == last {
      NotThere(kept, last.key);
      AppendedIndex(kept, x);
      OthersStay(init, dropped, last);
      assert (kept + [x])[..|kept|] == kept;
    } else {
      assert last in init;
      DropLast(init, dropped, last);
      if x !in dropped {
        IndexSurvives(kept, x, last.key);
      }
    }
  }

  lemma {:induction false} OthersStay(cleanup: seq<Cleanup>, dropped: seq<Cleanup>, last: Cleanup)
    requires last !in cleanup
    ensures WithoutRecords(cleanup, dropped + [last]) == WithoutRecords(cleanup, dropped)
  {
    if cleanup != [] {
      OthersStay(cleanup[..|cleanup| - 1], dropped, last);
      assert cleanup[|cleanup| - 1] in cleanup;
    }
  }

  lemma {:induction false} NotThere(cleanup: seq<Cleanup>, key: CleanupKey)
    requires forall c :: c in cleanup ==> c.key != key
    ensures IndexOf(cleanup, key) == |cleanup|
  {
    if cleanup != [] {
      assert cleanup[0] in cleanup;
      NotThere(cleanup[1..], key);
    }
  }

  lemma IndexIs(cleanup: seq<Cleanup>, key: CleanupKey, i: nat)
    requires i < |cleanup| && cleanup[i].key == key && forall j :: 0 <= j < i ==> cleanup[j].key != key
    ensures IndexOf(cleanup, key) == i
  {
  }

  lemma AppendedIndex(kept: seq<Cleanup>, x: Cleanup)
    requires IndexOf(kept, x.key) == |kept|
    ensures IndexOf(kept + [x], x.key) == |kept|
  {
    IndexIs(kept + [x], x.key, |kept|);
  }

  lemma IndexSurvives(kept: seq<Cleanup>, x: Cleanup, key: CleanupKey)
    requires x.key != key
    ensures DropFrom(kept + [x], key) == DropFrom(kept, key) + [x]
  {
    var i := IndexOf(kept, key);
    if i < |kept| {
      IndexIs(kept + [x], key, i);
      assert (kept + [x])[..i] == kept[..i];
      assert (kept + [x])[i + 1..] == kept[i + 1..] + [x];
    } else {
      forall c | c in kept + [x] ensures c.key != key {
        assert c == x || exists j :: 0 <= j < |kept| && kept[j] == c;
      }
      NotThere(kept + [x], key);
    }
  }

  lemma {:induction false} AfterDropping(s: Store, dropped: seq<Cleanup>)
    requires Keyed(s.cleanup) && Distinct(dropped) && forall c :: c in dropped ==> c in s.cleanup
    ensures After(s, Drops(dropped)) == s.(cleanup := WithoutRecords(s.cleanup, dropped))
  {
    if dropped == [] {
      NothingDropped(s.cleanup);
    } else {
      var init := dropped[..|dropped| - 1];
      var last := dropped[|dropped| - 1];
      DropsInit(dropped);
      AfterDropping(s, init);
      DropLast(s.cleanup, init, last);
      assert init + [last] == dropped;
    }
  }

  lemma {:induction false} NothingDropped(cleanup: seq<Cleanup>)
    ensures WithoutRecords(cleanup, []) == cleanup
  {
    if cleanup != [] {
      NothingDropped(cleanup[..|cleanup| - 1]);
    }
  }

  lemma {:induction false} FilteredDistinct(cleanup: seq<Cleanup>, active: set<Id>)
    requires Keyed(cleanup)
    ensures Keyed(CompletedOf(cleanup)) && Keyed(Gone(cleanup, active))
  {
    if cleanup != [] {
      var init := cleanup[..|cleanup| - 1];
      KeyedInit(cleanup);
      FilteredDistinct(init, active);
      CompletedMeans(init);
      GoneMeans(init, active);
    }
  }

  lemma VictimsDistinct(cleanup: seq<Cleanup>, active: set<Id>)
    requires Keyed(cleanup)
    ensures Distinct(Victims(cleanup, active))
  {
    FilteredDistinct(cleanup, active);
    FilteredDistinct(CompletedOf(cleanup), active);
  }

  lemma {:induction false} CountLeft(cleanup: seq<Cleanup>, dropped: seq<Cleanup>)
    requires Keyed(cleanup) && Distinct(dropped) && forall c :: c in dropped ==> c in CompletedOf(cleanup)
    ensures |CompletedOf(WithoutRecords(cleanup, dropped))| == |CompletedOf(cleanup)| - |dropped|
    decreases |dropped|
  {
    CompletedMeans(cleanup);
    if dropped == [] {
      NothingDropped(cleanup);
    } else {
      var init := dropped[..|dropped| - 1];
      var last := dropped[|dropped| - 1];
      CountLeft(cleanup, init);
      assert init + [last] == dropped;
      DropLast(cleanup, init, last);
      WithoutRecordsMeans(cleanup, init);
      WithoutKeepsKeyed(cleanup, init);
      OneFewer(WithoutRecords(cleanup, init), last);
    }
  }

  lemma {:induction false} WithoutKeepsKeyed(cleanup: seq<Cleanup>, dropped: seq<Cleanup>)
    requires Keyed(cleanup)
    ensures Keyed(WithoutRecords(cleanup, dropped))
  {
    if cleanup != [] {
      KeyedInit(cleanup);
      WithoutKeepsKeyed(cleanup[..|cleanup| - 1], dropped);
      WithoutRecordsMeans(cleanup[..|cleanup| - 1], dropped);
    }
  }

  lemma LastDropped(init: seq<Cleanup>, x: Cleanup)
    requires forall c :: c in init ==> c.key != x.key
    ensures DropFrom(init + [x], x.key) == init
  {
    NotThere(init, x.key);
    AppendedIndex(init, x);
    assert (init + [x])[..|init|] + (init + [x])[|init| + 1..] == init;
  }

  lemma CompletedSnoc(init: seq<Cleanup>, x: Cleanup)
    ensures CompletedOf(init + [x]) == CompletedOf(init) + if x.completed then [x] else []
  {
    assert (init + [x])[..|init|] == init;
  }

  lemma {:induction false} OneFewer(cleanup: seq<Cleanup>, x: Cleanup)
    requires Keyed(cleanup) && x in cleanup && x.completed
    ensures |CompletedOf(DropFrom(cleanup, x.key))| == |CompletedOf(cleanup)| - 1
  {
    var init := cleanup[..|cleanup| - 1];
    var last := cleanup[|cleanup| - 1];
    assert cleanup == init + [last];
    KeyedInit(cleanup);
    CompletedSnoc(init, last);
    if x == last {
      LastDropped(init, x);
    } else {
      IndexSurvives(init, last, x.key);
      OneFewer(init, x);
      CompletedSnoc(DropFrom(init, x.key), last);
    }
  }

  /** Pruning removes only completed records of resources that are gone, the oldest
      first, keeps the order of the rest, and leaves at most the bound of completed
      records unless those left all belong to registered resources. */
  lemma PruneLeavesTheBound(s: Store)
    requires Keyed(s.cleanup)
    ensures var t := After(s, Prune(s.cleanup, Ids(s.resources)));
            && t == s.(cleanup := WithoutRecords(s.cleanup, Victims(s.cleanup, Ids(s.resources))))
            && (|CompletedOf(t.cleanup)| <= MAX_COMPLETED_CLEANUP_RECORDS
                || forall c :: c in t.cleanup && c.completed ==> c.key.resourceId in Ids(t.resources))
  {
    var active := Ids(s.resources);
    var victims := Victims(s.cleanup, active);
    VictimsDistinct(s.cleanup, active);
    VictimsMean(s.cleanup, active);
    CompletedMeans(s.cleanup);
    GoneMeans(CompletedOf(s.cleanup), active);
    AfterDropping(s, victims);
    CountLeft(s.cleanup, victims);
    WithoutRecordsMeans(s.cleanup, victims);
  }

  // Evidence -----------------------------------------------------------------------------

  /** While a guest is registered, no cleanup record about it is lost or reopened,
      whatever commands run and wherever they die. */
  lemma EvidenceLasts(p: Policy, es: seq<Event>, i: nat, c: Cleanup)
    requires ValidPolicy(p) && Fresh(p, es) && i <= |es|
    requires c in Run(p, es[..i]).cleanup && c.key.resourceId in Ids(Run(p, es).resources)
    ensures exists d :: d in Run(p, es).cleanup && d.key == c.key && (c.completed ==> d.completed)
  {
    RunsMoveForward(p, es, i);
  }

  /** When a staging guest is finally released, every cleanup that was ever deferred
      for it is on record and completed, and the removal of its VM, of its volume,
      and of its snapshot on every production node is among them. */
  lemma FinalReleaseSeesEverything(p: Policy, es: seq<Event>, i: nat, name: Name, id: Id, c: Cleanup)
    requires ValidPolicy(p) && Fresh(p, es) && i <= |es|
    requires name in Run(p, es).resources && Finalize(Run(p, es), Run(p, es).policy, name, id).outcome == Done
    requires c in Run(p, es[..i]).cleanup && c.key.resourceId == id
    ensures exists d :: d in Run(p, es).cleanup && d.key == c.key && d.completed
  {
    var s := Run(p, es);
    assert id in Ids(s.resources);
    EvidenceLasts(p, es, i, c);
    var d :| d in s.cleanup && d.key == c.key && (c.completed ==> d.completed);
    assert d.completed;
  }

  ghost predicate Removed(cleanup: seq<Cleanup>, id: Id, node: Node, action: Action, target: Target) {
    exists c :: c in cleanup && c.completed && c.key.resourceId == id && c.key.node == node && c.key.action == action
                && c.key.target == target
  }

  lemma WhatAFinalReleaseShows(s: Store, name: Name, id: Id)
    requires name in s.resources && Finalize(s, s.policy, name, id).outcome == Done
    ensures var r := s.resources[name];
            && r.id == id && StagedFrom(s, name) && r.placement != [] && !PendingFor(s.cleanup, id)
            && (r.owner.Some? ==> Removed(s.cleanup, id, r.owner.value, DestroyVm, VmTarget(r.vmid)))
            && (r.volume.Some? ==>
                  Removed(s.cleanup, id, Or(r.owner, r.placement[0]),
                          if r.backup.Some? then DestroyOverlay else DestroyVolume,
                          VolumeTarget(r.volume.value)))
            && (r.snapshot.Some? ==>
                  var source := s.resources[SourceOf(name)];
                  forall n :: n in source.placement ==>
                    Removed(s.cleanup, id, n, DeleteSnapshot, SnapshotTarget(source.vmid, r.snapshot.value.name)))
  {
    var r := s.resources[name];
    assert ValidResource(r, s.policy);
    forall n, a, t | (n, a, t) in Evidence(s.cleanup, id) ensures Removed(s.cleanup, id, n, a, t) {
      var c :| c in s.cleanup && c.key.resourceId == id && c.completed
          && (c.key.node, c.key.action, c.key.target) == (n, a, t);
    }
  }
}
