/** Which entries of a `zpool status` listing are problems, on their states and places
    alone, and how each is told.
 */
module ZpoolProblems {
  import opened Common
  import opened Zpool
  import opened ZpoolMonitor

  // The flat list ----------------------------------------------------------------------------

  /** The last heading before an entry opens the spares. */
  ghost predicate UnderSpares(entries: seq<Flat>, i: nat)
    requires i <= |entries|
  {
    exists j :: 0 <= j < i && entries[j] == Flat("spares", 0, None) && forall k :: j < k < i ==> entries[k].depth > 0
  }

  /** A deeper entry follows directly. */
  predicate HasMembers(entries: seq<Flat>, i: nat)
    requires i < |entries|
  {
    i + 1 < |entries| && entries[i + 1].depth > entries[i].depth
  }

  /** A state below a heading that is not the good one of its section; a degraded device
      with members is told by them. */
  ghost predicate IsProblem(entries: seq<Flat>, i: nat)
    requires i < |entries|
  {
    && entries[i].depth > 0 && entries[i].state.Some?
    && (if UnderSpares(entries, i) then entries[i].state.value != "AVAIL" && entries[i].state.value != "INUSE"
        else entries[i].state.value != "ONLINE")
    && (entries[i].state.value == "DEGRADED" ==> !HasMembers(entries, i))
  }

  /** The line names the entry and its state, after an entry before it, if any. */
  ghost predicate Tells(line: string, entries: seq<Flat>, i: nat) {
    && i < |entries| && entries[i].state.Some?
    && (line == entries[i].name + " " + entries[i].state.value
        || exists j :: 0 <= j < i && line == entries[j].name + ": " + entries[i].name + " " + entries[i].state.value)
  }

  /** One line for each problem from an entry on, in their order. */
  ghost predicate Reports(entries: seq<Flat>, from: nat, lines: seq<string>, places: seq<nat>) {
    && |places| == |lines| && Places(entries, from, places)
    && (forall k :: 0 <= k < |lines| ==> Tells(lines[k], entries, places[k]))
  }

  /** What the pass knows before an entry. */
  ghost predicate Knows(entries: seq<Flat>, i: nat, parents: seq<string>, group: Option<string>) {
    && i <= |entries| && (group == Some("spares") <==> UnderSpares(entries, i))
    && (forall p :: p in parents ==> exists j :: 0 <= j < i && entries[j].name == p)
  }

  lemma NextGroup(entries: seq<Flat>, i: nat, group: Option<string>)
    requires i < |entries| && (group == Some("spares") <==> UnderSpares(entries, i))
    ensures var next := if entries[i].depth == 0 then GroupOf(entries[i].name, entries[i].state) else group;
            (next == Some("spares") <==> UnderSpares(entries, i + 1))
            && (entries[i].depth > 0 ==> (UnderSpares(entries, i + 1) <==> UnderSpares(entries, i)))
  {
    if entries[i].depth == 0 && entries[i].name == "spares" && entries[i].state.None? {
      assert entries[i] == Flat("spares", 0, None);
    }
    if entries[i].depth > 0 && UnderSpares(entries, i) {
      var j :| 0 <= j < i && entries[j] == Flat("spares", 0, None) && forall k :: j < k < i ==> entries[k].depth > 0;
      assert forall k :: j < k < i + 1 ==> entries[k].depth > 0;
    }
  }

  lemma KnowsNext(entries: seq<Flat>, i: nat, parents: seq<string>, group: Option<string>)
    requires Knows(entries, i, parents, group) && i < |entries|
    ensures Knows(entries, i + 1, Cut(parents, entries[i].depth) + [entries[i].name],
                  if entries[i].depth == 0 then GroupOf(entries[i].name, entries[i].state) else group)
  {
    NextGroup(entries, i, group);
    var parents' := Cut(parents, entries[i].depth) + [entries[i].name];
    forall p | p in parents' ensures exists j :: 0 <= j < i + 1 && entries[j].name == p {
      if p in parents {
        var j :| 0 <= j < i && entries[j].name == p;
      } else {
        assert p == entries[i].name;
      }
    }
  }

  lemma OneLine(entries: seq<Flat>, i: nat, parents: seq<string>, group: Option<string>)
    requires Knows(entries, i, parents, group) && i < |entries|
    ensures var parents' := Cut(parents, entries[i].depth) + [entries[i].name];
            var group' := if entries[i].depth == 0 then GroupOf(entries[i].name, entries[i].state) else group;
            var found := OneProblem(parents', group', entries[i..]);
            if IsProblem(entries, i) then |found| == 1 && Tells(found[0], entries, i) else found == []
  {
    var parents' := Cut(parents, entries[i].depth) + [entries[i].name];
    NextGroup(entries, i, group);
    assert FlatHasChildren(entries[i..]) <==> HasMembers(entries, i);
    if IsProblem(entries, i) && |parents'| >= 2 {
      assert parents'[|parents'| - 2] in parents;
    }
  }

  lemma {:induction false} ScanReports(entries: seq<Flat>, i: nat, parents: seq<string>, group: Option<string>)
    returns (places: seq<nat>)
    requires Knows(entries, i, parents, group)
    ensures Reports(entries, i, Scan(parents, group, entries[i..]), places)
    decreases |entries| - i
  {
    if i == |entries| {
      assert entries[i..] == [];
      return [];
    }
    KnowsNext(entries, i, parents, group);
    OneLine(entries, i, parents, group);
    ScanCons(parents, group, entries, i);
    var parents' := Cut(parents, entries[i].depth) + [entries[i].name];
    var group' := if entries[i].depth == 0 then GroupOf(entries[i].name, entries[i].state) else group;
    var rest := ScanReports(entries, i + 1, parents', group');
    places := if IsProblem(entries, i) then [i] + rest else rest;
    var found := OneProblem(parents', group', entries[i..]);
    ReportsMore(entries, i, found, Scan(parents', group', entries[i + 1..]), rest);
  }

  /** The places are the problems from an entry on, in order. */
  ghost predicate Places(entries: seq<Flat>, from: nat, places: seq<nat>) {
    && (forall i, j :: 0 <= i < j < |places| ==> places[i] < places[j])
    && (forall i: nat :: i in places <==> from <= i < |entries| && IsProblem(entries, i))
  }

  lemma PlacesMore(entries: seq<Flat>, i: nat, rest: seq<nat>)
    requires i < |entries| && Places(entries, i + 1, rest)
    ensures Places(entries, i, if IsProblem(entries, i) then [i] + rest else rest)
  {
    if IsProblem(entries, i) {
      var places := [i] + rest;
      forall j, k | 0 <= j < k < |places| ensures places[j] < places[k] {
        assert places[k] == rest[k - 1] && rest[k - 1] in rest;
      }
      forall j: nat ensures j in places <==> i <= j < |entries| && IsProblem(entries, j) {
        assert j in places <==> j == i || j in rest;
      }
    }
  }

  lemma ReportsMore(entries: seq<Flat>, i: nat, found: seq<string>, lines: seq<string>, rest: seq<nat>)
    requires i < |entries| && Reports(entries, i + 1, lines, rest)
    requires if IsProblem(entries, i) then |found| == 1 && Tells(found[0], entries, i) else found == []
    ensures Reports(entries, i, found + lines, if IsProblem(entries, i) then [i] + rest else rest)
  {
    PlacesMore(entries, i, rest);
    if !IsProblem(entries, i) {
      assert found + lines == lines;
    }
  }

  /** The pass tells each problem once, in the order of the list, and nothing else; so
      it tells nothing exactly if there is none. */
  lemma ExactlyTheProblemsAreTold(entries: seq<Flat>)
    ensures exists places :: Reports(entries, 0, Scan([], None, entries), places)
    ensures Scan([], None, entries) == [] <==> forall i :: 0 <= i < |entries| ==> !IsProblem(entries, i)
  {
    assert entries[0..] == entries;
    var places := ScanReports(entries, 0, [], None);
    NoneTold(entries, Scan([], None, entries), places);
  }

  lemma NoneTold(entries: seq<Flat>, lines: seq<string>, places: seq<nat>)
    requires Reports(entries, 0, lines, places)
    ensures lines == [] <==> forall i :: 0 <= i < |entries| ==> !IsProblem(entries, i)
  {
    if lines == [] {
      forall i | 0 <= i < |entries| ensures !IsProblem(entries, i) {
        assert i !in places;
      }
    } else {
      assert places[0] in places;
      assert IsProblem(entries, places[0]);
    }
  }

  // The trees ------------------------------------------------------------------------------------

  /** What should be told of some trees under a parent. */
  function TreeLines(spares: bool, parent: string, f: seq<Tree>): seq<string>
    decreases f
  {
    if f == [] then [] else
      var t := f[0];
      var good := if spares then t.state == Some("AVAIL") || t.state == Some("INUSE") else t.state == Some("ONLINE");
      var own := if t.state == None || good || (t.state == Some("DEGRADED") && |t.children| > 0) then []
                 else if |parent| > 0 then [parent + ": " + t.name + " " + t.state.value]
                 else [t.name + " " + t.state.value];
      own + (TreeLines(spares, t.name, t.children) + TreeLines(spares, parent, f[1..]))
  }

  /** A section is a heading without a state; its trees stand under that heading. */
  function ListingLines(groups: seq<Group>): seq<string> {
    if groups == [] then []
    else
      var g := groups[0];
      TreeLines(g.heading == "spares" && g.state == None, g.heading, g.forest) + ListingLines(groups[1..])
  }

  lemma {:induction false} TreeLinesAre(group: Option<string>, parent: string, f: seq<Tree>)
    ensures TreeProblems(group, parent, f) == TreeLines(group == Some("spares"), parent, f)
    decreases f
  {
    if f != [] {
      TreeLinesAre(group, f[0].name, f[0].children);
      TreeLinesAre(group, parent, f[1..]);
    }
  }

  /** Of a printed listing the pass tells exactly the problems of its trees, each with
      the parent that it has in its tree. */
  lemma {:induction false} TheTreesAreTold(groups: seq<Group>)
    ensures Scan([], None, FlatOf(Listing(groups))) == ListingLines(groups)
  {
    ProblemsAreThoseOfTheTrees(groups);
    ListingLinesAre(groups);
  }

  lemma {:induction false} ListingLinesAre(groups: seq<Group>)
    ensures ListingProblems(groups) == ListingLines(groups)
  {
    if groups != [] {
      TreeLinesAre(GroupOf(groups[0].heading, groups[0].state), groups[0].heading, groups[0].forest);
      ListingLinesAre(groups[1..]);
    }
  }
}
