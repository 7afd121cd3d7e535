/** The monitor's view of the same listing (parse_pool and pool_problem_members of
    scripts/host_runtime/app_ha_monitor.py), against the tree that it shows.
 */
module ZpoolMonitor {
  import opened Common
  import opened Zpool

  // Whole listings ----------------------------------------------------------------------

  /** The pool or a section's heading, with the trees under it. */
  datatype Group = Group(heading: string, state: Option<string>, forest: seq<Tree>)

  function Listing(groups: seq<Group>): seq<Entry> {
    if groups == [] then []
    else [Entry(0, groups[0].heading, groups[0].state)] + (Flatten(groups[0].forest, 1) + Listing(groups[1..]))
  }

  /** The trees of each section, in the order of the listing. */
  function Collected(pool: string, sections: map<string, seq<Tree>>, groups: seq<Group>): Option<map<string, seq<Tree>>>
    decreases |groups|
  {
    if groups == [] then Some(sections)
    else if SectionOf(pool, groups[0].heading).None? then None
    else
      var section := SectionOf(pool, groups[0].heading).value;
      Collected(pool, sections[section := Trees(sections, section) + groups[0].forest], groups[1..])
  }

  /** Reading a printed listing gives back the trees of every section. */
  lemma {:induction false} ListingIsReadBack(pool: string, sections: map<string, seq<Tree>>, groups: seq<Group>)
    ensures SectionsOf(pool, sections, Listing(groups)) == Collected(pool, sections, groups)
    decreases |groups|
  {
    if groups != [] {
      var g := groups[0];
      var e := Entry(0, g.heading, g.state);
      var under, rest := Flatten(g.forest, 1), Listing(groups[1..]);
      var section := SectionOf(pool, g.heading);
      FlattenIndents(g.forest, 1);
      ForestOfFlatten(g.forest, 1);
      if section.Some? {
        OpenSection(pool, sections, e, under + rest);
        SectionAt(pool, sections, section.value, [], Trees(sections, section.value), under, rest);
        CompleteEmpty(Trees(sections, section.value), under);
        ListingIsReadBack(pool, sections[section.value := Trees(sections, section.value) + g.forest], groups[1..]);
      }
    }
  }

  // Members ---------------------------------------------------------------------------------

  /** A vdev's members are its leaves. */
  function Leaves(f: seq<Tree>): seq<(string, Option<string>)>
    decreases f
  {
    if f == [] then []
    else (if f[0].children == [] then [(f[0].name, f[0].state)] else Leaves(f[0].children)) + Leaves(f[1..])
  }

  predicate HasChildren(es: seq<Entry>)
    requires es != []
  {
    |es| > 1 && es[1].indent > es[0].indent
  }

  /** The entries that no deeper entry follows. */
  function Childless(es: seq<Entry>): seq<(string, Option<string>)> {
    if es == [] then [] else (if HasChildren(es) then [] else [(es[0].name, es[0].state)]) + Childless(es[1..])
  }

  lemma {:induction false} ChildlessConcat(a: seq<Entry>, b: seq<Entry>)
    requires a != [] && b != [] ==> b[0].indent <= a[|a| - 1].indent
    ensures Childless(a + b) == Childless(a) + Childless(b)
  {
    if a == [] {
      assert a + b == b;
    } else {
      var c := a + b;
      assert c[0] == a[0] && c[1..] == a[1..] + b;
      assert HasChildren(c) == HasChildren(a);
      ChildlessConcat(a[1..], b);
    }
  }

  lemma LeavesCons(t: Tree, f: seq<Tree>)
    ensures Leaves([t] + f) == (if t.children == [] then [(t.name, t.state)] else Leaves(t.children)) + Leaves(f)
  {
    assert ([t] + f)[1..] == f;
  }

  lemma ChildlessCons(e: Entry, inner: seq<Entry>, rest: seq<Entry>)
    requires Splits(inner, e.indent, rest)
    ensures Childless([e] + (inner + rest)) == (if inner == [] then [(e.name, e.state)] else []) + Childless(inner)
            + Childless(rest)
  {
    var es := [e] + (inner + rest);
    assert es[1..] == inner + rest;
    assert HasChildren(es) <==> inner != [];
    ChildlessConcat(inner, rest);
  }

  lemma ForestEmpty(es: seq<Entry>)
    ensures Forest(es) == [] <==> es == []
  {
  }

  lemma LeavesStep(e: Entry, inner: seq<Entry>, rest: seq<Entry>)
    requires Splits(inner, e.indent, rest)
    requires Leaves(Forest(inner)) == Childless(inner) && Leaves(Forest(rest)) == Childless(rest)
    ensures Leaves(Forest([e] + (inner + rest))) == Childless([e] + (inner + rest))
  {
    Three([e], inner, rest);
    ForestOfTwo(e, inner, rest);
    ForestEmpty(inner);
    LeavesCons(Grown(e, inner), Forest(rest));
    ChildlessCons(e, inner, rest);
    assert [] + Childless(inner) == Childless(inner);
    assert [(e.name, e.state)] + Childless([]) == [(e.name, e.state)];
  }

  /** The two parsers agree on which entries are members: the leaves of the tree are
      those that the flat list shows without children. */
  lemma {:induction false} LeavesAreTheChildless(es: seq<Entry>)
    ensures Leaves(Forest(es)) == Childless(es)
    decreases |es|
  {
    if es != [] {
      var k := Deeper(es[1..], es[0].indent);
      LeavesAreTheChildless(es[1..][..k]);
      LeavesAreTheChildless(es[1..][k..]);
      Parted(es[1..], es[0].indent);
      LeavesStep(es[0], es[1..][..k], es[1..][k..]);
      FrontAndRest(es);
    }
  }

  lemma FrontAndRest<T>(s: seq<T>)
    requires s != []
    ensures [s[0]] + s[1..] == s
  {
  }

  // The flat list ------------------------------------------------------------------------------

  datatype Flat = Flat(name: string, depth: nat, state: Option<string>)

  function FlatEntry(e: Entry): Flat {
    Flat(e.name, e.indent / 2, e.state)
  }

  function FlatOf(es: seq<Entry>): (r: seq<Flat>)
    ensures |r| == |es| && forall i :: 0 <= i < |es| ==> r[i] == FlatEntry(es[i])
  {
    seq(|es|, i requires 0 <= i < |es| => FlatEntry(es[i]))
  }

  lemma FlatConcat(a: seq<Entry>, b: seq<Entry>)
    ensures FlatOf(a + b) == FlatOf(a) + FlatOf(b)
  {
  }

  /** The monitor skips the line of titles by another test. */
  function LexFlat(line: string): Option<Flat> {
    var body := if line != "" && line[0] == '\t' then line[1..] else line;
    var tokens := Tokens(body);
    if tokens == [] || (tokens[0] == "NAME" && "STATE" in tokens) then None
    else Some(Flat(tokens[0], LeadingSpaces(body) / 2, if |tokens| > 1 then Some(tokens[1]) else None))
  }

  /** A device that is called NAME, with STATE among its notes. */
  predicate OddTitle(line: string) {
    var tokens := Tokens(if line != "" && line[0] == '\t' then line[1..] else line);
    |tokens| > 1 && tokens[0] == "NAME" && tokens[1] != "STATE" && "STATE" in tokens
  }

  /** Apart from that both read every line alike. */
  lemma BothReadLinesAlike(line: string)
    ensures (Lex(line).Some? <==> LexFlat(line).Some?) <==> !OddTitle(line)
    ensures LexFlat(line).Some? ==>
              Lex(line).Some?
              && LexFlat(line).value == Flat(Lex(line).value.name, Lex(line).value.indent / 2, Lex(line).value.state)
  {
    var body := if line != "" && line[0] == '\t' then line[1..] else line;
    var tokens := Tokens(body);
    if |tokens| > 1 && tokens[0] == "NAME" && tokens[1] == "STATE" {
      assert tokens[1] in tokens;
    }
    if |tokens| == 1 && tokens[0] == "NAME" {
      assert "STATE" in tokens <==> tokens[0] == "STATE";
      assert |"NAME"| != |"STATE"|;
    }
  }

  function FlatLine(line: string): seq<Flat> {
    if LexFlat(line).Some? then [LexFlat(line).value] else []
  }

  function FlatAll(lines: seq<string>): seq<Flat> {
    if lines == [] then [] else FlatAll(lines[..|lines| - 1]) + FlatLine(lines[|lines| - 1])
  }

  method ParsePool(lines: seq<string>) returns (entries: seq<Flat>)
    ensures entries == FlatAll(lines)
  {
    entries := [];
    for i := 0 to |lines|
      invariant entries == FlatAll(lines[..i])
    {
      assert lines[..i + 1][..i] == lines[..i];
      var flat := LexFlat(lines[i]);
      if flat.Some? {
        entries := entries + [flat.value];
      }
    }
    assert lines[..|lines|] == lines;
  }

  lemma {:induction false} LexAllSnoc(lines: seq<string>, line: string)
    ensures LexAll(lines + [line]) == LexAll(lines) + LexAll([line])
  {
    if lines == [] {
      assert lines + [line] == [line];
    } else {
      assert (lines + [line])[0] == lines[0] && (lines + [line])[1..] == lines[1..] + [line];
      LexAllSnoc(lines[1..], line);
    }
  }

  lemma LineAlike(line: string)
    requires !OddTitle(line)
    ensures FlatOf(LexAll([line])) == FlatLine(line)
  {
    BothReadLinesAlike(line);
    assert [line][1..] == [];
  }

  /** The flat list has the entries that the other parser reads, with their depths,
      wherever no line is a device that is called NAME. */
  lemma {:induction false} BothReadAlike(lines: seq<string>)
    requires forall i :: 0 <= i < |lines| ==> !OddTitle(lines[i])
    ensures FlatAll(lines) == FlatOf(LexAll(lines))
  {
    if lines != [] {
      var init, line := lines[..|lines| - 1], lines[|lines| - 1];
      BothReadAlike(init);
      LineAlike(line);
      LexAllSnoc(init, line);
      assert lines == init + [line];
      FlatConcat(LexAll(init), LexAll([line]));
    }
  }

  // Problems ---------------------------------------------------------------------------------------

  predicate Fine(group: Option<string>, state: string) {
    if group == Some("spares") then state == "AVAIL" || state == "INUSE" else state == "ONLINE"
  }

  /** A degraded vdev is told by its members. */
  predicate Problem(group: Option<string>, state: Option<string>, hasChildren: bool) {
    state.Some? && !Fine(group, state.value) && !(hasChildren && state.value == "DEGRADED")
  }

  function Describe(parent: string, name: string, state: string): string {
    if parent != "" then parent + ": " + name + " " + state else name + " " + state
  }

  function GroupOf(heading: string, state: Option<string>): Option<string> {
    if state.Some? then None else Some(heading)
  }

  /** The problems of some trees, each told with its parent. */
  function TreeProblems(group: Option<string>, parent: string, f: seq<Tree>): seq<string>
    decreases f
  {
    if f == [] then [] else
      (if Problem(group, f[0].state, f[0].children != []) then [Describe(parent, f[0].name, f[0].state.value)] else [])
      + (TreeProblems(group, f[0].name, f[0].children) + TreeProblems(group, parent, f[1..]))
  }

  function ListingProblems(groups: seq<Group>): seq<string> {
    if groups == [] then []
    else
      var g := groups[0];
      TreeProblems(GroupOf(g.heading, g.state), g.heading, g.forest) + ListingProblems(groups[1..])
  }

  /** The list of parents cut to a depth. */
  function Cut(parents: seq<string>, depth: nat): seq<string> {
    if depth < |parents| then parents[..depth] else parents
  }

  predicate FlatHasChildren(entries: seq<Flat>)
    requires entries != []
  {
    |entries| > 1 && entries[1].depth > entries[0].depth
  }

  function OneProblem(parents: seq<string>, group: Option<string>, entries: seq<Flat>): seq<string>
    requires entries != [] && parents != []
  {
    var e := entries[0];
    if e.depth > 0 && Problem(group, e.state, FlatHasChildren(entries))
    then [Describe(if |parents| >= 2 then parents[|parents| - 2] else "", e.name, e.state.value)] else []
  }

  /** One pass over the entries with the parents of the last one. */
  function Scan(parents: seq<string>, group: Option<string>, entries: seq<Flat>): seq<string>
    decreases |entries|
  {
    if entries == [] then [] else
      var e := entries[0];
      var parents' := Cut(parents, e.depth) + [e.name];
      var group' := if e.depth == 0 then GroupOf(e.name, e.state) else group;
      OneProblem(parents', group', entries) + Scan(parents', group', entries[1..])
  }

  /** One round of the pass. */
  method OneEntry(entries: seq<Flat>, i: nat, before: seq<string>, groupBefore: Option<string>)
    returns (parents: seq<string>, group: Option<string>, found: seq<string>)
    requires i < |entries|
    ensures parents == Cut(before, entries[i].depth) + [entries[i].name]
    ensures group == if entries[i].depth == 0 then GroupOf(entries[i].name, entries[i].state) else groupBefore
    ensures found == OneProblem(parents, group, entries[i..])
  {
    var entry := entries[i];
    var hasChildren := i + 1 < |entries| && entries[i + 1].depth > entry.depth;
    parents, group, found := before, groupBefore, [];
    if entry.depth < |parents| {
      parents := parents[..entry.depth];
    }
    parents := parents + [entry.name];
    assert FlatHasChildren(entries[i..]) == hasChildren;
    if entry.depth == 0 {
      group := if entry.state.Some? then None else Some(entry.name);
      return;
    }
    if entry.state.None? || Fine(group, entry.state.value) || (hasChildren && entry.state.value == "DEGRADED") {
      return;
    }
    var parent := if |parents| >= 2 then parents[|parents| - 2] else "";
    found := [Describe(parent, entry.name, entry.state.value)];
  }

  method PoolProblemMembers(entries: seq<Flat>) returns (problems: seq<string>)
    ensures problems == Scan([], None, entries)
  {
    problems := [];
    var parents: seq<string>, group: Option<string> := [], None;
    var i := 0;
    while i < |entries|
      invariant i <= |entries| && problems + Scan(parents, group, entries[i..]) == Scan([], None, entries)
    {
      var found;
      ScanCons(parents, group, entries, i);
      parents, group, found := OneEntry(entries, i, parents, group);
      Three(problems, found, Scan(parents, group, entries[i + 1..]));
      problems := problems + found;
      i := i + 1;
    }
    assert problems + Scan(parents, group, []) == problems;
  }

  lemma ScanCons(parents: seq<string>, group: Option<string>, entries: seq<Flat>, i: nat)
    requires i < |entries|
    ensures var parents' := Cut(parents, entries[i].depth) + [entries[i].name];
            var group' := if entries[i].depth == 0 then GroupOf(entries[i].name, entries[i].state) else group;
            Scan(parents, group, entries[i..]) == OneProblem(parents', group', entries[i..])
                + Scan(parents', group', entries[i + 1..])
  {
    assert entries[i..][1..] == entries[i + 1..];
  }

  /** Only the parents above the next entry matter. */
  lemma ScanAgrees(a: seq<string>, b: seq<string>, group: Option<string>, rest: seq<Flat>)
    requires rest != [] ==> rest[0].depth <= |a| && rest[0].depth <= |b| && a[..rest[0].depth] == b[..rest[0].depth]
    ensures Scan(a, group, rest) == Scan(b, group, rest)
  {
    if rest != [] {
      assert Cut(a, rest[0].depth) == a[..rest[0].depth] && Cut(b, rest[0].depth) == b[..rest[0].depth];
    }
  }

  predicate Shallow(rest: seq<Flat>, depth: nat) {
    rest != [] ==> rest[0].depth <= depth
  }

  lemma FlatFlatten(t: Tree, f: seq<Tree>, depth: nat)
    ensures FlatOf(Flatten([t] + f, depth))
            == [Flat(t.name, depth, t.state)] + (FlatOf(Flatten(t.children, depth + 1)) + FlatOf(Flatten(f, depth)))
  {
    var e := Entry(2 * depth, t.name, t.state);
    var inner, rest := Flatten(t.children, depth + 1), Flatten(f, depth);
    assert ([t] + f)[1..] == f;
    assert Flatten([t] + f, depth) == ([e] + inner) + rest;
    FlatConcat([e] + inner, rest);
    FlatConcat([e], inner);
    assert FlatOf([e]) == [Flat(t.name, depth, t.state)];
    Three([Flat(t.name, depth, t.state)], FlatOf(inner), FlatOf(rest));
  }

  lemma FlattenShallow(f: seq<Tree>, depth: nat, rest: seq<Flat>)
    requires Shallow(rest, depth)
    ensures Shallow(FlatOf(Flatten(f, depth)) + rest, depth)
    ensures |FlatOf(Flatten(f, depth))| > 0 <==> f != []
    ensures f != [] ==> FlatOf(Flatten(f, depth))[0].depth == depth
  {
    FlattenIndents(f, depth);
    if f != [] {
      assert f == [f[0]] + f[1..];
      FlatFlatten(f[0], f[1..], depth);
    } else {
      assert FlatOf([]) + rest == rest;
    }
  }

  /** What the pass says of one tree: with its true parent, and whether it has
      children. */
  lemma ScanNode(parents: seq<string>, group: Option<string>, t: Tree, depth: nat, inner: seq<Flat>, rest: seq<Flat>)
    requires 1 <= depth <= |parents| && Shallow(rest, depth)
    requires if t.children == [] then inner == [] else inner != [] && inner[0].depth == depth + 1
    ensures var here := parents[..depth] + [t.name];
            Scan(parents, group, [Flat(t.name, depth, t.state)] + (inner + rest))
            == (if Problem(group, t.state, t.children != [])
                then [Describe(parents[depth - 1], t.name, t.state.value)] else [])
               + Scan(here, group, inner + rest)
  {
    var entries := [Flat(t.name, depth, t.state)] + (inner + rest);
    assert entries[1..] == inner + rest;
    assert FlatHasChildren(entries) <==> t.children != [];
    assert Cut(parents, depth) == parents[..depth];
  }

  lemma TreeProblemsCons(group: Option<string>, parent: string, t: Tree, f: seq<Tree>)
    ensures TreeProblems(group, parent, [t] + f)
            == OwnProblem(group, parent, t) + (TreeProblems(group, t.name, t.children) + TreeProblems(group, parent, f))
  {
    assert ([t] + f)[1..] == f;
  }

  function OwnProblem(group: Option<string>, parent: string, t: Tree): seq<string> {
    if Problem(group, t.state, t.children != []) then [Describe(parent, t.name, t.state.value)] else []
  }

  lemma ScanStep(parents: seq<string>, group: Option<string>, t: Tree, f: seq<Tree>, depth: nat, inner: seq<Flat>,
                 after: seq<Flat>,
                 rest: seq<Flat>)
    requires 1 <= depth <= |parents| && Shallow(after + rest, depth)
    requires if t.children == [] then inner == [] else inner != [] && inner[0].depth == depth + 1
    requires var here := parents[..depth] + [t.name];
             Scan(here, group, inner + (after + rest)) == TreeProblems(group, t.name, t.children)
                 + Scan(here, group, after + rest)
    requires Scan(parents, group, after + rest) == TreeProblems(group, parents[depth - 1], f)
             + Scan(parents, group, rest)
    ensures Scan(parents, group, [Flat(t.name, depth, t.state)] + (inner + after) + rest)
            == TreeProblems(group, parents[depth - 1], [t] + f) + Scan(parents, group, rest)
  {
    Regroup(Flat(t.name, depth, t.state), inner, after, rest);
    ScanNode(parents, group, t, depth, inner, after + rest);
    Agreed(parents, depth, t.name, group, after + rest);
    TreeProblemsCons(group, parents[depth - 1], t, f);
    Sum(OwnProblem(group, parents[depth - 1], t), TreeProblems(group, t.name, t.children),
        TreeProblems(group, parents[depth - 1], f), Scan(parents, group, rest));
  }

  /** The pass over printed trees tells their problems and leaves the rest alone. */
  ghost predicate Scans(parents: seq<string>, group: Option<string>, f: seq<Tree>, depth: nat, rest: seq<Flat>)
    requires 1 <= depth <= |parents|
  {
    Scan(parents, group, FlatOf(Flatten(f, depth)) + rest) == TreeProblems(group, parents[depth - 1], f)
        + Scan(parents, group, rest)
  }

  lemma ScansCons(parents: seq<string>, group: Option<string>, t: Tree, f: seq<Tree>, depth: nat, rest: seq<Flat>)
    requires 1 <= depth <= |parents| && Shallow(rest, depth)
    requires Scans(parents[..depth] + [t.name], group, t.children, depth + 1, FlatOf(Flatten(f, depth)) + rest)
    requires Scans(parents, group, f, depth, rest)
    ensures Scans(parents, group, [t] + f, depth, rest)
  {
    var inner, after := FlatOf(Flatten(t.children, depth + 1)), FlatOf(Flatten(f, depth));
    FlatFlatten(t, f, depth);
    FlattenShallow(f, depth, rest);
    InnerFirst(t.children, depth + 1);
    ScanStep(parents, group, t, f, depth, inner, after, rest);
  }

  lemma InnerFirst(f: seq<Tree>, depth: nat)
    ensures var inner := FlatOf(Flatten(f, depth));
            if f == [] then inner == [] else inner != [] && inner[0].depth == depth
  {
    FlattenShallow(f, depth, []);
  }

  lemma AfterIsShallow(f: seq<Tree>, depth: nat, rest: seq<Flat>)
    requires Shallow(rest, depth)
    ensures Shallow(FlatOf(Flatten(f, depth)) + rest, depth)
  {
    FlattenShallow(f, depth, rest);
  }

  lemma {:induction false} ScanForest(parents: seq<string>, group: Option<string>, f: seq<Tree>, depth: nat,
                                      rest: seq<Flat>)
    requires 1 <= depth <= |parents| && Shallow(rest, depth)
    ensures Scans(parents, group, f, depth, rest)
    decreases f, 1
  {
    if f == [] {
      ScansNothing(parents, group, depth, rest);
    } else {
      AfterIsShallow(f[1..], depth, rest);
      ScanUnder(parents, group, f, f[0], depth, FlatOf(Flatten(f[1..], depth)) + rest);
      ScanForest(parents, group, f[1..], depth, rest);
      ScansCons(parents, group, f[0], f[1..], depth, rest);
      FrontAndRest(f);
    }
  }

  /** The same under one of the trees, whatever comes after it. */
  lemma {:induction false} ScanUnder(parents: seq<string>, group: Option<string>, f: seq<Tree>, t: Tree, depth: nat,
                                     after: seq<Flat>)
    requires 1 <= depth <= |parents| && Shallow(after, depth) && t in f
    ensures Scans(parents[..depth] + [t.name], group, t.children, depth + 1, after)
    decreases f, 0
  {
    ScanForest(parents[..depth] + [t.name], group, t.children, depth + 1, after);
  }

  lemma ScansNothing(parents: seq<string>, group: Option<string>, depth: nat, rest: seq<Flat>)
    requires 1 <= depth <= |parents|
    ensures Scans(parents, group, [], depth, rest)
  {
    assert FlatOf([]) + rest == rest;
  }

  lemma Regroup<T>(x: T, a: seq<T>, b: seq<T>, c: seq<T>)
    ensures [x] + (a + b) + c == [x] + (a + (b + c))
  {
  }

  lemma Sum<T>(a: seq<T>, b: seq<T>, c: seq<T>, d: seq<T>)
    ensures a + (b + (c + d)) == a + (b + c) + d
  {
  }

  lemma Agreed(parents: seq<string>, depth: nat, name: string, group: Option<string>, rest: seq<Flat>)
    requires depth <= |parents| && Shallow(rest, depth)
    ensures Scan(parents[..depth] + [name], group, rest) == Scan(parents, group, rest)
  {
    if rest != [] {
      assert (parents[..depth] + [name])[..rest[0].depth] == parents[..rest[0].depth];
    }
    ScanAgrees(parents[..depth] + [name], parents, group, rest);
  }

  lemma ListingShallow(groups: seq<Group>)
    ensures Shallow(FlatOf(Listing(groups)), 0)
  {
  }

  lemma FlatListing(g: Group, groups: seq<Group>)
    ensures FlatOf(Listing([g] + groups))
            == [Flat(g.heading, 0, g.state)] + (FlatOf(Flatten(g.forest, 1)) + FlatOf(Listing(groups)))
  {
    var e := Entry(0, g.heading, g.state);
    assert ([g] + groups)[1..] == groups;
    FlatConcat([e], Flatten(g.forest, 1) + Listing(groups));
    FlatConcat(Flatten(g.forest, 1), Listing(groups));
    assert FlatOf([e]) == [Flat(g.heading, 0, g.state)];
  }

  lemma ScanHeading(parents: seq<string>, group: Option<string>, g: Group, rest: seq<Flat>)
    ensures Scan(parents, group, [Flat(g.heading, 0, g.state)] + rest)
            == Scan([g.heading], GroupOf(g.heading, g.state), rest)
  {
    var entries := [Flat(g.heading, 0, g.state)] + rest;
    assert entries[1..] == rest;
    assert Cut(parents, 0) + [g.heading] == [g.heading];
    assert [] + Scan([g.heading], GroupOf(g.heading, g.state), rest)
        == Scan([g.heading], GroupOf(g.heading, g.state), rest);
  }

  /** A list that starts at a heading needs no parents and no group. */
  lemma ScanFromHeading(a: seq<string>, b: seq<string>, g: Option<string>, h: Option<string>, rest: seq<Flat>)
    requires Shallow(rest, 0)
    ensures Scan(a, g, rest) == Scan(b, h, rest)
  {
    assert rest != [] ==> Cut(a, 0) == Cut(b, 0);
  }

  /** The flat pass reports exactly the problems of the trees, each with the parent
      that it has in the tree. */
  lemma {:induction false} ProblemsAreThoseOfTheTrees(groups: seq<Group>)
    ensures Scan([], None, FlatOf(Listing(groups))) == ListingProblems(groups)
  {
    if groups != [] {
      var g := groups[0];
      var rest := FlatOf(Listing(groups[1..]));
      var group := GroupOf(g.heading, g.state);
      assert groups == [g] + groups[1..];
      FlatListing(g, groups[1..]);
      ScanHeading([], None, g, FlatOf(Flatten(g.forest, 1)) + rest);
      ListingShallow(groups[1..]);
      ScanForest([g.heading], group, g.forest, 1, rest);
      ScanFromHeading([g.heading], [], group, None, rest);
      ProblemsAreThoseOfTheTrees(groups[1..]);
    }
  }
}
