/** Two parsers of the same indented listing, the config part of `zpool status`.

    host_storage.py builds the tree of vdevs with a stack of indents; the monitor
    (app_ha_monitor.py) keeps a flat list of names and depths and walks it with a
    list of parents. Both are proved against the tree that the listing shows.
 */
module Zpool {
  import opened Common
  import T = Text

  /** One line of the listing: the pool, a section's heading, a vdev or a member. */
  datatype Entry = Entry(indent: nat, name: string, state: Option<string>)
  datatype Tree = Node(name: string, state: Option<string>, children: seq<Tree>)

  // The tree that a listing shows --------------------------------------------------------

  /** How many entries at the front are indented more than n. */
  function Deeper(es: seq<Entry>, n: nat): (k: nat)
    ensures k <= |es| && (k < |es| ==> es[k].indent <= n)
    ensures forall i :: 0 <= i < k ==> es[i].indent > n
  {
    if es == [] || es[0].indent <= n then 0 else 1 + Deeper(es[1..], n)
  }

  /** Every entry's children are those that follow it with a greater indent. */
  function Forest(es: seq<Entry>): seq<Tree>
    decreases |es|
  {
    if es == [] then [] else
      var k := Deeper(es[1..], es[0].indent);
      [Node(es[0].name, es[0].state, Forest(es[1..1 + k]))] + Forest(es[1 + k..])
  }

  /** Printing: two more spaces for each level. */
  function Flatten(f: seq<Tree>, depth: nat): seq<Entry>
    decreases f
  {
    if f == [] then [] else FlattenTree(f[0], depth) + Flatten(f[1..], depth)
  }

  function FlattenTree(t: Tree, depth: nat): seq<Entry>
    decreases t
  {
    [Entry(2 * depth, t.name, t.state)] + Flatten(t.children, depth + 1)
  }

  lemma {:induction false} DeeperIs(es: seq<Entry>, n: nat, k: nat)
    requires k <= |es| && (k < |es| ==> es[k].indent <= n) && forall i :: 0 <= i < k ==> es[i].indent > n
    ensures Deeper(es, n) == k
  {
    if k > 0 {
      DeeperIs(es[1..], n, k - 1);
    }
  }

  /** The first entry, what is under it, and the rest. */
  lemma ForestCons(e: Entry, inner: seq<Entry>, rest: seq<Entry>)
    requires forall x :: x in inner ==> x.indent > e.indent
    requires rest != [] ==> rest[0].indent <= e.indent
    ensures Forest([e] + inner + rest) == [Node(e.name, e.state, Forest(inner))] + Forest(rest)
  {
    var es := [e] + inner + rest;
    assert es[1..] == inner + rest;
    DeeperIs(es[1..], e.indent, |inner|);
    assert es[1..1 + |inner|] == inner;
    assert es[1 + |inner|..] == rest;
  }

  lemma {:induction false} FlattenIndents(f: seq<Tree>, depth: nat)
    ensures forall e :: e in Flatten(f, depth) ==> e.indent >= 2 * depth
    ensures f != [] ==> Flatten(f, depth) != [] && Flatten(f, depth)[0].indent == 2 * depth
    decreases f
  {
    if f != [] {
      FlattenIndents(f[0].children, depth + 1);
      FlattenIndents(f[1..], depth);
    }
  }

  /** Reading what was printed gives back the same trees in the same order, however
      deep they are. */
  lemma {:induction false} ForestOfFlatten(f: seq<Tree>, depth: nat)
    ensures Forest(Flatten(f, depth)) == f
    decreases f
  {
    if f != [] {
      var t := f[0];
      var e := Entry(2 * depth, t.name, t.state);
      ForestOfFlatten(t.children, depth + 1);
      ForestOfFlatten(f[1..], depth);
      FlattenIndents(t.children, depth + 1);
      FlattenIndents(f[1..], depth);
      assert Flatten(f, depth) == FlattenTree(t, depth) + Flatten(f[1..], depth);
      ForestCons(e, Flatten(t.children, depth + 1), Flatten(f[1..], depth));
    }
  }

  /** The trees' names and states, parents first. */
  function Preorder(f: seq<Tree>): seq<(string, Option<string>)>
    decreases f
  {
    if f == [] then [] else [(f[0].name, f[0].state)] + Preorder(f[0].children) + Preorder(f[1..])
  }

  function Names(es: seq<Entry>): (r: seq<(string, Option<string>)>)
    ensures |r| == |es| && forall i :: 0 <= i < |es| ==> r[i] == (es[i].name, es[i].state)
  {
    seq(|es|, i requires 0 <= i < |es| => (es[i].name, es[i].state))
  }

  lemma NamesConcat(a: seq<Entry>, b: seq<Entry>)
    ensures Names(a + b) == Names(a) + Names(b)
  {
  }

  lemma PreorderCons(t: Tree, f: seq<Tree>)
    ensures Preorder([t] + f) == [(t.name, t.state)] + Preorder(t.children) + Preorder(f)
  {
    assert ([t] + f)[1..] == f;
  }

  lemma NamesCons(e: Entry, es: seq<Entry>)
    ensures Names([e] + es) == [(e.name, e.state)] + Names(es)
  {
  }

  /** Whatever the indents, no entry is lost, doubled or moved. */
  lemma {:induction false} ForestKeepsTheOrder(es: seq<Entry>)
    ensures Preorder(Forest(es)) == Names(es)
    decreases |es|
  {
    if es != [] {
      var k := Deeper(es[1..], es[0].indent);
      var inner, rest := es[1..1 + k], es[1 + k..];
      ForestKeepsTheOrder(inner);
      ForestKeepsTheOrder(rest);
      PreorderCons(Node(es[0].name, es[0].state, Forest(inner)), Forest(rest));
      NamesSplit(es, k);
    }
  }

  lemma NamesSplit(es: seq<Entry>, k: nat)
    requires k < |es|
    ensures Names(es) == [(es[0].name, es[0].state)] + Names(es[1..1 + k]) + Names(es[1 + k..])
  {
    var after := es[1..];
    assert es == [es[0]] + after;
    NamesCons(es[0], after);
    assert after == after[..k] + after[k..];
    NamesConcat(after[..k], after[k..]);
    assert after[..k] == es[1..1 + k] && after[k..] == es[1 + k..];
  }

  // The stack parser --------------------------------------------------------------------------

  /** A node whose children are still being read. */
  datatype Open = Open(indent: nat, name: string, state: Option<string>, children: seq<Tree>)

  function Closed(o: Open): Tree {
    Node(o.name, o.state, o.children)
  }

  /** The stack with more children under its top node. */
  function Adopt(stack: seq<Open>, trees: seq<Tree>): (r: seq<Open>)
    requires stack != []
    ensures |r| == |stack|
  {
    var top := stack[|stack| - 1];
    stack[..|stack| - 1] + [top.(children := top.children + trees)]
  }

  /** Taking the top node off the stack: it is a child of the one below, or a root. */
  function PopTo(stack: seq<Open>, roots: seq<Tree>): (r: (seq<Open>, seq<Tree>))
    requires stack != []
    ensures |r.0| == |stack| - 1
  {
    var done := Closed(stack[|stack| - 1]);
    if |stack| == 1 then ([], roots + [done]) else (Adopt(stack[..|stack| - 1], [done]), roots)
  }

  /** What comes of the open nodes, the finished trees, and the entries still to come. */
  function Complete(stack: seq<Open>, roots: seq<Tree>, rest: seq<Entry>): seq<Tree>
    decreases |stack|
  {
    if stack == [] then roots + Forest(rest) else
      var k := Deeper(rest, stack[|stack| - 1].indent);
      var (stack', roots') := PopTo(Adopt(stack, Forest(rest[..k])), roots);
      Complete(stack', roots', rest[k..])
  }

  lemma PopKeeps(stack: seq<Open>, roots: seq<Tree>, rest: seq<Entry>)
    requires stack != [] && (rest != [] ==> rest[0].indent <= stack[|stack| - 1].indent)
    ensures var (stack', roots') := PopTo(stack, roots); Complete(stack', roots', rest) == Complete(stack, roots, rest)
  {
    var top := stack[|stack| - 1];
    assert Deeper(rest, top.indent) == 0;
    assert rest[..0] == [] && rest[0..] == rest;
    assert Adopt(stack, Forest([])) == stack by {
      assert top.children + [] == top.children;
    }
  }

  lemma AdoptTwice(stack: seq<Open>, a: seq<Tree>, b: seq<Tree>)
    requires stack != []
    ensures Adopt(Adopt(stack, a), b) == Adopt(stack, a + b)
  {
    var top := stack[|stack| - 1];
    assert Adopt(stack, a)[..|stack| - 1] == stack[..|stack| - 1];
    assert top.children + a + b == top.children + (a + b);
  }

  function Opened(e: Entry): Open {
    Open(e.indent, e.name, e.state, [])
  }

  /** Entries deeper than n, followed by ones that start no deeper. */
  predicate Splits(under: seq<Entry>, n: nat, rest: seq<Entry>) {
    (forall i :: 0 <= i < |under| ==> under[i].indent > n) && (rest != [] ==> rest[0].indent <= n)
  }

  lemma SplitsAt(under: seq<Entry>, n: nat, rest: seq<Entry>)
    requires Splits(under, n, rest)
    ensures Deeper(under + rest, n) == |under|
    ensures (under + rest)[..|under|] == under && (under + rest)[|under|..] == rest
  {
    DeeperIs(under + rest, n, |under|);
  }

  lemma CompleteAt(stack: seq<Open>, roots: seq<Tree>, under: seq<Entry>, rest: seq<Entry>)
    requires stack != [] && Splits(under, stack[|stack| - 1].indent, rest)
    ensures var (stack', roots') := PopTo(Adopt(stack, Forest(under)), roots);
            Complete(stack, roots, under + rest) == Complete(stack', roots', rest)
  {
    SplitsAt(under, stack[|stack| - 1].indent, rest);
  }

  function Grown(e: Entry, under: seq<Entry>): Tree {
    Node(e.name, e.state, Forest(under))
  }

  lemma PushedIsClosed(stack: seq<Open>, roots: seq<Tree>, e: Entry, under: seq<Entry>)
    ensures var pushed := stack + [Opened(e)];
            PopTo(Adopt(pushed, Forest(under)), roots)
            == if stack == [] then ([], roots + [Grown(e, under)]) else (Adopt(stack, [Grown(e, under)]), roots)
  {
    var pushed := stack + [Opened(e)];
    assert pushed[..|pushed| - 1] == stack;
    assert [] + Forest(under) == Forest(under);
    assert Adopt(pushed, Forest(under)) == stack + [Opened(e).(children := Forest(under))];
    assert Adopt(pushed, Forest(under))[..|stack|] == stack;
  }

  lemma Three<T>(a: seq<T>, b: seq<T>, c: seq<T>)
    ensures a + b + c == a + (b + c)
  {
  }

  lemma CompleteEmpty(roots: seq<Tree>, rest: seq<Entry>)
    ensures Complete([], roots, rest) == roots + Forest(rest)
  {
  }

  lemma PushOnEmpty(roots: seq<Tree>, e: Entry, under: seq<Entry>, rest: seq<Entry>)
    requires Splits(under, e.indent, rest)
    ensures Complete([] + [Opened(e)], roots, under + rest) == Complete([], roots, [e] + under + rest)
  {
    CompleteAt([] + [Opened(e)], roots, under, rest);
    PushedIsClosed([], roots, e, under);
    CompleteEmpty(roots + [Grown(e, under)], rest);
    CompleteEmpty(roots, [e] + under + rest);
    ForestCons(e, under, rest);
    Three(roots, [Grown(e, under)], Forest(rest));
  }

  lemma BesideSplits(e: Entry, under: seq<Entry>, beside: seq<Entry>, rest: seq<Entry>, m: nat)
    requires m < e.indent && Splits(under, e.indent, beside + rest) && Splits(beside, m, rest)
    ensures Splits([e] + under + beside, m, rest) && Splits(under, e.indent, beside)
  {
    assert beside != [] ==> (beside + rest)[0] == beside[0];
  }

  /** The pushed node, once complete, is its parent's next child. */
  lemma PushOnParent(stack: seq<Open>, roots: seq<Tree>, e: Entry, under: seq<Entry>, beside: seq<Entry>,
                     rest: seq<Entry>)
    requires stack != [] && stack[|stack| - 1].indent < e.indent
    requires Splits(under, e.indent, beside + rest) && Splits(beside, stack[|stack| - 1].indent, rest)
    ensures Complete(stack + [Opened(e)], roots, under + (beside + rest))
            == Complete(stack, roots, [e] + under + beside + rest)
  {
    var child := [Grown(e, under)];
    BesideSplits(e, under, beside, rest, stack[|stack| - 1].indent);
    CompleteAt(stack + [Opened(e)], roots, under, beside + rest);
    PushedIsClosed(stack, roots, e, under);
    CompleteAt(Adopt(stack, child), roots, beside, rest);
    AdoptTwice(stack, child, Forest(beside));
    ForestOfTwo(e, under, beside);
    CompleteAt(stack, roots, [e] + under + beside, rest);
  }

  lemma ForestOfTwo(e: Entry, under: seq<Entry>, beside: seq<Entry>)
    requires Splits(under, e.indent, beside)
    ensures Forest([e] + under + beside) == [Grown(e, under)] + Forest(beside)
  {
    ForestCons(e, under, beside);
  }

  /** The front of a list that is deeper than n, and the rest. */
  lemma Parted(rest: seq<Entry>, n: nat)
    ensures var k := Deeper(rest, n); rest == rest[..k] + rest[k..] && Splits(rest[..k], n, rest[k..])
  {
  }

  lemma PushAt(stack: seq<Open>, roots: seq<Tree>, e: Entry, under: seq<Entry>, after: seq<Entry>)
    requires stack != [] ==> stack[|stack| - 1].indent < e.indent
    requires Splits(under, e.indent, after)
    ensures Complete(stack + [Opened(e)], roots, under + after) == Complete(stack, roots, [e] + (under + after))
  {
    Three([e], under, after);
    if stack == [] {
      PushOnEmpty(roots, e, under, after);
    } else {
      var m := stack[|stack| - 1].indent;
      var beside, last := after[..Deeper(after, m)], after[Deeper(after, m)..];
      Parted(after, m);
      PushOnParent(stack, roots, e, under, beside, last);
      Three([e] + under, beside, last);
    }
  }

  lemma PushKeeps(stack: seq<Open>, roots: seq<Tree>, e: Entry, rest: seq<Entry>)
    requires stack != [] ==> stack[|stack| - 1].indent < e.indent
    ensures Complete(stack + [Opened(e)], roots, rest) == Complete(stack, roots, [e] + rest)
  {
    var s := Deeper(rest, e.indent);
    Parted(rest, e.indent);
    PushAt(stack, roots, e, rest[..s], rest[s..]);
  }

  // Sections ------------------------------------------------------------------------------------

  const SECTIONS: set<string> := {"logs", "cache", "spares", "special", "dedup"}
  const DATA := "data"

  /** The section a heading opens, when it is one. */
  function SectionOf(pool: string, heading: string): Option<string> {
    if heading == pool then Some(DATA) else if heading in SECTIONS then Some(heading) else None
  }

  /** A heading is the pool's name, or one of five words. */
  lemma WhichHeadings(pool: string, heading: string)
    ensures heading == pool ==> SectionOf(pool, heading) == Some("data")
    ensures heading != pool ==>
              (SectionOf(pool, heading) == Some(heading) <==>
                 heading == "logs" || heading == "cache" || heading == "spares" || heading == "special"
                 || heading == "dedup")
    ensures SectionOf(pool, heading).Some? ==> heading == pool || SectionOf(pool, heading) == Some(heading)
  {
  }

  function Trees(sections: map<string, seq<Tree>>, section: string): seq<Tree> {
    if section in sections then sections[section] else []
  }

  /** Each heading's forest is added to its section; a listing that starts without a
      heading, or has an unknown one, is refused. */
  function SectionsOf(pool: string, sections: map<string, seq<Tree>>, es: seq<Entry>): Option<map<string, seq<Tree>>>
    decreases |es|
  {
    if es == [] then Some(sections)
    else if es[0].indent > 0 || SectionOf(pool, es[0].name).None? then None
    else
      var section := SectionOf(pool, es[0].name).value;
      var k := Deeper(es[1..], 0);
      SectionsOf(pool, sections[section := Trees(sections, section) + Forest(es[1..1 + k])], es[1 + k..])
  }

  /** The same, in the middle of a section. */
  function Remaining(pool: string, sections: map<string, seq<Tree>>, section: Option<string>, stack: seq<Open>,
                     roots: seq<Tree>,
                     rest: seq<Entry>): Option<map<string, seq<Tree>>>
  {
    if section.None? then SectionsOf(pool, sections, rest)
    else
      var k := Deeper(rest, 0);
      SectionsOf(pool, sections[section.value := Complete(stack, roots, rest[..k])], rest[k..])
  }

  lemma SectionAt(pool: string, sections: map<string, seq<Tree>>, section: string, stack: seq<Open>, roots: seq<Tree>,
                  under: seq<Entry>, rest: seq<Entry>)
    requires Splits(under, 0, rest)
    ensures Remaining(pool, sections, Some(section), stack, roots, under + rest)
            == SectionsOf(pool, sections[section := Complete(stack, roots, under)], rest)
  {
    SplitsAt(under, 0, rest);
  }

  lemma AtHeading(pool: string, sections: map<string, seq<Tree>>, e: Entry, under: seq<Entry>, rest: seq<Entry>)
    requires e.indent == 0 && SectionOf(pool, e.name).Some? && Splits(under, 0, rest)
    ensures var section := SectionOf(pool, e.name).value;
            SectionsOf(pool, sections, [e] + (under + rest))
            == SectionsOf(pool, sections[section := Trees(sections, section) + Forest(under)], rest)
  {
    var es := [e] + (under + rest);
    SplitsAt(under, 0, rest);
    assert es[1..] == under + rest;
    assert es[1..1 + |under|] == under && es[1 + |under|..] == rest;
  }

  lemma OpenSection(pool: string, sections: map<string, seq<Tree>>, e: Entry, rest: seq<Entry>)
    requires e.indent == 0 && SectionOf(pool, e.name).Some?
    ensures SectionsOf(pool, sections, [e] + rest)
            == Remaining(pool, sections, SectionOf(pool, e.name), [], Trees(sections, SectionOf(pool, e.name).value),
                rest)
  {
    var section := SectionOf(pool, e.name).value;
    var k := Deeper(rest, 0);
    Parted(rest, 0);
    AtHeading(pool, sections, e, rest[..k], rest[k..]);
    SectionAt(pool, sections, section, [], Trees(sections, section), rest[..k], rest[k..]);
  }

  lemma CloseSection(pool: string, sections: map<string, seq<Tree>>, section: string, stack: seq<Open>,
                     roots: seq<Tree>,
                     rest: seq<Entry>)
    requires rest == [] || rest[0].indent == 0
    ensures Remaining(pool, sections, Some(section), stack, roots, rest)
            == SectionsOf(pool, sections[section := Complete(stack, roots, [])], rest)
  {
    SectionAt(pool, sections, section, stack, roots, [], rest);
    assert [] + rest == rest;
  }

  lemma InSectionAt(pool: string, sections: map<string, seq<Tree>>, section: string, stack: seq<Open>, roots: seq<Tree>,
                    stack': seq<Open>, roots': seq<Tree>, e: Entry, under: seq<Entry>, after: seq<Entry>)
    requires e.indent > 0 && Splits(under, 0, after)
    requires Complete(stack', roots', under) == Complete(stack, roots, [e] + under)
    ensures Remaining(pool, sections, Some(section), stack', roots', under + after)
            == Remaining(pool, sections, Some(section), stack, roots, [e] + (under + after))
  {
    Three([e], under, after);
    SectionAt(pool, sections, section, stack', roots', under, after);
    SectionAt(pool, sections, section, stack, roots, [e] + under, after);
  }

  lemma InSection(pool: string, sections: map<string, seq<Tree>>, section: string, stack: seq<Open>, roots: seq<Tree>,
                  stack': seq<Open>, roots': seq<Tree>, e: Entry, rest: seq<Entry>)
    requires e.indent > 0
    requires var under := rest[..Deeper(rest, 0)];
             Complete(stack', roots', under) == Complete(stack, roots, [e] + under)
    ensures Remaining(pool, sections, Some(section), stack', roots', rest)
            == Remaining(pool, sections, Some(section), stack, roots, [e] + rest)
  {
    Parted(rest, 0);
    InSectionAt(pool, sections, section, stack, roots, stack', roots', e, rest[..Deeper(rest, 0)],
        rest[Deeper(rest, 0)..]);
  }

  // Lines of text ----------------------------------------------------------------------------------

  predicate IsSpace(c: char) {
    c == ' ' || c == '\t'
  }

  function WordLength(s: string): (n: nat)
    ensures n <= |s| && (forall i :: 0 <= i < n ==> !IsSpace(s[i])) && (n < |s| ==> IsSpace(s[n]))
  {
    if s == "" || IsSpace(s[0]) then 0 else 1 + WordLength(s[1..])
  }

  function Tokens(s: string): (r: seq<string>)
    ensures forall t :: t in r ==> Word(t)
    decreases |s|
  {
    if s == "" then []
    else if IsSpace(s[0]) then Tokens(s[1..])
    else
      var n := WordLength(s);
      assert n > 0;
      [s[..n]] + Tokens(s[n..])
  }

  function LeadingSpaces(s: string): nat {
    if s == "" || s[0] != ' ' then 0 else 1 + LeadingSpaces(s[1..])
  }

  predicate Word(s: string) {
    s != "" && forall i :: 0 <= i < |s| ==> !IsSpace(s[i])
  }

  /** One tab is taken off the front; blank lines and the column titles say nothing. */
  function Lex(line: string): (e: Option<Entry>)
    ensures e.Some? ==> Word(e.value.name)
  {
    var body := if line != "" && line[0] == '\t' then line[1..] else line;
    var tokens := Tokens(body);
    if tokens == [] || (|tokens| > 1 && tokens[0] == "NAME" && tokens[1] == "STATE") then None
    else Some(Entry(LeadingSpaces(body), tokens[0], if |tokens| > 1 then Some(tokens[1]) else None))
  }

  function LexAll(lines: seq<string>): seq<Entry> {
    if lines == [] then [] else
      var e := Lex(lines[0]);
      (if e.Some? then [e.value] else []) + LexAll(lines[1..])
  }

  /** A printed entry; `tail` is the counts and notes after the state. */
  function Print(e: Entry, pad: nat, tail: string): string {
    "\t" + (T.Spaces(e.indent) + (e.name + if e.state.Some? then T.Spaces(pad + 1) + (e.state.value + tail) else ""))
  }

  lemma {:induction false} TokensAfterSpaces(n: nat, s: string)
    ensures Tokens(T.Spaces(n) + s) == Tokens(s)
  {
    if n == 0 {
      assert T.Spaces(0) + s == s;
    } else {
      TokensAfterSpaces(n - 1, s);
      assert (T.Spaces(n) + s)[1..] == T.Spaces(n - 1) + s;
    }
  }

  lemma {:induction false} WordLengthIs(w: string, s: string)
    requires Word(w) && (s == "" || IsSpace(s[0]))
    ensures WordLength(w + s) == |w|
  {
    assert (w + s)[1..] == w[1..] + s;
    if |w| > 1 {
      WordLengthIs(w[1..], s);
    } else {
      assert w[1..] + s == s;
    }
  }

  lemma TokensAfterWord(w: string, s: string)
    requires Word(w) && (s == "" || IsSpace(s[0]))
    ensures Tokens(w + s) == [w] + Tokens(s)
  {
    WordLengthIs(w, s);
    assert (w + s)[..|w|] == w && (w + s)[|w|..] == s;
    assert !IsSpace((w + s)[0]);
  }

  lemma {:induction false} LeadingSpacesIs(n: nat, s: string)
    requires s != "" && s[0] != ' '
    ensures LeadingSpaces(T.Spaces(n) + s) == n
  {
    if n == 0 {
      assert T.Spaces(0) + s == s;
    } else {
      LeadingSpacesIs(n - 1, s);
      assert (T.Spaces(n) + s)[1..] == T.Spaces(n - 1) + s;
    }
  }

  predicate Printable(e: Entry) {
    Word(e.name) && (e.state.Some? ==> Word(e.state.value) && !(e.name == "NAME" && e.state.value == "STATE"))
  }

  lemma TokensOfName(indent: nat, name: string, after: string)
    requires Word(name) && (after == "" || IsSpace(after[0]))
    ensures Tokens(T.Spaces(indent) + (name + after)) == [name] + Tokens(after)
    ensures LeadingSpaces(T.Spaces(indent) + (name + after)) == indent
  {
    TokensAfterSpaces(indent, name + after);
    TokensAfterWord(name, after);
    LeadingSpacesIs(indent, name + after);
  }

  lemma LexBody(body: string, indent: nat, name: string, state: Option<string>, more: seq<string>)
    requires LeadingSpaces(body) == indent && Printable(Entry(indent, name, state))
    requires Tokens(body) == if state.Some? then [name, state.value] + more else [name]
    ensures Lex("\t" + body) == Some(Entry(indent, name, state))
  {
    assert ("\t" + body)[1..] == body;
  }

  /** A printed entry is read back, with whatever follows its state. */
  lemma LexPrint(e: Entry, pad: nat, tail: string)
    requires Printable(e) && (tail == "" || IsSpace(tail[0]))
    ensures Lex(Print(e, pad, tail)) == Some(e)
  {
    if e.state.Some? {
      var after := T.Spaces(pad + 1) + (e.state.value + tail);
      TokensOfName(pad + 1, e.state.value, tail);
      TokensOfName(e.indent, e.name, after);
      assert [e.name] + ([e.state.value] + Tokens(tail)) == [e.name, e.state.value] + Tokens(tail);
      LexBody(T.Spaces(e.indent) + (e.name + after), e.indent, e.name, e.state, Tokens(tail));
    } else {
      TokensOfName(e.indent, e.name, "");
      assert [e.name] + Tokens("") == [e.name];
      LexBody(T.Spaces(e.indent) + (e.name + ""), e.indent, e.name, e.state, []);
    }
  }

  // The parser of host_storage.py --------------------------------------------------------------------

  /** Where the loop is: the sections so far, and the one that is being read. */
  datatype Progress = Progress(sections: map<string, seq<Tree>>, section: Option<string>, stack: seq<Open>,
                               roots: seq<Tree>)

  function Result(pool: string, p: Progress, rest: seq<Entry>): Option<map<string, seq<Tree>>> {
    Remaining(pool, p.sections, p.section, p.stack, p.roots, rest)
  }

  /** Closes every open node. */
  method CloseAll(stack: seq<Open>, roots: seq<Tree>) returns (trees: seq<Tree>)
    ensures trees == Complete(stack, roots, [])
  {
    var open := stack;
    trees := roots;
    while open != []
      invariant Complete(open, trees, []) == Complete(stack, roots, [])
      decreases |open|
    {
      PopKeeps(open, trees, []);
      var (open', trees') := PopTo(open, trees);
      open, trees := open', trees';
    }
    assert trees + Forest([]) == trees;
  }

  /** A heading closes the section before it and opens its own. */
  method Heading(pool: string, p: Progress, e: Entry) returns (next: Progress, ok: bool)
    requires e.indent == 0
    ensures ok <==> SectionOf(pool, e.name).Some?
    ensures ok ==> next.section.Some? && forall rest :: Result(pool, next, rest) == Result(pool, p, [e] + rest)
    ensures !ok ==> forall rest :: Result(pool, p, [e] + rest).None?
  {
    next := p;
    if p.section.Some? {
      var trees := CloseAll(p.stack, p.roots);
      next := Progress(p.sections[p.section.value := trees], None, [], []);
      forall rest ensures Result(pool, next, [e] + rest) == Result(pool, p, [e] + rest) {
        CloseSection(pool, p.sections, p.section.value, p.stack, p.roots, [e] + rest);
      }
    }
    var section := SectionOf(pool, e.name);
    if section.None? {
      return next, false;
    }
    forall rest ensures SectionsOf(pool, next.sections, [e] + rest)
                        == Remaining(pool, next.sections, section, [], Trees(next.sections, section.value), rest) {
      OpenSection(pool, next.sections, e, rest);
    }
    next := Progress(next.sections, section, [], Trees(next.sections, section.value));
    ok := true;
  }

  /** Nodes that are not above the entry are closed, and it is opened. */
  method Device(pool: string, p: Progress, e: Entry) returns (next: Progress)
    requires p.section.Some? && e.indent > 0
    ensures next.section == p.section && forall rest :: Result(pool, next, rest) == Result(pool, p, [e] + rest)
  {
    var stack, roots := p.stack, p.roots;
    while stack != [] && stack[|stack| - 1].indent >= e.indent
      invariant forall rest :: Complete(stack, roots, [e] + rest) == Complete(p.stack, p.roots, [e] + rest)
      decreases |stack|
    {
      forall rest
        ensures Complete(PopTo(stack, roots).0, PopTo(stack, roots).1, [e] + rest) == Complete(stack, roots, [e] + rest)
      {
        PopKeeps(stack, roots, [e] + rest);
      }
      var (stack', roots') := PopTo(stack, roots);
      stack, roots := stack', roots';
    }
    forall rest ensures Complete(stack + [Opened(e)], roots, rest) == Complete(stack, roots, [e] + rest) {
      PushKeeps(stack, roots, e, rest);
    }
    next := p.(stack := stack + [Opened(e)], roots := roots);
    forall rest ensures Result(pool, next, rest) == Result(pool, p, [e] + rest) {
      InSection(pool, p.sections, p.section.value, p.stack, p.roots, next.stack, next.roots, e, rest);
    }
  }

  /** The trees of every section of the listing, or a refusal. */
  method ParseConfig(pool: string, lines: seq<string>) returns (sections: Option<map<string, seq<Tree>>>)
    ensures sections == SectionsOf(pool, map[DATA := []], LexAll(lines))
  {
    var p := Progress(map[DATA := []], None, [], []);
    ghost var all := LexAll(lines);
    var i := 0;
    while i < |lines|
      invariant i <= |lines| && Result(pool, p, LexAll(lines[i..])) == SectionsOf(pool, map[DATA := []], all)
    {
      var e := Lex(lines[i]);
      assert lines[i..][1..] == lines[i + 1..];
      if e.Some? {
        if e.value.indent == 0 {
          var ok;
          p, ok := Heading(pool, p, e.value);
          if !ok {
            return None;
          }
        } else if p.section.None? {
          return None;
        } else {
          p := Device(pool, p, e.value);
        }
      } else {
        assert [] + LexAll(lines[i + 1..]) == LexAll(lines[i + 1..]);
      }
      i := i + 1;
    }
    assert LexAll(lines[i..]) == [];
    if p.section.Some? {
      var trees := CloseAll(p.stack, p.roots);
      CloseSection(pool, p.sections, p.section.value, p.stack, p.roots, []);
      return Some(p.sections[p.section.value := trees]);
    }
    return Some(p.sections);
  }
}
