/** The tunnel's route table (scripts/host_runtime/tunnel_config.py), computed from
    the registry's production guests and the fixed slots.
 */
module Tunnel {
  import opened Common
  import opened RegistryTypes
  import opened RegistryRules
  import P = RegistryPlans
  import opened RegistrySafety
  import opened RegistryRuns
  import W = RegistryWrites
  import T = Text

  /** One production guest as the registry lists it for the tunnel. */
  datatype Row = Row(name: Name, octet: int, primary: string, aliases: seq<string>)
  datatype Route = Route(fqdn: string, resource: Name, octet: int)

  // Names -----------------------------------------------------------------------------

  lemma DigitsFirst(a: string, b: string, c: string, d: string)
    requires T.Digits(a) && T.Digits(c) && a + "p" + b == c + "p" + d
    ensures a == c && b == d
  {
    var s, t := a + "p" + b, c + "p" + d;
    assert 'p' !in T.DIGITS;
    assert s[|a|] == 'p' && t[|c|] == 'p';
    assert forall i :: 0 <= i < |a| ==> s[i] == a[i];
    assert forall i :: 0 <= i < |c| ==> t[i] == c[i];
    assert |a| == |c|;
    assert s[..|a|] == a && t[..|c|] == c;
    assert s[|a| + 1..] == b && t[|c| + 1..] == d;
  }

  /** The text of a staging slot's name says which slot it is. */
  lemma StageTextIsInjective(a: Name, b: Name)
    requires a.Stage? && b.Stage? && P.NameText(a) == P.NameText(b)
    ensures a == b
  {
    var rod := "rod";
    var x, y := T.Decimal(a.k) + "p" + (rod + T.Decimal(a.n)), T.Decimal(b.k) + "p" + (rod + T.Decimal(b.n));
    StageText(a);
    StageText(b);
    assert P.NameText(a)[5..] == x && P.NameText(b)[5..] == y;
    DigitsFirst(T.Decimal(a.k), rod + T.Decimal(a.n), T.Decimal(b.k), rod + T.Decimal(b.n));
    assert (rod + T.Decimal(a.n))[3..] == T.Decimal(a.n) && (rod + T.Decimal(b.n))[3..] == T.Decimal(b.n);
    T.DecimalReadsBack(a.k);
    T.DecimalReadsBack(b.k);
    T.DecimalReadsBack(a.n);
    T.DecimalReadsBack(b.n);
  }

  lemma StageText(a: Name)
    requires a.Stage?
    ensures P.NameText(a) == "stage" + (T.Decimal(a.k) + "p" + ("rod" + T.Decimal(a.n)))
    ensures '.' !in P.NameText(a)
  {
    assert "prod" == "p" + "rod";
    assert '.' !in T.DIGITS;
    assert '.' !in "stage" && '.' !in "prod";
  }

  lemma BeforeTheDot(a: string, b: string, c: string, d: string)
    requires '.' !in a && '.' !in c && a + "." + b == c + "." + d
    ensures a == c && b == d
  {
    var s, t := a + "." + b, c + "." + d;
    assert s[|a|] == '.' && t[|c|] == '.';
    assert forall i :: 0 <= i < |a| ==> s[i] == a[i];
    assert forall i :: 0 <= i < |c| ==> t[i] == c[i];
    assert |a| == |c|;
    assert s[..|a|] == a && t[..|c|] == c;
    assert s[|a| + 1..] == b && t[|c| + 1..] == d;
  }

  function StageHost(k: nat, row: Row): string {
    P.StagingDomain(Stage(k, row.name.n), row.primary)
  }

  /** No two staging slots have the same host name. */
  lemma StageHostsDiffer(j: nat, a: Row, k: nat, b: Row)
    requires StageHost(j, a) == StageHost(k, b)
    ensures j == k && a.name.n == b.name.n
  {
    var x, y := Stage(j, a.name.n), Stage(k, b.name.n);
    StageText(x);
    StageText(y);
    BeforeTheDot(P.NameText(x), a.primary, P.NameText(y), b.primary);
    StageTextIsInjective(x, y);
  }

  // The rows, checked and sorted ---------------------------------------------------------

  predicate RowOk(row: Row, slots: Slots) {
    row.name.Prod? && 1 <= row.name.n <= slots.maxProduction && row.octet == slots.start + 10 * (row.name.n - 1)
  }

  ghost predicate RowsOk(rows: seq<Row>, slots: Slots) {
    && (forall i :: 0 <= i < |rows| ==> RowOk(rows[i], slots))
    && (forall i, j :: 0 <= i < j < |rows| ==> rows[i].name != rows[j].name)
  }

  predicate Ascending(rows: seq<Row>) {
    forall i, j :: 0 <= i < j < |rows| ==> rows[i].name.n < rows[j].name.n
  }

  /** The rows with one more in its place. */
  function Insert(rows: seq<Row>, row: Row): (r: seq<Row>)
    ensures multiset(r) == multiset(rows) + multiset{row} && |r| == |rows| + 1
  {
    if rows == [] || row.name.n < rows[0].name.n then [row] + rows
    else
      assert rows == [rows[0]] + rows[1..];
      [rows[0]] + Insert(rows[1..], row)
  }

  lemma {:induction false} InsertAdds(rows: seq<Row>, row: Row, x: Row)
    requires x in Insert(rows, row)
    ensures x == row || x in rows
  {
    if rows != [] && row.name.n >= rows[0].name.n && x != rows[0] {
      InsertAdds(rows[1..], row, x);
    }
  }

  lemma AscendingCons(first: Row, rest: seq<Row>)
    requires Ascending(rest) && forall x :: x in rest ==> first.name.n < x.name.n
    ensures Ascending([first] + rest)
  {
  }

  lemma {:induction false} InsertAscends(rows: seq<Row>, row: Row)
    requires Ascending(rows) && forall i :: 0 <= i < |rows| ==> rows[i].name.n != row.name.n
    ensures Ascending(Insert(rows, row))
  {
    if rows == [] || row.name.n < rows[0].name.n {
      AscendingCons(row, rows);
    } else {
      InsertAscends(rows[1..], row);
      forall x | x in Insert(rows[1..], row) ensures rows[0].name.n < x.name.n {
        InsertAdds(rows[1..], row, x);
      }
      AscendingCons(rows[0], Insert(rows[1..], row));
    }
  }

  /** Each row must be in its slot and no number may come twice; the rows come back in
      the order of their numbers. */
  method ProductionEntries(rows: seq<Row>, slots: Slots) returns (entries: Option<seq<Row>>)
    ensures entries.Some? <==>
            && (forall i :: 0 <= i < |rows| ==>
                  rows[i].name.Prod? && 1 <= rows[i].name.n <= slots.maxProduction
                  && rows[i].octet == slots.start + 10 * (rows[i].name.n - 1))
            && (forall i, j :: 0 <= i < j < |rows| ==> rows[i].name != rows[j].name)
    ensures entries.Some? ==> multiset(entries.value) == multiset(rows) && Ascending(entries.value)
  {
    var sorted: seq<Row> := [];
    var seen: set<nat> := {};
    var i := 0;
    while i < |rows|
      invariant i <= |rows| && RowsOk(rows[..i], slots)
      invariant forall n :: n in seen <==> exists j :: 0 <= j < i && rows[j].name.n == n
      invariant multiset(sorted) == multiset(rows[..i]) && Ascending(sorted)
    {
      var row := rows[i];
      assert rows[..i + 1] == rows[..i] + [row];
      if !row.name.Prod? || row.name.n in seen || !RowOk(row, slots) {
        return None;
      }
      seen := seen + {row.name.n};
      forall j | 0 <= j < |sorted| ensures sorted[j].name.n != row.name.n {
        assert sorted[j] in multiset(sorted);
        assert sorted[j] in rows[..i];
      }
      InsertAscends(sorted, row);
      sorted := Insert(sorted, row);
      i := i + 1;
    }
    assert rows[..i] == rows;
    return Some(sorted);
  }

  // Routes ------------------------------------------------------------------------------------

  function RowDomains(row: Row): seq<string> {
    [row.primary] + row.aliases
  }

  /** The host names of a row's staging slots, whether a guest is in them or not. */
  function StageHosts(row: Row, n: nat): (r: seq<string>)
    ensures |r| == n
  {
    seq(n, i requires 0 <= i < n => StageHost(i + 1, row))
  }

  function StageRoutes(row: Row, slots: Slots, hosts: seq<string>): (r: seq<Route>)
    ensures |r| == |hosts|
  {
    seq(|hosts|, i requires 0 <= i < |hosts| =>
      Route(hosts[i], Stage(i + 1, row.name.n), slots.start + 10 * (row.name.n - 1) + i + 1))
  }

  function OwnRoutes(row: Row, slots: Slots, domains: seq<string>): (r: seq<Route>)
    ensures |r| == |domains|
  {
    seq(|domains|, i requires 0 <= i < |domains| => Route(domains[i], row.name, slots.start + 10 * (row.name.n - 1)))
  }

  function RowRoutes(row: Row, slots: Slots): seq<Route>
    requires slots.maxStaging >= 0
  {
    OwnRoutes(row, slots, RowDomains(row)) + StageRoutes(row, slots, StageHosts(row, slots.maxStaging))
  }

  function AllRoutes(rows: seq<Row>, slots: Slots): seq<Route>
    requires slots.maxStaging >= 0
  {
    if rows == [] then [] else AllRoutes(rows[..|rows| - 1], slots) + RowRoutes(rows[|rows| - 1], slots)
  }

  /** A domain of the guest leads to its address, and the host name of each of its
      staging slots to the slot's. */
  predicate IsRouteOf(r: Route, row: Row, slots: Slots) {
    || (r.resource == row.name && r.octet == slots.start + 10 * (row.name.n - 1)
        && (r.fqdn == row.primary || r.fqdn in row.aliases))
    || (r.resource.Stage? && r.resource.n == row.name.n && 1 <= r.resource.k <= slots.maxStaging
        && r.octet == slots.start + 10 * (row.name.n - 1) + r.resource.k
        && r.fqdn == "stage" + T.Decimal(r.resource.k) + "prod" + T.Decimal(row.name.n) + "." + row.primary)
  }

  lemma StageRoutesAre(row: Row, slots: Slots, r: Route)
    requires slots.maxStaging >= 0
    ensures r in StageRoutes(row, slots, StageHosts(row, slots.maxStaging)) <==>
            && r.resource.Stage? && r.resource.n == row.name.n && 1 <= r.resource.k <= slots.maxStaging
            && r.octet == slots.start + 10 * (row.name.n - 1) + r.resource.k
            && r.fqdn == StageHost(r.resource.k, row)
  {
    var hosts := StageHosts(row, slots.maxStaging);
    var stages := StageRoutes(row, slots, hosts);
    if r in stages {
      var i :| 0 <= i < |stages| && stages[i] == r;
      assert r.fqdn == hosts[i] == StageHost(i + 1, row);
    }
    if r.resource.Stage? && 1 <= r.resource.k <= slots.maxStaging {
      assert stages[r.resource.k - 1].fqdn == hosts[r.resource.k - 1] == StageHost(r.resource.k, row);
      assert stages[r.resource.k - 1] in stages;
    }
  }

  lemma RowRoutesAre(row: Row, slots: Slots, r: Route)
    requires slots.maxStaging >= 0 && row.name.Prod?
    ensures r in RowRoutes(row, slots) <==> IsRouteOf(r, row, slots)
  {
    var domains := RowDomains(row);
    var own := OwnRoutes(row, slots, domains);
    StageRoutesAre(row, slots, r);
    assert forall d :: d in domains <==> d == row.primary || d in row.aliases;
    if r in own {
      var i :| 0 <= i < |own| && own[i] == r;
      assert r.fqdn == domains[i];
    }
    if r.resource == row.name && r.fqdn in domains && r.octet == slots.start + 10 * (row.name.n - 1) {
      var i :| 0 <= i < |domains| && domains[i] == r.fqdn;
      assert own[i] == r;
    }
  }

  /** The routes of some rows are exactly those of each row. */
  lemma {:induction false} WhichRoutes(rows: seq<Row>, slots: Slots, r: Route)
    requires slots.maxStaging >= 0 && forall i :: 0 <= i < |rows| ==> rows[i].name.Prod?
    ensures r in AllRoutes(rows, slots) <==> exists i :: 0 <= i < |rows| && IsRouteOf(r, rows[i], slots)
  {
    if rows != [] {
      var last := |rows| - 1;
      WhichRoutes(rows[..last], slots, r);
      RowRoutesAre(rows[last], slots, r);
      if r in AllRoutes(rows[..last], slots) {
        var i :| 0 <= i < last && IsRouteOf(r, rows[..last][i], slots);
        assert rows[i] == rows[..last][i];
      }
      if i :| 0 <= i < |rows| && IsRouteOf(r, rows[i], slots) {
        assert i < last ==> rows[..last][i] == rows[i];
      }
    }
  }

  predicate OneOwnerEach(routes: seq<Route>) {
    forall i, j :: 0 <= i < j < |routes| ==> routes[i].fqdn != routes[j].fqdn
  }

  function Hosts(routes: seq<Route>): set<string> {
    set r | r in routes :: r.fqdn
  }

  /** The routes of one row are added unless a host name is taken. */
  method AddRoutes(before: seq<Route>, owners: map<string, Name>, more: seq<Route>)
    returns (result: seq<Route>, owned: map<string, Name>, ok: bool)
    requires OneOwnerEach(before) && owners.Keys == Hosts(before)
    ensures ok <==> OneOwnerEach(before + more)
    ensures ok ==> result == before + more && owned.Keys == Hosts(result)
  {
    result, owned := before, owners;
    var i := 0;
    while i < |more|
      invariant i <= |more| && result == before + more[..i]
      invariant OneOwnerEach(result) && owned.Keys == Hosts(result)
    {
      var r := more[i];
      assert before + more[..i + 1] == result + [r];
      if r.fqdn in owned {
        TakenTwice(before, more, i);
        return result, owned, false;
      }
      forall j | 0 <= j < |result| ensures result[j].fqdn != r.fqdn {
        assert result[j] in result;
      }
      HostsAdd(result, r);
      result, owned := result + [r], owned[r.fqdn := r.resource];
      i := i + 1;
    }
    assert more[..i] == more;
    return result, owned, true;
  }

  lemma HostsAdd(routes: seq<Route>, r: Route)
    ensures Hosts(routes + [r]) == Hosts(routes) + {r.fqdn}
  {
    forall h | h in Hosts(routes) + {r.fqdn} ensures h in Hosts(routes + [r]) {
      if h in Hosts(routes) {
        var x :| x in routes && x.fqdn == h;
        assert x in routes + [r];
      } else {
        assert r in routes + [r];
      }
    }
  }

  lemma TakenTwice(before: seq<Route>, more: seq<Route>, i: nat)
    requires i < |more| && more[i].fqdn in Hosts(before + more[..i])
    ensures !OneOwnerEach(before + more)
  {
    var all := before + more;
    var x :| x in before + more[..i] && x.fqdn == more[i].fqdn;
    var j :| 0 <= j < |before + more[..i]| && (before + more[..i])[j] == x;
    assert all[j] == x && all[|before| + i] == more[i];
  }

  /** Every host name that the tunnel serves, unless one would have two owners. */
  method Routes(entries: seq<Row>, slots: Slots) returns (routes: Option<seq<Route>>)
    requires slots.maxStaging >= 0
    ensures routes == if OneOwnerEach(AllRoutes(entries, slots)) then Some(AllRoutes(entries, slots)) else None
  {
    var result: seq<Route>, owners: map<string, Name> := [], map[];
    var i := 0;
    while i < |entries|
      invariant i <= |entries| && result == AllRoutes(entries[..i], slots)
      invariant OneOwnerEach(result) && owners.Keys == Hosts(result)
    {
      var row := entries[i];
      var names := RouteNames(row, slots);
      var ok;
      assert entries[..i + 1][..i] == entries[..i];
      result, owners, ok := AddRoutes(result, owners, names);
      if !ok {
        TooManyOwners(entries, slots, i + 1);
        return None;
      }
      i := i + 1;
    }
    assert entries[..i] == entries;
    return Some(result);
  }

  method RouteNames(row: Row, slots: Slots) returns (names: seq<Route>)
    requires slots.maxStaging >= 0
    ensures names == RowRoutes(row, slots)
  {
    var own := DomainNames(row, slots);
    var stages := StageNames(row, slots);
    return own + stages;
  }

  method DomainNames(row: Row, slots: Slots) returns (names: seq<Route>)
    ensures names == OwnRoutes(row, slots, RowDomains(row))
  {
    var domains := RowDomains(row);
    names := [];
    var i := 0;
    while i < |domains|
      invariant i <= |domains| && names == OwnRoutes(row, slots, domains)[..i]
    {
      names := names + [Route(domains[i], row.name, slots.start + 10 * (row.name.n - 1))];
      i := i + 1;
    }
  }

  method StageNames(row: Row, slots: Slots) returns (names: seq<Route>)
    requires slots.maxStaging >= 0
    ensures names == StageRoutes(row, slots, StageHosts(row, slots.maxStaging))
  {
    ghost var all := StageRoutes(row, slots, StageHosts(row, slots.maxStaging));
    names := [];
    var stage := 1;
    while stage <= slots.maxStaging
      invariant 1 <= stage <= slots.maxStaging + 1 && names == all[..stage - 1]
    {
      var host := StageHost(stage, row);
      assert StageHosts(row, slots.maxStaging)[stage - 1] == host;
      names := names + [Route(host, Stage(stage, row.name.n), slots.start + 10 * (row.name.n - 1) + stage)];
      stage := stage + 1;
    }
  }

  lemma {:induction false} TooManyOwners(entries: seq<Row>, slots: Slots, n: nat)
    requires slots.maxStaging >= 0 && n <= |entries| && !OneOwnerEach(AllRoutes(entries[..n], slots))
    ensures !OneOwnerEach(AllRoutes(entries, slots))
  {
    if n == |entries| {
      assert entries[..n] == entries;
    } else {
      var init := entries[..|entries| - 1];
      assert init[..n] == entries[..n];
      TooManyOwners(init, slots, n);
      var a, b := AllRoutes(init, slots), RowRoutes(entries[|entries| - 1], slots);
      var i, j :| 0 <= i < j < |a| && a[i].fqdn == a[j].fqdn;
      assert (a + b)[i] == a[i] && (a + b)[j] == a[j];
    }
  }

  // When host names clash -------------------------------------------------------------------

  /** The names that one production guest claims: its own, and its staging slots'. */
  datatype Listed = Listed(own: seq<string>, stages: seq<string>)

  function Claimed(claims: seq<Listed>): seq<string> {
    if claims == [] then []
    else Claimed(claims[..|claims| - 1]) + (claims[|claims| - 1].own + claims[|claims| - 1].stages)
  }

  predicate Disjoint(a: seq<string>, b: seq<string>) {
    forall x :: x in a ==> x !in b
  }

  lemma DistinctJoin(a: seq<string>, b: seq<string>)
    ensures Distinct(a + b) <==> Distinct(a) && Distinct(b) && Disjoint(a, b)
  {
    var c := a + b;
    if Distinct(c) {
      assert forall i :: 0 <= i < |a| ==> c[i] == a[i];
      forall i, j | 0 <= i < j < |b| ensures b[i] != b[j] {
        assert c[|a| + i] == b[i] && c[|a| + j] == b[j];
      }
      forall x | x in a ensures x !in b {
        var i :| 0 <= i < |a| && a[i] == x;
        forall j | 0 <= j < |b| ensures b[j] != x {
          assert c[i] == a[i] && c[|a| + j] == b[j];
        }
      }
    }
    if Distinct(a) && Distinct(b) && Disjoint(a, b) {
      forall i, j | 0 <= i < j < |c| ensures c[i] != c[j] {
        assert c[i] == if i < |a| then a[i] else b[i - |a|];
        assert c[j] == if j < |a| then a[j] else b[j - |a|];
        assert i < |a| <= j ==> a[i] in a && b[j - |a|] in b;
      }
    }
  }

  lemma {:induction false} ClaimedMeans(claims: seq<Listed>, h: string)
    ensures h in Claimed(claims) <==> exists i :: 0 <= i < |claims| && (h in claims[i].own || h in claims[i].stages)
  {
    if claims != [] {
      var init := claims[..|claims| - 1];
      ClaimedMeans(init, h);
      if i :| 0 <= i < |init| && (h in init[i].own || h in init[i].stages) {
        assert claims[i] == init[i];
      }
      if i :| 0 <= i < |claims| && (h in claims[i].own || h in claims[i].stages) {
        assert i < |init| ==> init[i] == claims[i];
      }
    }
  }

  /** Own names apart from own names, and staging names from staging names. */
  ghost predicate Apart(claims: seq<Listed>) {
    && (forall i :: 0 <= i < |claims| ==> Distinct(claims[i].own) && Distinct(claims[i].stages))
    && (forall i, j :: 0 <= i < j < |claims| ==>
          Disjoint(claims[i].own, claims[j].own) && Disjoint(claims[i].stages, claims[j].stages))
  }

  /** No own name is a staging name. */
  ghost predicate Unmixed(claims: seq<Listed>) {
    forall i, j :: 0 <= i < |claims| && 0 <= j < |claims| ==> Disjoint(claims[i].own, claims[j].stages)
  }

  lemma UnmixedInit(claims: seq<Listed>)
    requires claims != []
    ensures var init, last := claims[..|claims| - 1], claims[|claims| - 1];
            Unmixed(claims) <==>
            && Unmixed(init) && Disjoint(last.own, last.stages)
            && forall i :: 0 <= i < |init| ==> Disjoint(init[i].own, last.stages) && Disjoint(last.own, init[i].stages)
  {
    var init, last := claims[..|claims| - 1], claims[|claims| - 1];
    assert forall i :: 0 <= i < |init| ==> claims[i] == init[i];
  }

  lemma MixedWithLast(claims: seq<Listed>)
    requires claims != [] && Apart(claims)
    ensures var init, last := claims[..|claims| - 1], claims[|claims| - 1];
            Disjoint(Claimed(init), last.own + last.stages) <==>
            forall i :: 0 <= i < |init| ==> Disjoint(init[i].own, last.stages) && Disjoint(last.own, init[i].stages)
  {
    var init, last := claims[..|claims| - 1], claims[|claims| - 1];
    if Disjoint(Claimed(init), last.own + last.stages) {
      forall i, h | 0 <= i < |init| && (h in init[i].own || h in init[i].stages)
        ensures h !in last.own && h !in last.stages
      {
        ClaimedMeans(init, h);
      }
    }
    if forall i :: 0 <= i < |init| ==> Disjoint(init[i].own, last.stages) && Disjoint(last.own, init[i].stages) {
      forall h | h in Claimed(init) ensures h !in last.own + last.stages {
        ClaimedMeans(init, h);
        var i :| 0 <= i < |init| && (h in init[i].own || h in init[i].stages);
        assert claims[i] == init[i];
        assert Disjoint(claims[i].own, claims[|init|].own) && Disjoint(claims[i].stages, claims[|init|].stages);
      }
    }
  }

  lemma {:induction false} ClaimedDistinctIff(claims: seq<Listed>)
    requires Apart(claims)
    ensures Distinct(Claimed(claims)) <==> Unmixed(claims)
  {
    if claims != [] {
      var init, last := claims[..|claims| - 1], claims[|claims| - 1];
      assert forall i :: 0 <= i < |init| ==> claims[i] == init[i];
      ClaimedDistinctIff(init);
      DistinctJoin(Claimed(init), last.own + last.stages);
      DistinctJoin(last.own, last.stages);
      UnmixedInit(claims);
      MixedWithLast(claims);
    }
  }

  // The claims of rows -----------------------------------------------------------------------

  function ClaimOf(row: Row, slots: Slots): Listed
    requires slots.maxStaging >= 0
  {
    Listed(RowDomains(row), StageHosts(row, slots.maxStaging))
  }

  function ClaimsOf(rows: seq<Row>, slots: Slots): (r: seq<Listed>)
    requires slots.maxStaging >= 0
    ensures |r| == |rows| && forall i :: 0 <= i < |rows| ==> r[i] == ClaimOf(rows[i], slots)
  {
    seq(|rows|, i requires 0 <= i < |rows| => ClaimOf(rows[i], slots))
  }

  function Fqdns(routes: seq<Route>): (r: seq<string>)
    ensures |r| == |routes| && forall i :: 0 <= i < |routes| ==> r[i] == routes[i].fqdn
  {
    seq(|routes|, i requires 0 <= i < |routes| => routes[i].fqdn)
  }

  lemma RowFqdns(row: Row, slots: Slots)
    requires slots.maxStaging >= 0
    ensures Fqdns(RowRoutes(row, slots)) == ClaimOf(row, slots).own + ClaimOf(row, slots).stages
  {
    ghost var own, stages := RowDomains(row), StageHosts(row, slots.maxStaging);
    RoutesOfNames(row, slots, own, stages);
  }

  lemma RoutesOfNames(row: Row, slots: Slots, own: seq<string>, stages: seq<string>)
    ensures Fqdns(OwnRoutes(row, slots, own) + StageRoutes(row, slots, stages)) == own + stages
  {
  }

  lemma FqdnsConcat(a: seq<Route>, b: seq<Route>)
    ensures Fqdns(a + b) == Fqdns(a) + Fqdns(b)
  {
  }

  lemma {:induction false} AllFqdns(rows: seq<Row>, slots: Slots)
    requires slots.maxStaging >= 0
    ensures Fqdns(AllRoutes(rows, slots)) == Claimed(ClaimsOf(rows, slots))
  {
    if rows != [] {
      var init, last := rows[..|rows| - 1], rows[|rows| - 1];
      AllFqdns(init, slots);
      RowFqdns(last, slots);
      FqdnsConcat(AllRoutes(init, slots), RowRoutes(last, slots));
      assert ClaimsOf(rows, slots)[..|rows| - 1] == ClaimsOf(init, slots);
    }
  }

  lemma HostsDiffer(j: nat, a: Row, k: nat, b: Row)
    requires j != k || a.name.n != b.name.n
    ensures StageHost(j, a) != StageHost(k, b)
  {
    if StageHost(j, a) == StageHost(k, b) {
      StageHostsDiffer(j, a, k, b);
    }
  }

  lemma DisjointByIndex(x: seq<string>, y: seq<string>)
    requires forall i, j :: 0 <= i < |x| && 0 <= j < |y| ==> x[i] != y[j]
    ensures Disjoint(x, y)
  {
  }

  lemma HostAt(row: Row, n: nat, i: nat)
    requires i < n
    ensures StageHosts(row, n)[i] == StageHost(i + 1, row)
  {
  }

  lemma TwoOfTheSlots(row: Row, n: nat, i: nat, j: nat)
    requires i < j < n
    ensures StageHosts(row, n)[i] != StageHosts(row, n)[j]
  {
    HostAt(row, n, i);
    HostAt(row, n, j);
    HostsDiffer(i + 1, row, j + 1, row);
  }

  lemma SlotsOfTwo(a: Row, b: Row, n: nat, i: nat, j: nat)
    requires a.name.n != b.name.n && i < n && j < n
    ensures StageHosts(a, n)[i] != StageHosts(b, n)[j]
  {
    HostAt(a, n, i);
    HostAt(b, n, j);
    HostsDiffer(i + 1, a, j + 1, b);
  }

  lemma StageHostsApart(a: Row, b: Row, n: nat)
    requires a.name.n != b.name.n
    ensures Disjoint(StageHosts(a, n), StageHosts(b, n))
  {
    var x, y := StageHosts(a, n), StageHosts(b, n);
    forall i, j | 0 <= i < |x| && 0 <= j < |y| ensures x[i] != y[j] {
      SlotsOfTwo(a, b, n, i, j);
    }
    DisjointByIndex(x, y);
  }

  lemma StageHostsDistinct(row: Row, n: nat)
    ensures Distinct(StageHosts(row, n))
  {
    var x := StageHosts(row, n);
    forall i, j | 0 <= i < j < |x| ensures x[i] != x[j] {
      TwoOfTheSlots(row, n, i, j);
    }
  }

  /** What the registry's own validator makes sure of. */
  ghost predicate RowsApart(rows: seq<Row>) {
    && (forall i :: 0 <= i < |rows| ==> Distinct(RowDomains(rows[i])))
    && (forall i, j :: 0 <= i < j < |rows| ==> Disjoint(RowDomains(rows[i]), RowDomains(rows[j])))
    && (forall i, j :: 0 <= i < j < |rows| ==> rows[i].name.n != rows[j].name.n)
  }

  /** No domain that a row lists is the host name of a staging slot of a row. */
  ghost predicate NoStageDomain(rows: seq<Row>, slots: Slots)
    requires slots.maxStaging >= 0
  {
    forall i, j :: 0 <= i < |rows| && 0 <= j < |rows| ==>
          Disjoint(RowDomains(rows[i]), StageHosts(rows[j], slots.maxStaging))
  }

  lemma ClaimsAreApart(rows: seq<Row>, slots: Slots)
    requires slots.maxStaging >= 0 && RowsApart(rows)
    ensures Apart(ClaimsOf(rows, slots))
  {
    var claims := ClaimsOf(rows, slots);
    forall i | 0 <= i < |claims| ensures Distinct(claims[i].own) && Distinct(claims[i].stages) {
      StageHostsDistinct(rows[i], slots.maxStaging);
    }
    forall i, j | 0 <= i < j < |claims|
      ensures Disjoint(claims[i].own, claims[j].own) && Disjoint(claims[i].stages, claims[j].stages)
    {
      StageHostsApart(rows[i], rows[j], slots.maxStaging);
    }
  }

  lemma OwnersAreFqdns(routes: seq<Route>)
    ensures OneOwnerEach(routes) <==> Distinct(Fqdns(routes))
  {
    var names := Fqdns(routes);
    if Distinct(names) {
      forall i, j | 0 <= i < j < |routes| ensures routes[i].fqdn != routes[j].fqdn {
        assert names[i] != names[j];
      }
    }
  }

  lemma UnmixedRows(rows: seq<Row>, slots: Slots)
    requires slots.maxStaging >= 0
    ensures Unmixed(ClaimsOf(rows, slots)) <==> NoStageDomain(rows, slots)
  {
    var claims := ClaimsOf(rows, slots);
    if Unmixed(claims) {
      forall i, j | 0 <= i < |rows| && 0 <= j < |rows|
        ensures Disjoint(RowDomains(rows[i]), StageHosts(rows[j], slots.maxStaging))
      {
        assert Disjoint(claims[i].own, claims[j].stages);
      }
    }
    if NoStageDomain(rows, slots) {
      forall i, j | 0 <= i < |claims| && 0 <= j < |claims| ensures Disjoint(claims[i].own, claims[j].stages) {
        assert Disjoint(RowDomains(rows[i]), StageHosts(rows[j], slots.maxStaging));
      }
    }
  }

  /** For rows that the registry accepts, the routes are accepted exactly when no
      registered domain is the host name of a staging slot. The registry's validator
      does not look at slots that are free. */
  lemma RoutesAreAcceptedIff(rows: seq<Row>, slots: Slots)
    requires slots.maxStaging >= 0 && RowsApart(rows)
    ensures OneOwnerEach(AllRoutes(rows, slots)) <==> NoStageDomain(rows, slots)
  {
    AllFqdns(rows, slots);
    OwnersAreFqdns(AllRoutes(rows, slots));
    ClaimsAreApart(rows, slots);
    ClaimedDistinctIff(ClaimsOf(rows, slots));
    UnmixedRows(rows, slots);
  }

  // From the registry ---------------------------------------------------------------------------

  function RowOf(r: Resource): Row {
    Row(r.name, r.octet, r.primary, r.aliases)
  }

  /** The registry's production guests by number, up to n. */
  function Productions(resources: map<Name, Resource>, n: nat): seq<Row> {
    if n == 0 then []
    else Productions(resources, n - 1) + if Prod(n) in resources then [RowOf(resources[Prod(n)])] else []
  }

  lemma {:induction false} ProductionsMean(resources: map<Name, Resource>, n: nat)
    requires forall m :: m in resources ==> resources[m].name == m
    ensures Ascending(Productions(resources, n))
    ensures forall row :: row in Productions(resources, n) <==>
              row.name.Prod? && 1 <= row.name.n <= n && row.name in resources && row == RowOf(resources[row.name])
  {
    if n > 0 {
      ProductionsMean(resources, n - 1);
      var init := Productions(resources, n - 1);
      forall i | 0 <= i < |init| ensures init[i].name.n <= n - 1 {
        assert init[i] in init;
      }
    }
  }

  /** A reachable registry's rows are all accepted, and are already in order. */
  lemma RegistryRowsAreAccepted(s: Store)
    requires Inv(s)
    ensures var rows := Productions(s.resources, s.policy.slots.maxProduction);
            RowsOk(rows, s.policy.slots) && Ascending(rows) && RowsApart(rows)
  {
    var rows := Productions(s.resources, s.policy.slots.maxProduction);
    ProductionsMean(s.resources, s.policy.slots.maxProduction);
    forall i | 0 <= i < |rows| ensures RowOk(rows[i], s.policy.slots) && Distinct(RowDomains(rows[i])) {
      assert rows[i] in rows;
      assert ValidResource(s.resources[rows[i].name], s.policy);
      assert RowDomains(rows[i]) == Domains(s.resources[rows[i].name]);
    }
    forall i, j | 0 <= i < j < |rows|
      ensures rows[i].name != rows[j].name && Disjoint(RowDomains(rows[i]), RowDomains(rows[j]))
    {
      assert rows[i] in rows && rows[j] in rows;
      assert rows[i].name != rows[j].name;
      assert Compatible(s.resources[rows[i].name], s.resources[rows[j].name]);
      assert RowDomains(rows[i]) == Domains(s.resources[rows[i].name]);
      assert RowDomains(rows[j]) == Domains(s.resources[rows[j].name]);
    }
  }

  /** Writes about staging guests. */
  predicate StagingOnly(w: P.Write) {
    match w
    case PutResource(r) => r.name.Stage?
    case DropResource(name) => name.Stage?
    case PutPolicy(_) => false
    case _ => true
  }

  lemma {:induction false} SameProductions(was: map<Name, Resource>, now: map<Name, Resource>, n: nat)
    requires forall m: Name :: m.Prod? ==> (m in was <==> m in now) && (m in was ==> was[m] == now[m])
    ensures Productions(was, n) == Productions(now, n)
  {
    if n > 0 {
      SameProductions(was, now, n - 1);
    }
  }

  lemma {:induction false} StagingWritesKeepTheRows(s: Store, writes: seq<P.Write>, n: nat)
    requires forall w :: w in writes ==> StagingOnly(w)
    ensures Productions(P.After(s, writes).resources, n) == Productions(s.resources, n)
    ensures P.After(s, writes).policy == s.policy
  {
    if writes != [] {
      var init := writes[..|writes| - 1];
      StagingWritesKeepTheRows(s, init, n);
      assert writes[|writes| - 1] in writes;
      SameProductions(P.After(s, init).resources, P.After(s, writes).resources, n);
    }
  }

  /** A command that makes or removes a staging guest. */
  predicate StagingCommand(c: P.Command) {
    c.CAllocateStaging? || (c.CRelease? && c.name.Stage?) || (c.CFinalize? && c.name.Stage?)
  }

  lemma StagingCommandsWriteStaging(s: Store, c: P.Command)
    requires StagingCommand(c)
    ensures forall w :: w in P.PlanOf(s, s.policy, c).writes ==> StagingOnly(w)
  {
    W.EveryWriteFits(s, s.policy, c);
  }

  /** Staging guests come and go without a change to what the routes are made of. */
  lemma StagingLeavesTheRoutesAlone(s: Store, e: Event)
    requires StagingCommand(e.command)
    ensures forall n :: Productions(Step(s, e).resources, n) == Productions(s.resources, n)
    ensures Step(s, e).policy == s.policy
  {
    var writes := P.PlanOf(s, s.policy, e.command).writes;
    StagingCommandsWriteStaging(s, e.command);
    var reached := Reached(writes, e.diesAfter);
    forall n ensures Productions(P.After(s, reached).resources, n) == Productions(s.resources, n) {
      StagingWritesKeepTheRows(s, reached, n);
    }
    StagingWritesKeepTheRows(s, reached, 0);
  }

  lemma StageRouteListed(row: Row, slots: Slots, hosts: seq<string>, k: nat)
    requires 1 <= k <= |hosts|
    ensures Route(hosts[k - 1], Stage(k, row.name.n), slots.start + 10 * (row.name.n - 1) + k)
            in StageRoutes(row, slots, hosts)
  {
    assert StageRoutes(row, slots, hosts)[k - 1].fqdn == hosts[k - 1];
  }

  lemma {:induction false} RowRoutesListed(rows: seq<Row>, slots: Slots, row: Row, r: Route)
    requires slots.maxStaging >= 0 && row in rows && r in RowRoutes(row, slots)
    ensures r in AllRoutes(rows, slots)
  {
    var init := rows[..|rows| - 1];
    if row in init {
      RowRoutesListed(init, slots, row, r);
    }
  }

  lemma SlotIsRouted(rows: seq<Row>, slots: Slots, row: Row, k: nat)
    requires slots.maxStaging >= 0 && row in rows && 1 <= k <= slots.maxStaging
    ensures Route(StageHost(k, row), Stage(k, row.name.n), slots.start + 10 * (row.name.n - 1) + k)
            in AllRoutes(rows, slots)
  {
    var hosts := StageHosts(row, slots.maxStaging);
    StageRouteListed(row, slots, hosts, k);
    RowRoutesListed(rows, slots, row, Route(hosts[k - 1], Stage(k, row.name.n),
        slots.start + 10 * (row.name.n - 1) + k));
  }

  /** A new staging guest has the slot's name and address. */
  lemma NewStagingIsItsSlot(s: Store, a: P.StagingArgs)
    requires Readable(s) && P.AllocateStaging(s, s.policy, a).outcome == P.Done
    ensures a.source in s.resources && a.source.Prod? && 1 <= a.source.n <= s.policy.slots.maxProduction
    ensures var r := P.AllocateStaging(s, s.policy, a).writes[0].record;
            var row := RowOf(s.resources[a.source]);
            && r.name.Stage? && 1 <= r.name.k <= s.policy.slots.maxStaging && r.name.n == a.source.n == row.name.n
            && r.primary == StageHost(r.name.k, row)
            && r.octet == s.policy.slots.start + 10 * (row.name.n - 1) + r.name.k
  {
    assert s.resources[a.source].name == a.source && ValidResource(s.resources[a.source], s.policy);
  }

  lemma RoutedInItsSlot(r: Resource, row: Row, rows: seq<Row>, slots: Slots)
    requires row in rows && r.name.Stage? && 1 <= r.name.k <= slots.maxStaging && r.name.n == row.name.n
    requires r.primary == StageHost(r.name.k, row) && r.octet == slots.start + 10 * (row.name.n - 1) + r.name.k
    ensures Route(r.primary, r.name, r.octet) in AllRoutes(rows, slots)
  {
    SlotIsRouted(rows, slots, row, r.name.k);
  }

  /** The host name and address of a new staging guest are among the tunnel's routes
      before it is made, and the tunnel serves them exactly when no registered domain is
      the host name of a staging slot. */
  lemma NewStagingIsAlreadyRouted(s: Store, a: P.StagingArgs, r: Resource)
    requires Inv(s) && P.AllocateStaging(s, s.policy, a) == P.Plan(P.Done, [P.PutResource(r)])
    ensures var rows := Productions(s.resources, s.policy.slots.maxProduction);
            && Route(r.primary, r.name, r.octet) in AllRoutes(rows, s.policy.slots)
            && (OneOwnerEach(AllRoutes(rows, s.policy.slots)) <==> NoStageDomain(rows, s.policy.slots))
  {
    var rows := Productions(s.resources, s.policy.slots.maxProduction);
    NewStagingIsItsSlot(s, a);
    ProductionsMean(s.resources, s.policy.slots.maxProduction);
    RoutedInItsSlot(r, RowOf(s.resources[a.source]), rows, s.policy.slots);
    RegistryRowsAreAccepted(s);
    RoutesAreAcceptedIff(rows, s.policy.slots);
  }
}
