/** The registry validator's two loops (validate_registry_invariants) accept
    exactly the registries whose records fit pairwise.

    The first loop fills one dictionary for each unique field; the second keeps one
    holder for each source and snapshot name and compares every later holder only
    with that one.
 */
module RegistryValidator {
  import opened Common
  import opened RegistryTypes
  import opened RegistryRules

  // Unique fields -------------------------------------------------------------------

  /** One entry of one of the dictionaries. */
  datatype Key =
    | NameKey(name: Name) | VmidKey(vmid: nat) | IpKey(octet: int) | MacKey(mac: Mac)
    | AllocationKey(allocation: string) | PurposeKey(purpose: string) | DomainKey(domain: string)

  function DomainKeys(domains: seq<string>): seq<Key> {
    seq(|domains|, i requires 0 <= i < |domains| => DomainKey(domains[i]))
  }

  function FieldKeys(r: Resource): seq<Key> {
    [NameKey(r.name), VmidKey(r.vmid), IpKey(r.octet), MacKey(r.mac)]
    + (if r.allocation.Some? then [AllocationKey(r.allocation.value)] else [])
    + (if r.name.Prod? then [PurposeKey(r.purpose)] else [])
  }

  function Keys(r: Resource): seq<Key> {
    FieldKeys(r) + DomainKeys(Domains(r))
  }

  lemma KeysMean(r: Resource, k: Key)
    ensures k in Keys(r) <==>
            match k
            case NameKey(x) => x == r.name
            case VmidKey(x) => x == r.vmid
            case IpKey(x) => x == r.octet
            case MacKey(x) => x == r.mac
            case AllocationKey(x) => r.allocation == Some(x)
            case PurposeKey(x) => r.name.Prod? && x == r.purpose
            case DomainKey(x) => x in Domains(r)
  {
    var d := DomainKeys(Domains(r));
    assert forall i :: 0 <= i < |d| ==> d[i] == DomainKey(Domains(r)[i]);
    if k.DomainKey? && k.domain in Domains(r) {
      var i :| 0 <= i < |Domains(r)| && Domains(r)[i] == k.domain;
      assert d[i] == k;
    }
  }

  lemma ApartKeys(a: Resource, b: Resource)
    ensures Apart(a, b) <==> forall k :: k in Keys(a) ==> k !in Keys(b)
  {
    if Apart(a, b) {
      forall k | k in Keys(a) ensures k !in Keys(b) {
        KeysMean(a, k);
        KeysMean(b, k);
      }
    } else {
      var k := SharedKey(a, b);
      KeysMean(a, k);
      KeysMean(b, k);
    }
  }

  /** A key that two records which are not apart both have. */
  ghost function SharedKey(a: Resource, b: Resource): Key
    requires !Apart(a, b)
  {
    if a.name == b.name then NameKey(a.name)
    else if a.vmid == b.vmid then VmidKey(a.vmid)
    else if a.octet == b.octet then IpKey(a.octet)
    else if a.mac == b.mac then MacKey(a.mac)
    else if a.allocation.Some? && a.allocation == b.allocation then AllocationKey(a.allocation.value)
    else if a.name.Prod? && b.name.Prod? && a.purpose == b.purpose then PurposeKey(a.purpose)
    else var d :| d in Domains(a) && d in Domains(b); DomainKey(d)
  }

  lemma FieldKeysDistinct(r: Resource)
    ensures Distinct(FieldKeys(r)) && forall k :: k in FieldKeys(r) ==> !k.DomainKey?
  {
  }

  lemma DomainKeysDistinct(domains: seq<string>)
    ensures Distinct(DomainKeys(domains)) <==> Distinct(domains)
    ensures forall k :: k in DomainKeys(domains) ==> k.DomainKey?
  {
    var keys := DomainKeys(domains);
    assert forall i :: 0 <= i < |domains| ==> keys[i] == DomainKey(domains[i]);
    if Distinct(keys) {
      forall i, j | 0 <= i < j < |domains| ensures domains[i] != domains[j] {
        assert keys[i] != keys[j];
      }
    }
  }

  lemma DistinctParts<T>(a: seq<T>, b: seq<T>)
    requires Distinct(a) && forall x :: x in a ==> x !in b
    ensures Distinct(a + b) <==> Distinct(b)
  {
    var s := a + b;
    if Distinct(s) {
      forall i, j | 0 <= i < j < |b| ensures b[i] != b[j] {
        assert s[|a| + i] == b[i] && s[|a| + j] == b[j];
      }
    }
    if Distinct(b) {
      forall i, j | 0 <= i < j < |s| ensures s[i] != s[j] {
        assert s[i] == if i < |a| then a[i] else b[i - |a|];
        assert s[j] == if j < |a| then a[j] else b[j - |a|];
        assert i < |a| <= j ==> a[i] in a && b[j - |a|] in b;
      }
    }
  }

  lemma OwnKeysDistinct(r: Resource)
    ensures Distinct(Keys(r)) <==> Distinct(Domains(r))
  {
    FieldKeysDistinct(r);
    DomainKeysDistinct(Domains(r));
    DistinctParts(FieldKeys(r), DomainKeys(Domains(r)));
  }

  ghost predicate AllApart(records: seq<Resource>) {
    && (forall i, j :: 0 <= i < j < |records| ==> Apart(records[i], records[j]))
    && (forall i :: 0 <= i < |records| ==> Distinct(Domains(records[i])))
  }

  /** The keys of the first n records. */
  ghost predicate Claimed(records: seq<Resource>, n: nat, k: Key)
    requires n <= |records|
  {
    exists i :: 0 <= i < n && k in Keys(records[i])
  }

  lemma OneMoreApart(records: seq<Resource>, n: nat)
    requires n < |records| && AllApart(records[..n])
    ensures AllApart(records[..n + 1]) <==>
            Distinct(Keys(records[n])) && forall k :: k in Keys(records[n]) ==> !Claimed(records, n, k)
  {
    var r := records[n];
    OwnKeysDistinct(r);
    assert forall i :: 0 <= i < n ==> records[..n + 1][i] == records[..n][i] == records[i];
    assert records[..n + 1][n] == r;
    if AllApart(records[..n + 1]) {
      forall k | k in Keys(r) ensures !Claimed(records, n, k) {
        forall i | 0 <= i < n ensures k !in Keys(records[i]) {
          assert Apart(records[..n + 1][i], records[..n + 1][n]);
          ApartKeys(records[i], r);
        }
      }
    }
    if Distinct(Keys(r)) && forall k :: k in Keys(r) ==> !Claimed(records, n, k) {
      var longer := records[..n + 1];
      forall i, j | 0 <= i < j < |longer| ensures Apart(longer[i], longer[j]) {
        if j == n {
          ApartKeys(records[i], r);
        } else {
          assert Apart(records[..n][i], records[..n][j]);
        }
      }
      forall i | 0 <= i < |longer| ensures Distinct(Domains(longer[i])) {
        if i < n {
          assert Distinct(Domains(records[..n][i]));
        }
      }
    }
  }

  lemma TooFewApart(records: seq<Resource>, n: nat)
    requires n <= |records| && !AllApart(records[..n])
    ensures !AllApart(records)
  {
    if AllApart(records) {
      FewerApart(records, n);
    }
  }

  lemma FewerApart(records: seq<Resource>, n: nat)
    requires n <= |records| && AllApart(records)
    ensures AllApart(records[..n])
  {
    forall i, j | 0 <= i < j < n ensures Apart(records[..n][i], records[..n][j]) {
      assert Apart(records[i], records[j]);
    }
    forall i | 0 <= i < n ensures Distinct(Domains(records[..n][i])) {
      assert Distinct(Domains(records[i]));
    }
  }

  /** The inner loop, over the fields and domains of one record. */
  method ClaimKeys(before: map<Key, Name>, keys: seq<Key>, name: Name) returns (claimed: map<Key, Name>, ok: bool)
    ensures ok <==> Distinct(keys) && forall k :: k in keys ==> k !in before
    ensures ok ==> forall k :: k in claimed <==> k in before || k in keys
  {
    claimed := before;
    var j := 0;
    while j < |keys|
      invariant j <= |keys|
      invariant forall a, b :: 0 <= a < b < j ==> keys[a] != keys[b]
      invariant forall a :: 0 <= a < j ==> keys[a] !in before
      invariant forall k :: k in claimed <==> k in before || k in keys[..j]
    {
      if keys[j] in claimed {
        return claimed, false;
      }
      claimed := claimed[keys[j] := name];
      j := j + 1;
    }
    assert keys[..j] == keys;
    return claimed, true;
  }

  /** The first loop: no value of a unique field is claimed twice. */
  method UniqueFields(records: seq<Resource>) returns (ok: bool)
    ensures ok <==> AllApart(records)
  {
    var claimed: map<Key, Name> := map[];
    var n := 0;
    while n < |records|
      invariant n <= |records| && AllApart(records[..n])
      invariant forall k :: k in claimed <==> Claimed(records, n, k)
    {
      claimed, ok := ClaimKeys(claimed, Keys(records[n]), records[n].name);
      OneMoreApart(records, n);
      if !ok {
        TooFewApart(records, n + 1);
        return;
      }
      n := n + 1;
    }
    assert records[..n] == records;
    return true;
  }

  // Sources and shared snapshots --------------------------------------------------------

  /** The records by name; a later one of the same name replaces an earlier one. */
  function ByName(records: seq<Resource>): map<Name, Resource> {
    if records == [] then map[] else
      var last := records[|records| - 1];
      ByName(records[..|records| - 1])[last.name := last]
  }

  lemma {:induction false} ByNameMeans(records: seq<Resource>)
    requires forall i, j :: 0 <= i < j < |records| ==> records[i].name != records[j].name
    ensures forall i :: 0 <= i < |records| ==>
              records[i].name in ByName(records) && ByName(records)[records[i].name] == records[i]
    ensures forall n :: n in ByName(records) ==> ByName(records)[n] in records && ByName(records)[n].name == n
  {
    if records != [] {
      ByNameMeans(records[..|records| - 1]);
    }
  }

  ghost predicate AllLinked(records: seq<Resource>) {
    && (forall i :: 0 <= i < |records| ==> Linked(ByName(records), records[i]))
    && (forall i, j :: 0 <= i < j < |records| ==> SharingOk(records[i], records[j]))
  }

  datatype Holding = Holding(n: nat, snapshot: string)

  predicate Holds(r: Resource, h: Holding) {
    r.name.Stage? && r.snapshot.Some? && r.name.n == h.n && r.snapshot.value.name == h.snapshot
  }

  /** Who holds what among the first n records, and that all holders of one thing
      agree with the one that is kept. */
  ghost predicate Kept(records: seq<Resource>, n: nat, holders: map<Holding, Name>, all: map<Name, Resource>)
    requires n <= |records|
  {
    && (forall h :: h in holders ==> holders[h] in all && Holds(all[holders[h]], h)
                                     && exists i :: 0 <= i < n && records[i] == all[holders[h]])
    && (forall i, h :: 0 <= i < n && Holds(records[i], h) ==>
          h in holders && (records[i] == all[holders[h]] || SharingOk(records[i], all[holders[h]])))
  }

  /** Sharing with the kept holder is sharing with every earlier holder. */
  lemma SharingThroughTheKeptOne(a: Resource, b: Resource, kept: Resource)
    requires Sharers(a, b) && Sharers(a, kept) && Sharers(b, kept)
    requires (a == kept || SharingOk(a, kept)) && SharingOk(b, kept)
    ensures SharingOk(a, b)
  {
  }

  lemma SharingIsSymmetric(a: Resource, b: Resource)
    ensures SharingOk(a, b) <==> SharingOk(b, a)
    ensures Apart(a, b) <==> Apart(b, a)
  {
  }

  /** Where the second loop is after n records. */
  ghost predicate LinkedUpTo(records: seq<Resource>, n: nat, holders: map<Holding, Name>, all: map<Name, Resource>) {
    && n <= |records|
    && (forall i :: 0 <= i < n ==> Linked(all, records[i]))
    && (forall i, j :: 0 <= i < j < n ==> SharingOk(records[i], records[j]))
    && Kept(records, n, holders, all)
  }

  lemma AnotherSharer(records: seq<Resource>, n: nat, holders: map<Holding, Name>, all: map<Name, Resource>, h: Holding)
    requires LinkedUpTo(records, n, holders, all) && n < |records| && Linked(all, records[n])
    requires Holds(records[n], h) && h in holders && SharingOk(records[n], all[holders[h]])
    ensures LinkedUpTo(records, n + 1, holders, all)
  {
    forall i | 0 <= i < n ensures SharingOk(records[i], records[n]) {
      if Sharers(records[i], records[n]) {
        assert Holds(records[i], h);
        SharingThroughTheKeptOne(records[i], records[n], all[holders[h]]);
      }
    }
    forall h' | Holds(records[n], h') ensures h' == h {
    }
  }

  lemma FirstHolder(records: seq<Resource>, n: nat, holders: map<Holding, Name>, all: map<Name, Resource>, h: Holding)
    requires LinkedUpTo(records, n, holders, all) && n < |records| && Linked(all, records[n])
    requires Holds(records[n], h) && h !in holders && records[n].name in all && all[records[n].name] == records[n]
    ensures LinkedUpTo(records, n + 1, holders[h := records[n].name], all)
  {
    forall i | 0 <= i < n ensures SharingOk(records[i], records[n]) {
      assert !Holds(records[i], h);
    }
    forall h' | Holds(records[n], h') ensures h' == h {
    }
  }

  lemma NotAHolder(records: seq<Resource>, n: nat, holders: map<Holding, Name>, all: map<Name, Resource>)
    requires LinkedUpTo(records, n, holders, all) && n < |records| && Linked(all, records[n])
    requires !(records[n].name.Stage? && records[n].snapshot.Some?)
    ensures LinkedUpTo(records, n + 1, holders, all)
  {
    assert forall h :: !Holds(records[n], h);
  }

  lemma Clashes(records: seq<Resource>, n: nat, holders: map<Holding, Name>, all: map<Name, Resource>, h: Holding)
    requires LinkedUpTo(records, n, holders, all) && n < |records|
    requires h in holders && !SharingOk(records[n], all[holders[h]])
    ensures !AllLinked(records)
  {
    var i :| 0 <= i < n && records[i] == all[holders[h]];
    SharingIsSymmetric(records[i], records[n]);
  }

  lemma RecordByName(records: seq<Resource>, n: nat)
    requires AllApart(records) && n < |records|
    ensures records[n].name in ByName(records) && ByName(records)[records[n].name] == records[n]
  {
    forall i, j | 0 <= i < j < |records| ensures records[i].name != records[j].name {
      assert Apart(records[i], records[j]);
    }
    ByNameMeans(records);
  }

  lemma AllHeld(records: seq<Resource>, holders: map<Holding, Name>)
    requires LinkedUpTo(records, |records|, holders, ByName(records))
    ensures AllLinked(records)
  {
  }

  lemma SourceClash(records: seq<Resource>, n: nat)
    requires n < |records| && !Linked(ByName(records), records[n])
    ensures !AllLinked(records)
  {
  }

  /** One round of the second loop. */
  method LinkOne(records: seq<Resource>, n: nat, before: map<Holding, Name>, all: map<Name, Resource>)
    returns (holders: map<Holding, Name>, ok: bool)
    requires AllApart(records) && all == ByName(records)
    requires n < |records| && LinkedUpTo(records, n, before, all)
    ensures if ok then LinkedUpTo(records, n + 1, holders, all) else !AllLinked(records)
  {
    RecordByName(records, n);
    var r := records[n];
    holders := before;
    if !Linked(all, r) {
      SourceClash(records, n);
      return holders, false;
    }
    if !(r.name.Stage? && r.snapshot.Some?) {
      NotAHolder(records, n, holders, all);
      return holders, true;
    }
    var h := Holding(r.name.n, r.snapshot.value.name);
    if h !in holders {
      FirstHolder(records, n, holders, all, h);
      return holders[h := r.name], true;
    }
    if !SharingOk(r, all[holders[h]]) {
      Clashes(records, n, holders, all, h);
      return holders, false;
    }
    AnotherSharer(records, n, holders, all, h);
    return holders, true;
  }

  /** The second loop: sources exist, snapshots agree with them, and each holder of
      a snapshot agrees with the first one. */
  method Links(records: seq<Resource>) returns (ok: bool)
    requires AllApart(records)
    ensures ok <==> AllLinked(records)
  {
    var all := ByName(records);
    var holders: map<Holding, Name> := map[];
    var n := 0;
    while n < |records|
      invariant n <= |records| && LinkedUpTo(records, n, holders, all)
    {
      holders, ok := LinkOne(records, n, holders, all);
      if !ok {
        return;
      }
      n := n + 1;
    }
    AllHeld(records, holders);
    return true;
  }

  // The validator ---------------------------------------------------------------------------

  /** The loops accept a list of records exactly when its records fit pairwise:
      `Consistent`, on the map of the records by name. */
  method ValidateRegistry(records: seq<Resource>) returns (ok: bool)
    ensures ok <==> AllApart(records) && AllLinked(records)
  {
    ok := UniqueFields(records);
    if ok {
      ok := Links(records);
    }
  }

  /** The list holds exactly the records of the map, each once. */
  ghost predicate ListsAll(records: seq<Resource>, all: map<Name, Resource>) {
    && (forall n :: n in all ==> all[n].name == n && all[n] in records)
    && (forall r :: r in records ==> r.name in all && all[r.name] == r)
    && (forall i, j :: 0 <= i < j < |records| ==> records[i].name != records[j].name)
  }

  lemma ListedByName(records: seq<Resource>, all: map<Name, Resource>)
    requires ListsAll(records, all)
    ensures ByName(records) == all
  {
    ByNameMeans(records);
    forall n | n in all ensures n in ByName(records) && ByName(records)[n] == all[n] {
      assert all[n] in records;
    }
  }

  lemma ConsistentIsAccepted(records: seq<Resource>, all: map<Name, Resource>)
    requires ListsAll(records, all) && Consistent(all)
    requires forall r :: r in records ==> Distinct(Domains(r))
    ensures AllApart(records) && AllLinked(records)
  {
    ListedByName(records, all);
    forall i, j | 0 <= i < j < |records| ensures Apart(records[i], records[j]) && SharingOk(records[i], records[j]) {
      assert records[i] in records && records[j] in records;
      assert Compatible(all[records[i].name], all[records[j].name]);
    }
    forall i | 0 <= i < |records| ensures Linked(ByName(records), records[i]) {
      assert records[i] in records;
    }
  }

  lemma AcceptedIsConsistent(records: seq<Resource>, all: map<Name, Resource>)
    requires ListsAll(records, all) && AllApart(records) && AllLinked(records)
    ensures Consistent(all)
  {
    ListedByName(records, all);
    forall a, b | a in all && b in all && a != b ensures Compatible(all[a], all[b]) {
      var i :| 0 <= i < |records| && records[i] == all[a];
      var j :| 0 <= j < |records| && records[j] == all[b];
      SharingIsSymmetric(all[a], all[b]);
      if i < j {
        assert Apart(records[i], records[j]);
      } else {
        assert Apart(records[j], records[i]) && SharingOk(records[j], records[i]);
      }
    }
    forall n | n in all ensures Linked(all, all[n]) {
      var i :| 0 <= i < |records| && records[i] == all[n];
      assert Linked(ByName(records), records[i]);
    }
  }

  /** For well-formed records kept under their own names, what the loops accept is
      the pairwise meaning, in whatever order the files are listed. */
  lemma ValidatorMeansConsistent(records: seq<Resource>, all: map<Name, Resource>)
    requires ListsAll(records, all) && forall r :: r in records ==> Distinct(Domains(r))
    ensures AllApart(records) && AllLinked(records) <==> Consistent(all)
  {
    if Consistent(all) {
      ConsistentIsAccepted(records, all);
    }
    if AllApart(records) && AllLinked(records) {
      AcceptedIsConsistent(records, all);
    }
  }
}
