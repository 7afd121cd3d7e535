/** What every reachable registry says of its guests, in the records' own fields.
 */
module RegistryFacts {
  import opened Common
  import opened RegistryTypes
  import opened RegistryRules
  import opened RegistryPlans
  import opened RegistrySafety
  import opened RegistryRuns
  import U = RegistryUpdates

  /** Its name, address, numbers and domains. */
  predicate WellNamed(r: Resource, p: Policy) {
    && 1 <= r.name.n <= p.slots.maxProduction && (r.name.Stage? ==> 1 <= r.name.k <= p.slots.maxStaging)
    && r.octet == p.slots.start + 10 * (r.name.n - 1) + (if r.name.Stage? then r.name.k else 0)
    && r.mac == MacFor(r.name) && 100 <= r.vmid <= 999_999_999 && r.revision > 0
    && (forall i, j :: 0 <= i < j < |r.aliases| ==> r.aliases[i] != r.aliases[j])
    && r.primary !in r.aliases && r.stagingBase != r.primary && r.stagingBase !in r.aliases
  }

  /** Every node it names is one of the policy's and in its placement. */
  predicate WellPlaced(r: Resource, p: Policy) {
    && |r.placement| > 0 && U.Listed(r.placement, p) && U.Listed(r.haNodes, p) && U.Listed(r.targets, p)
    && r.initial in r.placement && (r.owner.Some? ==> r.owner.value in r.placement)
    && (forall n :: n in r.haNodes ==> n in r.placement) && (forall n :: n in r.targets ==> n in r.placement)
    && (r.name.Stage? ==> |r.placement| == 1 && r.haNodes == [])
  }

  /** A guest linked to a backup is a staging guest with its own overlay and no snapshot;
      one under an instant restore is a production guest restored to its own point. */
  predicate WellLinked(r: Resource) {
    && (r.backup.Some? ==>
          r.name.Stage? && r.snapshot == None
          && (r.volume.Some? ==> r.volume.value.Overlay? && r.volume.value.vmid == r.vmid))
    && (r.instant.Some? ==> r.name.Prod? && r.instant.value.point.vmid == r.vmid)
  }

  /** A staging guest's snapshot is of its source's volume, on a node of the source; once
      verified it has one GUID for every volume and node, and before that none. */
  ghost predicate WellSnapped(s: Store, r: Resource, x: Snapshot, c: Claim)
    requires r.name.Stage? && Prod(r.name.n) in s.resources
  {
    var source := s.resources[Prod(r.name.n)];
    && c.source == Prod(r.name.n) && source.volume == Some(c.root) && x.owner in source.placement
    && (forall i, j :: 0 <= i < j < |c.volumes| ==> c.volumes[i] != c.volumes[j]) && c.root in c.volumes
    && c.dependents == [r.name] && c.refcount == 1
    && (c.verified ==>
          && (forall v :: v in c.volumes <==> v in c.volumeGuids) && x.guids == c.volumeGuids[c.root]
          && (forall v :: v in c.volumeGuids ==>
                && (forall n :: n in source.placement <==> n in c.volumeGuids[v])
                && forall m, n :: m in c.volumeGuids[v] && n in c.volumeGuids[v] ==>
                                    c.volumeGuids[v][m] == c.volumeGuids[v][n]))
    && (!c.verified ==>
          && x.guids == map[] && c.volumeGuids == map[]
          && (r.state == Snapshotting || r.state == Replicating || r.state == CleanupPending || r.state == Failed))
  }

  lemma DomainsAre(r: Resource)
    ensures forall d :: d in Domains(r) <==> d == r.primary || d in r.aliases
    ensures Distinct(Domains(r)) <==>
            (forall i, j :: 0 <= i < j < |r.aliases| ==> r.aliases[i] != r.aliases[j]) && r.primary !in r.aliases
  {
    var domains := Domains(r);
    assert domains[0] == r.primary && domains[1..] == r.aliases;
    if Distinct(domains) {
      forall i, j | 0 <= i < j < |r.aliases| ensures r.aliases[i] != r.aliases[j] {
        assert domains[i + 1] == r.aliases[i] && domains[j + 1] == r.aliases[j];
      }
      forall i | 0 <= i < |r.aliases| ensures r.aliases[i] != r.primary {
        assert domains[i + 1] == r.aliases[i];
      }
    } else {
      var i, j :| 0 <= i < j < |domains| && domains[i] == domains[j];
      assert domains[j] == r.aliases[j - 1] && (i > 0 ==> domains[i] == r.aliases[i - 1]);
    }
  }

  /** Exactly these records are valid alone, but for their snapshots. */
  lemma ValidWithout(r: Resource, p: Policy)
    requires r.snapshot == None && r.mac == MacFor(r.name) && p.slots.maxStaging >= 0
    ensures ValidResource(r, p) <==> WellNamed(r, p) && WellPlaced(r, p) && WellLinked(r)
  {
    DomainsAre(r);
    ListedMeans(r.haNodes, r.targets, r.placement);
  }

  lemma ListedMeans(a: seq<Node>, b: seq<Node>, placement: seq<Node>)
    ensures Within(a + b, placement) <==>
            (forall n :: n in a ==> n in placement) && (forall n :: n in b ==> n in placement)
  {
    assert forall n :: n in a + b <==> n in a || n in b;
  }

  lemma NoSnapshot(r: Resource, p: Policy)
    requires ValidResource(r, p)
    ensures ValidResource(r.(snapshot := None), p)
  {
    assert Domains(r.(snapshot := None)) == Domains(r);
  }

  /** In every run: each guest is named, placed and linked like that, and a staging
      guest's source is registered. */
  lemma WhatAGuestHas(p: Policy, es: seq<Event>, n: Name)
    requires ValidPolicy(p) && Fresh(p, es) && n in Run(p, es).resources
    ensures var s := Run(p, es);
            var r := s.resources[n];
            && r.name == n && WellNamed(r, s.policy) && WellPlaced(r, s.policy) && WellLinked(r)
            && (n.Stage? ==> Prod(n.n) in s.resources)
            && (n.Stage? && r.snapshot.Some? ==>
                  r.snapshot.value.claim.Some? && WellSnapped(s, r, r.snapshot.value, r.snapshot.value.claim.value))
            && (n.Prod? && r.snapshot.Some? ==>
                  r.snapshot.value.claim == None && r.snapshot.value.owner in r.placement
                  && forall m :: m in r.snapshot.value.guids ==> m in r.placement)
  {
    EveryRunKeepsTheInvariant(p, es);
    GuestHas(Run(p, es), n);
  }

  lemma GuestHas(s: Store, n: Name)
    requires Inv(s) && n in s.resources
    ensures var r := s.resources[n];
            && r.name == n && WellNamed(r, s.policy) && WellPlaced(r, s.policy) && WellLinked(r)
            && (n.Stage? ==> Prod(n.n) in s.resources)
            && (n.Stage? && r.snapshot.Some? ==>
                  r.snapshot.value.claim.Some? && WellSnapped(s, r, r.snapshot.value, r.snapshot.value.claim.value))
            && (n.Prod? && r.snapshot.Some? ==>
                  r.snapshot.value.claim == None && r.snapshot.value.owner in r.placement
                  && forall m :: m in r.snapshot.value.guids ==> m in r.placement)
  {
    var r := s.resources[n];
    NoSnapshot(r, s.policy);
    ValidWithout(r.(snapshot := None), s.policy);
    assert Linked(s.resources, r);
    if n.Stage? && r.snapshot.Some? {
      Snapped(s, r, r.snapshot.value, r.snapshot.value.claim.value);
    }
  }

  lemma Snapped(s: Store, r: Resource, x: Snapshot, c: Claim)
    requires r.name.Stage? && Prod(r.name.n) in s.resources && s.resources[Prod(r.name.n)].name == Prod(r.name.n)
    requires x.claim == Some(c) && ValidClaim(x, c, r, s.policy) && SnapshotLinked(x, r, s.resources[Prod(r.name.n)])
    ensures WellSnapped(s, r, x, c)
  {
    if c.verified {
      forall v ensures v in c.volumes <==> v in c.volumeGuids {
        assert v in SetOf(c.volumes) <==> v in c.volumes;
      }
      var placement := s.resources[Prod(r.name.n)].placement;
      assert forall n :: n in SetOf(placement) <==> n in placement;
    }
  }

  /** In every run: no two guests have the same VMID, address, MAC, id, allocation or
      domain, and no two production guests the same purpose. Two copies of one source
      that name the same snapshot both have it verified, and say the same of it. */
  lemma WhatTwoGuestsHave(p: Policy, es: seq<Event>, m: Name, n: Name)
    requires ValidPolicy(p) && Fresh(p, es) && m in Run(p, es).resources && n in Run(p, es).resources && m != n
    ensures var a, b := Run(p, es).resources[m], Run(p, es).resources[n];
            && a.vmid != b.vmid && a.octet != b.octet && a.mac != b.mac && a.id != b.id
            && (a.allocation.Some? && b.allocation.Some? ==> a.allocation.value != b.allocation.value)
            && a.primary != b.primary && a.primary !in b.aliases && b.primary !in a.aliases
            && (forall d :: d in a.aliases ==> d !in b.aliases)
            && (m.Prod? && n.Prod? ==> a.purpose != b.purpose)
            && (m.Stage? && n.Stage? && m.n == n.n ==> AgreeOnSnapshots(a.snapshot, b.snapshot))
  {
    EveryRunKeepsTheInvariant(p, es);
    TwoHave(Run(p, es), m, n);
  }

  predicate AgreeOnSnapshots(x: Option<Snapshot>, y: Option<Snapshot>) {
    x.Some? && y.Some? && x.value.name == y.value.name ==>
      && x.value.owner == y.value.owner && x.value.guids == y.value.guids
      && x.value.claim.Some? && y.value.claim.Some?
      && var c, d := x.value.claim.value, y.value.claim.value;
      && c.verified && d.verified && c.root == d.root && c.volumes == d.volumes && c.volumeGuids == d.volumeGuids
  }

  lemma TwoHave(s: Store, m: Name, n: Name)
    requires Inv(s) && m in s.resources && n in s.resources && m != n
    ensures var a, b := s.resources[m], s.resources[n];
            && a.vmid != b.vmid && a.octet != b.octet && a.mac != b.mac && a.id != b.id
            && (a.allocation.Some? && b.allocation.Some? ==> a.allocation.value != b.allocation.value)
            && a.primary != b.primary && a.primary !in b.aliases && b.primary !in a.aliases
            && (forall d :: d in a.aliases ==> d !in b.aliases)
            && (m.Prod? && n.Prod? ==> a.purpose != b.purpose)
            && (m.Stage? && n.Stage? && m.n == n.n ==> AgreeOnSnapshots(a.snapshot, b.snapshot))
  {
    var a, b := s.resources[m], s.resources[n];
    assert Compatible(a, b) && a.name == m && b.name == n;
    DomainsAre(a);
    DomainsAre(b);
    assert a.primary in Domains(a) && b.primary in Domains(b);
    if Sharers(a, b) {
      assert SharedIdentity(a.snapshot.value) == SharedIdentity(b.snapshot.value);
    }
  }
}
