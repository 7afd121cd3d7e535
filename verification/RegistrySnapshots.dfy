/** When a staging guest's snapshot is recorded, and what its record then says: the
    intent before anything is made, the verified snapshot, and a share of another's.
 */
module RegistrySnapshots {
  import opened Common
  import opened RegistryTypes
  import opened RegistryRules
  import opened RegistryPlans
  import opened RegistrySafety

  /** The same guest with another snapshot. */
  function With(was: Resource, snapshot: Snapshot): Resource {
    was.(snapshot := Some(snapshot), revision := was.revision + 1)
  }

  lemma WithIsValid(was: Resource, snapshot: Snapshot, p: Policy)
    requires ValidResource(was, p) && was.name.Stage?
    ensures ValidResource(With(was, snapshot), p)
            <==> was.backup.None? && ValidSnapshot(snapshot, was, p)
  {
    assert Domains(With(was, snapshot)) == Domains(was);
  }

  /** No other staging guest of the source disagrees about the snapshot. */
  ghost predicate Agreed(s: Store, now: Resource) {
    forall n :: n in s.resources && n != now.name ==>
                  SharingOk(s.resources[n], now) && SharingOk(now, s.resources[n])
  }

  lemma PairsWith(x: Resource, was: Resource, now: Resource)
    requires Compatible(x, was) && Compatible(was, x) && now == was.(snapshot := now.snapshot, revision := now.revision)
    ensures Compatible(x, now) && Compatible(now, x) <==> SharingOk(x, now) && SharingOk(now, x)
  {
    assert Domains(now) == Domains(was);
  }

  lemma WithFits(s: Store, was: Resource, snapshot: Snapshot)
    requires Readable(s) && was.name.Stage? && was.name in s.resources && s.resources[was.name] == was
    requires Agreed(s, With(was, snapshot)) && Prod(was.name.n) in s.resources
    requires SnapshotLinked(snapshot, With(was, snapshot), s.resources[Prod(was.name.n)])
    ensures Consistent(s.resources[was.name := With(was, snapshot)])
  {
    var now := With(was, snapshot);
    var all := s.resources[was.name := now];
    forall a, b | a in all && b in all && a != b ensures Compatible(all[a], all[b]) {
      assert Compatible(s.resources[a], s.resources[b]) && Compatible(s.resources[b], s.resources[a]);
      if b == was.name {
        PairsWith(s.resources[a], was, now);
      } else if a == was.name {
        PairsWith(s.resources[b], was, now);
      }
    }
    forall n | n in all ensures Linked(all, all[n]) {
      assert Linked(s.resources, s.resources[n]);
    }
  }

  lemma WithIsRecorded(s: Store, was: Resource, snapshot: Snapshot)
    requires Readable(s) && was.name.Stage? && was.name in s.resources && s.resources[was.name] == was
    requires ValidSnapshot(snapshot, was, s.policy)
    requires Agreed(s, With(was, snapshot)) && Prod(was.name.n) in s.resources
    requires SnapshotLinked(snapshot, With(was, snapshot), s.resources[Prod(was.name.n)])
    ensures Replace(s, s.policy, With(was, snapshot))
            == if was.backup.None? then Plan(Done, [PutResource(With(was, snapshot))]) else REFUSED
  {
    WithIsValid(was, snapshot, s.policy);
    WithFits(s, was, snapshot);
  }

  lemma WithIsRevised(was: Resource, snapshot: Snapshot)
    ensures Revised(was.(snapshot := Some(snapshot))) == With(was, snapshot)
  {
  }

  /** The staging guest and its source are registered. */
  ghost predicate Copied(s: Store, name: Name) {
    name in s.resources && name.Stage? && Prod(name.n) in s.resources
  }

  // Intent ----------------------------------------------------------------------------------

  /** The volumes include the source's own, and the snapshot is made on one of its nodes. */
  ghost predicate IntentFits(s: Store, a: IntentArgs) {
    && (forall i, j :: 0 <= i < j < |a.volumes| ==> a.volumes[i] != a.volumes[j]) && a.root in a.volumes
    && Copied(s, a.name)
    && s.resources[Prod(a.name.n)].volume == Some(a.root) && a.owner in s.resources[Prod(a.name.n)].placement
  }

  /** No staging guest of the source has a snapshot of that name. */
  ghost predicate NameUnused(s: Store, source: nat, snapshot: string) {
    forall n :: n in s.resources && n.Stage? && n.n == source && s.resources[n].snapshot.Some? ==>
                  s.resources[n].snapshot.value.name != snapshot
  }

  /** What an unverified snapshot record says. */
  predicate IsIntent(x: Snapshot, a: IntentArgs) {
    && x.name == a.snapshot && x.owner == a.owner && x.guids == map[] && x.claim.Some?
    && var c := x.claim.value;
    && c.source == Prod(a.name.n) && c.root == a.root && c.volumes == a.volumes && c.volumeGuids == map[]
    && !c.verified && c.dependents == [a.name] && c.refcount == 1
  }

  lemma IntentIsLinked(s: Store, a: IntentArgs, x: Snapshot)
    requires Readable(s) && IntentFits(s, a) && IsIntent(x, a) && NameUnused(s, a.name.n, a.snapshot)
    requires s.resources[a.name].state == Snapshotting
    ensures var was := s.resources[a.name];
            && ValidSnapshot(x, was, s.policy) && Agreed(s, With(was, x))
            && SnapshotLinked(x, With(was, x), s.resources[Prod(a.name.n)])
  {
    assert s.resources[a.name].name == a.name && s.resources[Prod(a.name.n)].name == Prod(a.name.n);
    assert ValidResource(s.resources[Prod(a.name.n)], s.policy);
    forall n | n in s.resources && n != a.name
      ensures SharingOk(s.resources[n], With(s.resources[a.name], x))
              && SharingOk(With(s.resources[a.name], x), s.resources[n])
    {
      assert s.resources[n].name == n;
    }
  }

  /** An intent that fits the source is recorded exactly while the guest is
      snapshotting, has none yet, links to no backup, and nobody has one of that name;
      the same intent again changes nothing. */
  lemma AnIntentIsRecordedIff(s: Store, a: IntentArgs, x: Snapshot)
    requires Readable(s) && IntentFits(s, a) && IsIntent(x, a)
    ensures var was := s.resources[a.name];
            var plan := SnapshotIntent(s, s.policy, a);
            && (plan.outcome == Done <==>
                  was.snapshot == None && was.state == Snapshotting && was.backup == None
                  && (a.expected.Some? ==> was.revision == a.expected.value) && NameUnused(s, a.name.n, a.snapshot))
            && (plan.outcome == Unchanged <==> was.snapshot == Some(x))
            && (plan.outcome == Done ==> plan.writes == [PutResource(With(was, x))])
  {
    var was := s.resources[a.name];
    assert was.name == a.name;
    IntentPlan(s, a, x, Replace(s, s.policy, With(was, x)));
    if was.state == Snapshotting && NameUnused(s, a.name.n, a.snapshot) {
      IntentIsLinked(s, a, x);
      WithIsRecorded(s, was, x);
    }
  }

  lemma IntentPlan(s: Store, a: IntentArgs, x: Snapshot, plan: Plan)
    requires Readable(s) && IntentFits(s, a) && IsIntent(x, a)
    requires plan == Replace(s, s.policy, With(s.resources[a.name], x))
    ensures var was := s.resources[a.name];
            SnapshotIntent(s, s.policy, a)
            == if was.snapshot == Some(x) then UNCHANGED
               else if was.snapshot == None && was.state == Snapshotting && NameUnused(s, a.name.n, a.snapshot)
                       && (a.expected.Some? ==> was.revision == a.expected.value)
               then plan
               else REFUSED
  {
    WithIsRevised(s.resources[a.name], x);
    assert s.resources[Prod(a.name.n)].name == Prod(a.name.n);
    assert x == IntentSnapshot(a, Prod(a.name.n));
    TakenMeans(s, a.name.n, a.snapshot);
  }

  lemma TakenMeans(s: Store, n: nat, snapshot: string)
    ensures Taken(s, Prod(n), snapshot) <==> !NameUnused(s, n, snapshot)
  {
    if Taken(s, Prod(n), snapshot) {
      var m :| m in s.resources && m.Stage? && SourceOf(m) == Prod(n) && s.resources[m].snapshot.Some?
          && s.resources[m].snapshot.value.name == snapshot;
      assert m.n == n;
    }
  }

  lemma AnIntentThatDoesNotFit(s: Store, a: IntentArgs)
    requires !IntentFits(s, a)
    ensures SnapshotIntent(s, s.policy, a) == Plan(Refused, [])
  {
  }

  // Verified snapshots --------------------------------------------------------------------------

  /** The request names the intent that is on record and the source's present volume. */
  ghost predicate MatchesIntent(s: Store, a: RecordArgs) {
    && Copied(s, a.name)
    && var source := s.resources[Prod(a.name.n)];
    && source.volume == Some(a.root) && a.owner in source.placement
    && exists x, c :: s.resources[a.name].snapshot == Some(x) && x.claim == Some(c)
                      && x.name == a.snapshot && x.owner == a.owner && c.root == a.root
  }

  /** One GUID for each intended volume, the same on every node of the placement. */
  ghost predicate GuidsComplete(a: RecordArgs, volumes: seq<Volume>, placement: seq<Node>) {
    && (forall v :: v in volumes <==> v in a.volumeGuids)
    && (forall v :: v in a.volumeGuids ==>
          && (forall n :: n in placement <==> n in a.volumeGuids[v])
          && (forall m, n :: m in a.volumeGuids[v] && n in a.volumeGuids[v] ==>
                               a.volumeGuids[v][m] == a.volumeGuids[v][n]))
    && a.root in a.volumeGuids && a.guids == a.volumeGuids[a.root]
  }

  lemma GuidsMean(a: RecordArgs, claim: Claim, placement: seq<Node>)
    ensures GuidsComplete(a, claim.volumes, placement) <==> GuidsCover(a, claim, placement)
  {
  }

  /** The record with the GUIDs and the mark. */
  predicate IsVerified(x: Snapshot, was: Snapshot, a: RecordArgs)
    requires was.claim.Some?
  {
    && x.name == was.name && x.owner == was.owner && x.guids == a.guids && x.claim.Some?
    && x.claim.value.volumeGuids == a.volumeGuids && x.claim.value.verified
    && x.claim.value.source == was.claim.value.source && x.claim.value.root == was.claim.value.root
    && x.claim.value.volumes == was.claim.value.volumes && x.claim.value.dependents == was.claim.value.dependents
    && x.claim.value.refcount == was.claim.value.refcount
  }

  lemma VerifiedIsLinked(s: Store, a: RecordArgs, was: Snapshot, x: Snapshot)
    requires Readable(s) && MatchesIntent(s, a) && s.resources[a.name].snapshot == Some(was) && was.claim.Some?
    requires GuidsComplete(a, was.claim.value.volumes, s.resources[Prod(a.name.n)].placement)
    requires IsVerified(x, was, a) && !was.claim.value.verified
    ensures var r := s.resources[a.name];
            && ValidSnapshot(x, r, s.policy) && Agreed(s, With(r, x)) && r.backup.None?
            && SnapshotLinked(x, With(r, x), s.resources[Prod(a.name.n)])
  {
    var r, source := s.resources[a.name], s.resources[Prod(a.name.n)];
    assert r.name == a.name && source.name == Prod(a.name.n);
    assert ValidResource(source, s.policy) && ValidResource(r, s.policy) && Linked(s.resources, r);
    VerifiedIsValid(a, was, x, r, source, s.policy);
    NobodyDisagrees(s, r, was, x);
  }

  lemma NobodyDisagrees(s: Store, r: Resource, was: Snapshot, x: Snapshot)
    requires Readable(s) && r.name in s.resources && s.resources[r.name] == r && r.name.Stage?
    requires r.snapshot == Some(was) && !Verified(was) && x.name == was.name
    ensures Agreed(s, With(r, x))
  {
    forall n | n in s.resources && n != r.name
      ensures SharingOk(s.resources[n], With(r, x)) && SharingOk(With(r, x), s.resources[n])
    {
      assert s.resources[n].name == n;
      NobodySharesAnIntent(s, r.name, n, was);
    }
  }

  /** Nobody else has an unverified snapshot's name. */
  lemma NobodySharesAnIntent(s: Store, name: Name, n: Name, was: Snapshot)
    requires Readable(s) && name in s.resources && n in s.resources && n != name && name.Stage?
    requires s.resources[name].snapshot == Some(was) && !Verified(was)
    ensures n.Stage? && n.n == name.n && s.resources[n].snapshot.Some? ==>
              s.resources[n].snapshot.value.name != was.name
  {
    assert s.resources[n].name == n && s.resources[name].name == name;
    assert Compatible(s.resources[n], s.resources[name]);
  }

  lemma VerifiedIsValid(a: RecordArgs, was: Snapshot, x: Snapshot, r: Resource, source: Resource, p: Policy)
    requires r.name.Stage? && source.name == Prod(r.name.n) && r.snapshot == Some(was) && was.claim.Some?
    requires ValidResource(source, p) && ValidResource(r, p) && SnapshotLinked(was, r, source)
    requires GuidsComplete(a, was.claim.value.volumes, source.placement) && IsVerified(x, was, a)
    requires was.claim.value.root == a.root
    ensures ValidSnapshot(x, r, p) && SnapshotLinked(x, With(r, x), source) && r.backup.None?
  {
    var c, d := was.claim.value, x.claim.value;
    assert ValidSnapshot(was, r, p) && ValidClaim(was, c, r, p);
    VerifiedGuids(a, c.volumes, source, p);
    VerifiedClaim(a, was, x, r, p);
    assert d.volumeGuids == a.volumeGuids && x.guids == a.guids;
  }

  lemma VerifiedClaim(a: RecordArgs, was: Snapshot, x: Snapshot, r: Resource, p: Policy)
    requires r.name.Stage? && was.claim.Some? && ValidClaim(was, was.claim.value, r, p) && IsVerified(x, was, a)
    requires (forall v :: v in was.claim.value.volumes <==> v in a.volumeGuids) && a.root in a.volumeGuids
    requires was.claim.value.root == a.root && a.guids == a.volumeGuids[a.root]
    requires forall v :: v in a.volumeGuids ==>
               && a.volumeGuids[v] != map[] && OneGuid(a.volumeGuids[v])
               && forall n :: n in a.volumeGuids[v] ==> 1 <= n <= p.maxHosts
    ensures ValidClaim(x, x.claim.value, r, p)
  {
    assert x.claim.value.volumeGuids.Keys == SetOf(x.claim.value.volumes);
  }

  lemma VerifiedGuids(a: RecordArgs, volumes: seq<Volume>, source: Resource, p: Policy)
    requires ValidResource(source, p) && GuidsComplete(a, volumes, source.placement)
    ensures a.guids.Keys == SetOf(source.placement) && forall n :: n in a.guids ==> 1 <= n <= p.maxHosts
    ensures forall v :: v in a.volumeGuids ==>
              && a.volumeGuids[v].Keys == SetOf(source.placement) && a.volumeGuids[v] != map[]
              && OneGuid(a.volumeGuids[v]) && forall n :: n in a.volumeGuids[v] ==> 1 <= n <= p.maxHosts
  {
    forall v | v in a.volumeGuids
      ensures a.volumeGuids[v].Keys == SetOf(source.placement) && a.volumeGuids[v] != map[]
              && OneGuid(a.volumeGuids[v]) && forall n :: n in a.volumeGuids[v] ==> 1 <= n <= p.maxHosts
    {
      OnThePlacement(a.volumeGuids[v], source.placement, p);
    }
  }

  lemma OnThePlacement(guids: map<Node, string>, placement: seq<Node>, p: Policy)
    requires placement != [] && NodesOk(placement, p) && forall n :: n in placement <==> n in guids
    ensures guids.Keys == SetOf(placement) && guids != map[] && forall n :: n in guids ==> 1 <= n <= p.maxHosts
  {
    assert placement[0] in guids;
  }

  /** A request that matches the intent and has every GUID verifies it exactly once,
      while the guest is snapshotting or replicating. */
  lemma ASnapshotIsVerifiedIff(s: Store, a: RecordArgs, was: Snapshot, x: Snapshot)
    requires Readable(s) && MatchesIntent(s, a) && s.resources[a.name].snapshot == Some(was) && was.claim.Some?
    requires GuidsComplete(a, was.claim.value.volumes, s.resources[Prod(a.name.n)].placement)
    requires IsVerified(x, was, a)
    ensures var r := s.resources[a.name];
            var plan := RecordSnapshot(s, s.policy, a);
            && (plan.outcome == Done <==>
                  !was.claim.value.verified && (a.expected.Some? ==> r.revision == a.expected.value)
                  && (r.state == Snapshotting || r.state == Replicating))
            && (plan.outcome == Unchanged <==> was == x)
            && (plan.outcome == Done ==> plan.writes == [PutResource(With(r, x))])
  {
    var r := s.resources[a.name];
    assert r.name == a.name;
    VerifiedPlan(s, a, was, x, Replace(s, s.policy, With(r, x)));
    if !was.claim.value.verified {
      VerifiedIsLinked(s, a, was, x);
      WithIsRecorded(s, r, x);
    }
  }

  lemma SourceOnRecord(r: Resource, was: Snapshot, p: Policy)
    requires ValidResource(r, p) && r.name.Stage? && r.snapshot == Some(was) && was.claim.Some?
    ensures was.claim.value.source == Prod(r.name.n)
  {
  }

  lemma VerifiedPlan(s: Store, a: RecordArgs, was: Snapshot, x: Snapshot, plan: Plan)
    requires Readable(s) && MatchesIntent(s, a) && s.resources[a.name].snapshot == Some(was) && was.claim.Some?
    requires GuidsComplete(a, was.claim.value.volumes, s.resources[Prod(a.name.n)].placement)
    requires IsVerified(x, was, a) && plan == Replace(s, s.policy, With(s.resources[a.name], x))
    ensures var r := s.resources[a.name];
            RecordSnapshot(s, s.policy, a)
            == if was == x then UNCHANGED
               else if !was.claim.value.verified && (a.expected.Some? ==> r.revision == a.expected.value)
                       && (r.state == Snapshotting || r.state == Replicating)
               then plan
               else REFUSED
  {
    WithIsRevised(s.resources[a.name], x);
    var r, source := s.resources[a.name], s.resources[Prod(a.name.n)];
    assert r.name == a.name && source.name == Prod(a.name.n);
    assert ValidResource(r, s.policy);
    SourceOnRecord(r, was, s.policy);
    GuidsMean(a, was.claim.value, source.placement);
    assert x == was.(guids := a.guids,
                     claim := Some(was.claim.value.(volumeGuids := a.volumeGuids, verified := true)));
  }

  /** Any other request is refused. */
  lemma ASnapshotThatDoesNotMatch(s: Store, a: RecordArgs)
    requires !(MatchesIntent(s, a)
               && GuidsComplete(a, s.resources[a.name].snapshot.value.claim.value.volumes,
                                s.resources[Prod(a.name.n)].placement))
    ensures RecordSnapshot(s, s.policy, a) == Plan(Refused, [])
  {
    if Copied(s, a.name) && s.resources[a.name].snapshot.Some? && s.resources[a.name].snapshot.value.claim.Some? {
      GuidsMean(a, s.resources[a.name].snapshot.value.claim.value, s.resources[Prod(a.name.n)].placement);
    }
  }

  // Shares ------------------------------------------------------------------------------------------

  /** Another copy of the same source has a verified snapshot of the source's present
      volume, and somebody who has it is neither failed nor being cleaned up. */
  ghost predicate MayShare(s: Store, a: ShareArgs, held: Snapshot) {
    && Copied(s, a.name) && a.donor in s.resources && a.donor.Stage? && a.donor.n == a.name.n && a.donor != a.name
    && s.resources[a.donor].snapshot == Some(held)
    && (exists c :: held.claim == Some(c) && c.verified && s.resources[Prod(a.name.n)].volume == Some(c.root))
    && exists n :: KeepsIt(s, n, a.name.n, held.name)
  }

  ghost predicate KeepsIt(s: Store, name: Name, source: nat, snapshot: string) {
    && name in s.resources && name.Stage? && name.n == source
    && s.resources[name].state != CleanupPending && s.resources[name].state != Failed
    && exists h :: s.resources[name].snapshot == Some(h) && h.name == snapshot
  }

  /** The donor's snapshot, with the guest's own entry for itself. */
  predicate IsShare(x: Snapshot, held: Snapshot, name: Name)
    requires held.claim.Some?
  {
    && x.name == held.name && x.owner == held.owner && x.guids == held.guids && x.claim.Some?
    && x.claim.value.source == held.claim.value.source && x.claim.value.root == held.claim.value.root
    && x.claim.value.volumes == held.claim.value.volumes && x.claim.value.verified == held.claim.value.verified
    && x.claim.value.volumeGuids == held.claim.value.volumeGuids
    && x.claim.value.dependents == [name] && x.claim.value.refcount == 1
  }

  lemma ShareIsLinked(s: Store, a: ShareArgs, held: Snapshot, x: Snapshot)
    requires Readable(s) && MayShare(s, a, held) && IsShare(x, held, a.name)
    ensures var r := s.resources[a.name];
            && ValidSnapshot(x, r, s.policy) && Agreed(s, With(r, x))
            && SnapshotLinked(x, With(r, x), s.resources[Prod(a.name.n)])
  {
    var r, donor := s.resources[a.name], s.resources[a.donor];
    assert r.name == a.name && donor.name == a.donor && s.resources[Prod(a.name.n)].name == Prod(a.name.n);
    assert ValidResource(donor, s.policy) && Linked(s.resources, donor);
    ShareIsValid(r, donor, s.resources[Prod(a.name.n)], held, x, s.policy);
    forall n | n in s.resources && n != a.name
      ensures SharingOk(s.resources[n], With(r, x)) && SharingOk(With(r, x), s.resources[n])
    {
      assert s.resources[n].name == n;
      if n != a.donor {
        assert Compatible(s.resources[n], donor);
        SharesAgree(s.resources[n], donor, held, x, With(r, x));
      } else {
        SharesAgree(donor, donor, held, x, With(r, x));
      }
    }
  }

  lemma ShareIsValid(r: Resource, donor: Resource, source: Resource, held: Snapshot, x: Snapshot, p: Policy)
    requires r.name.Stage? && donor.name.Stage? && donor.name.n == r.name.n && source.name == Prod(r.name.n)
    requires donor.snapshot == Some(held) && held.claim.Some? && held.claim.value.verified
    requires ValidResource(donor, p) && SnapshotLinked(held, donor, source) && IsShare(x, held, r.name)
    ensures ValidSnapshot(x, r, p) && SnapshotLinked(x, With(r, x), source)
  {
  }

  lemma SharesAgree(other: Resource, donor: Resource, held: Snapshot, x: Snapshot, now: Resource)
    requires donor.snapshot == Some(held) && held.claim.Some? && held.claim.value.verified
    requires other == donor || SharingOk(other, donor)
    requires donor.name.Stage? && now.name.Stage? && donor.name.n == now.name.n
    requires now.snapshot == Some(x) && IsShare(x, held, now.name)
    ensures SharingOk(other, now) && SharingOk(now, other)
  {
    assert SharedIdentity(x) == SharedIdentity(held);
  }

  lemma LiveMeans(s: Store, n: nat, snapshot: string)
    ensures (exists m :: LiveHolder(s, Prod(n), snapshot, m)) <==> exists m :: KeepsIt(s, m, n, snapshot)
  {
    forall m ensures LiveHolder(s, Prod(n), snapshot, m) <==> KeepsIt(s, m, n, snapshot) {
      if LiveHolder(s, Prod(n), snapshot, m) {
        assert s.resources[m].snapshot == Some(s.resources[m].snapshot.value);
      }
    }
  }

  /** A snapshot that may be shared is, exactly with a guest that is only reserved, has
      none, and links to no backup; the same share again changes nothing. */
  lemma ASnapshotIsSharedIff(s: Store, a: ShareArgs, held: Snapshot, x: Snapshot)
    requires Readable(s) && MayShare(s, a, held) && IsShare(x, held, a.name)
    ensures var r := s.resources[a.name];
            var plan := ShareSnapshot(s, s.policy, a);
            && (plan.outcome == Done <==>
                  r.snapshot == None && r.state == Reserved && r.backup == None
                  && (a.expected.Some? ==> r.revision == a.expected.value))
            && (plan.outcome == Unchanged <==> r.snapshot == Some(x))
            && (plan.outcome == Done ==> plan.writes == [PutResource(With(r, x))])
  {
    assert s.resources[a.name].name == a.name;
    SharePlan(s, a, held, x, Replace(s, s.policy, With(s.resources[a.name], x)));
    ShareIsLinked(s, a, held, x);
    WithIsRecorded(s, s.resources[a.name], x);
  }

  lemma SharePlan(s: Store, a: ShareArgs, held: Snapshot, x: Snapshot, plan: Plan)
    requires Readable(s) && MayShare(s, a, held) && IsShare(x, held, a.name)
    requires plan == Replace(s, s.policy, With(s.resources[a.name], x))
    ensures var r := s.resources[a.name];
            ShareSnapshot(s, s.policy, a)
            == if r.snapshot == Some(x) then UNCHANGED
               else if r.snapshot == None && r.state == Reserved
                       && (a.expected.Some? ==> r.revision == a.expected.value)
               then plan
               else REFUSED
  {
    WithIsRevised(s.resources[a.name], x);
    assert s.resources[Prod(a.name.n)].name == Prod(a.name.n);
    LiveMeans(s, a.name.n, held.name);
    assert x == held.(claim := Some(held.claim.value.(dependents := [a.name], refcount := 1)));
  }

  /** Any other share is refused. */
  lemma AShareThatMayNot(s: Store, a: ShareArgs)
    requires forall held :: !MayShare(s, a, held)
    ensures ShareSnapshot(s, s.policy, a) == Plan(Refused, [])
  {
    if Copied(s, a.name) && a.donor in s.resources && s.resources[a.donor].snapshot.Some? {
      var held := s.resources[a.donor].snapshot.value;
      assert !MayShare(s, a, held);
      if Readable(s) {
        assert s.resources[Prod(a.name.n)].name == Prod(a.name.n);
      }
      LiveMeans(s, a.name.n, held.name);
    }
  }
}
