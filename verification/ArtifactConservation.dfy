/** What every run of repository calls keeps: the four counters equal the sums
    they stand for, quotas are never exceeded, every committed invocation has
    its artifact, and a claimed object has no reference at all. */
module ArtifactConservation {
  import opened Common
  import opened ArtifactLedger
  import opened ArtifactRepository

  function HeldByInvocations(invocations: map<Name, Invocation>): map<Name, Holding> {
    map id | id in invocations ::
      Holding(invocations[id].tenant, invocations[id].objectKey, invocations[id].size, invocations[id].state.Inflight?)
  }

  function HeldByArtifacts(artifacts: map<Name, Artifact>): map<Name, Holding> {
    map id | id in artifacts ::
      Holding(artifacts[id].tenant, artifacts[id].objectKey, artifacts[id].size, artifacts[id].state.Active?)
  }

  /** Reserved bytes per tenant and inflight references per object are the sums
      over the inflight invocations. */
  ghost predicate PledgesBalance(r: Repo) {
    Balanced(r.invocationOrder, HeldByInvocations(r.invocations), r.reserved, r.inflightByObject)
  }

  /** Used bytes per tenant and active references per object are the sums over
      the active artifacts. */
  ghost predicate UsageBalances(r: Repo) {
    Balanced(r.artifactOrder, HeldByArtifacts(r.artifacts), r.used, r.activeByObject)
  }

  function Quota(quotas: map<Name, int>, tenant: Name): int {
    if tenant in quotas && 0 <= quotas[tenant] then quotas[tenant] else 0
  }

  ghost predicate WithinQuota(quotas: map<Name, int>, used: map<Name, int>, reserved: map<Name, int>) {
    forall tenant :: At(used, tenant) + At(reserved, tenant) <= Quota(quotas, tenant)
  }

  predicate Matches(invocation: Invocation, artifact: Artifact) {
    && artifact.artifactId == invocation.artifactId
    && artifact.invocationId == invocation.invocationId
    && artifact.tenant == invocation.tenant
    && artifact.requestDigest == invocation.requestDigest
    && artifact.objectKey == invocation.objectKey
    && artifact.size == invocation.size
  }

  /** Every invocation holds the reservation of its own artifact identifier, and
      committed invocations correspond one to one with artifacts. */
  ghost predicate Linked(invocations: map<Name, Invocation>, artifacts: map<Name, Artifact>,
                         reservations: map<Name, Name>) {
    && (forall id | id in invocations ::
          && invocations[id].invocationId == id
          && invocations[id].artifactId in reservations
          && reservations[invocations[id].artifactId] == id
          && (invocations[id].state.Committed? ==> invocations[id].artifactId in artifacts))
    && (forall id | id in artifacts ::
          && artifacts[id].artifactId == id
          && artifacts[id].invocationId in invocations
          && invocations[artifacts[id].invocationId].state.Committed?
          && Matches(invocations[artifacts[id].invocationId], artifacts[id]))
  }

  /** The per-object index lists exactly the artifacts stored under the object. */
  ghost predicate Indexed(index: map<Name, seq<Name>>, artifacts: map<Name, Artifact>) {
    forall key, id :: id in Listed(index, key) <==> id in artifacts && artifacts[id].objectKey == key
  }

  /** A claimed object has neither an inflight nor an active reference. */
  ghost predicate Unreferenced(sweeps: map<Name, Sweep>, inflight: map<Name, int>, active: map<Name, int>) {
    forall key | key in sweeps :: At(inflight, key) == 0 && At(active, key) == 0
  }

  /** Claims are filed under their object, with distinct tokens and orders that were issued before. */
  ghost predicate Numbered(sweeps: map<Name, Sweep>, token: nat, order: nat, lease: nat) {
    && (forall key | key in sweeps ::
          && sweeps[key].claim.objectKey == key
          && sweeps[key].claim.token <= token
          && sweeps[key].claim.leaseToken <= lease
          && sweeps[key].order <= order)
    && (forall key, other | key in sweeps && other in sweeps && key != other ::
          sweeps[key].order != sweeps[other].order && sweeps[key].claim.token != sweeps[other].claim.token)
  }

  predicate LeaseCurrent(held: bool, lease: Lease, issued: nat) {
    if held then lease.token == issued && 0 < issued else lease == NO_LEASE
  }

  ghost predicate Sound(r: Repo) {
    && PledgesBalance(r)
    && UsageBalances(r)
    && WithinQuota(r.quotas, r.used, r.reserved)
    && Linked(r.invocations, r.artifacts, r.artifactReservations)
    && Indexed(r.artifactsByObject, r.artifacts)
    && Unreferenced(r.sweeps, r.inflightByObject, r.activeByObject)
    && Numbered(r.sweeps, r.nextSweepToken, r.nextSweepOrder, r.nextLeaseToken)
    && LeaseCurrent(r.leaseHeld, r.lease, r.nextLeaseToken)
  }

  /** An object with an inflight invocation or an active artifact counts at
      least one reference, so it carries no claim. */
  lemma ReferencedIsUnclaimed(r: Repo)
    requires Sound(r)
    ensures forall id | id in r.invocations && r.invocations[id].state.Inflight? ::
              r.invocations[id].objectKey !in r.sweeps
    ensures forall id | id in r.artifacts && r.artifacts[id].state.Active? ::
              r.artifacts[id].objectKey !in r.sweeps
  {
    hide Balanced, Sum;
    var pledged, stored := HeldByInvocations(r.invocations), HeldByArtifacts(r.artifacts);
    Counted(r.invocationOrder, pledged, r.reserved, r.inflightByObject);
    Counted(r.artifactOrder, stored, r.used, r.activeByObject);
    forall id | id in r.invocations && r.invocations[id].state.Inflight?
      ensures r.invocations[id].objectKey !in r.sweeps {
      assert pledged[id].live;
    }
    forall id | id in r.artifacts && r.artifacts[id].state.Active? ensures r.artifacts[id].objectKey !in r.sweeps {
      assert stored[id].live;
    }
  }

  // ----- links and holdings of single updates -----

  predicate SameIdentity(before: Invocation, after: Invocation) {
    && before.invocationId == after.invocationId
    && before.artifactId == after.artifactId
    && before.tenant == after.tenant
    && before.requestDigest == after.requestDigest
    && before.objectKey == after.objectKey
    && before.size == after.size
  }

  predicate SameArtifact(before: Artifact, after: Artifact) {
    && before.artifactId == after.artifactId
    && before.invocationId == after.invocationId
    && before.tenant == after.tenant
    && before.requestDigest == after.requestDigest
    && before.objectKey == after.objectKey
    && before.size == after.size
  }

  lemma LinkReserved(invocations: map<Name, Invocation>, artifacts: map<Name, Artifact>, reservations: map<Name, Name>,
                     next: Invocation)
    requires Linked(invocations, artifacts, reservations)
    requires next.invocationId !in invocations && next.artifactId !in reservations && next.state.Inflight?
    ensures Linked(invocations[next.invocationId := next], artifacts,
                   reservations[next.artifactId := next.invocationId])
  {
  }

  lemma LinkAdvanced(invocations: map<Name, Invocation>, artifacts: map<Name, Artifact>, reservations: map<Name, Name>,
                     id: Name, next: Invocation)
    requires Linked(invocations, artifacts, reservations)
    requires id in invocations && SameIdentity(invocations[id], next)
    requires invocations[id].state.Committed? == next.state.Committed?
    ensures Linked(invocations[id := next], artifacts, reservations)
  {
  }

  lemma LinkSettled(invocations: map<Name, Invocation>, artifacts: map<Name, Artifact>, reservations: map<Name, Name>,
                    invocation: Invocation, artifact: Artifact)
    requires Linked(invocations, artifacts, reservations)
    requires invocation.invocationId in invocations && invocations[invocation.invocationId] == invocation
    requires Settles(invocation, artifact) && artifact.artifactId !in artifacts
    ensures Linked(invocations[invocation.invocationId := invocation.(state := Committed)],
                   artifacts[artifact.artifactId := artifact], reservations)
  {
  }

  lemma LinksAged(invocations: map<Name, Invocation>, artifacts: map<Name, Artifact>, reservations: map<Name, Name>,
                  aged: map<Name, Artifact>)
    requires Linked(invocations, artifacts, reservations)
    requires aged.Keys == artifacts.Keys && forall id | id in artifacts :: SameArtifact(artifacts[id], aged[id])
    ensures Linked(invocations, aged, reservations)
  {
    forall id | id in aged ensures SameArtifact(artifacts[id], aged[id]) {
      assert id in artifacts;
    }
    forall id | id in artifacts ensures id in aged {
      assert id in aged.Keys;
    }
  }

  lemma IndexAged(index: map<Name, seq<Name>>, artifacts: map<Name, Artifact>, aged: map<Name, Artifact>)
    requires Indexed(index, artifacts)
    requires aged.Keys == artifacts.Keys && forall id | id in artifacts :: SameArtifact(artifacts[id], aged[id])
    ensures Indexed(index, aged)
  {
    forall key, id ensures id in Listed(index, key) <==> id in aged && aged[id].objectKey == key {
      assert id in aged <==> id in artifacts;
    }
  }

  lemma ArtifactAged(invocations: map<Name, Invocation>, artifacts: map<Name, Artifact>, reservations: map<Name, Name>,
                     index: map<Name, seq<Name>>, id: Name, next: Artifact)
    requires Linked(invocations, artifacts, reservations) && Indexed(index, artifacts)
    requires id in artifacts && SameArtifact(artifacts[id], next)
    ensures Linked(invocations, artifacts[id := next], reservations) && Indexed(index, artifacts[id := next])
  {
    hide Linked, Indexed;
    assert artifacts[id := next].Keys == artifacts.Keys;
    LinksAged(invocations, artifacts, reservations, artifacts[id := next]);
    IndexAged(index, artifacts, artifacts[id := next]);
  }

  lemma PledgeClosed(r: Repo, id: Name, next: Invocation)
    requires PledgesBalance(r) && id in r.invocations && r.invocations[id].state.Inflight?
    requires SameIdentity(r.invocations[id], next) && !next.state.Inflight?
    ensures Balanced(r.invocationOrder, HeldByInvocations(r.invocations[id := next]),
                     Bump(r.reserved, next.tenant, -next.size), Bump(r.inflightByObject, next.objectKey, -1))
    ensures 0 <= next.size
  {
    hide Sum;
    var pledged := HeldByInvocations(r.invocations);
    assert 0 <= pledged[id].size;
    hide Balanced;
    assert HeldByInvocations(r.invocations[id := next]) == pledged[id := pledged[id].(live := false)];
    Closed(r.invocationOrder, pledged, r.reserved, r.inflightByObject, id);
  }

  lemma UsageClosed(r: Repo, id: Name, next: Artifact)
    requires UsageBalances(r) && id in r.artifacts && r.artifacts[id].state.Active?
    requires SameArtifact(r.artifacts[id], next) && !next.state.Active?
    ensures Balanced(r.artifactOrder, HeldByArtifacts(r.artifacts[id := next]),
                     Bump(r.used, next.tenant, -next.size), Bump(r.activeByObject, next.objectKey, -1))
    ensures 0 <= next.size
  {
    hide Sum;
    var stored := HeldByArtifacts(r.artifacts);
    assert 0 <= stored[id].size;
    hide Balanced;
    assert HeldByArtifacts(r.artifacts[id := next]) == stored[id := stored[id].(live := false)];
    Closed(r.artifactOrder, stored, r.used, r.activeByObject, id);
  }

  lemma QuotaMoved(quotas: map<Name, int>, used: map<Name, int>, reserved: map<Name, int>, tenant: Name, use: int,
                   pledge: int)
    requires WithinQuota(quotas, used, reserved)
    requires use + pledge <= 0 || At(used, tenant) + At(reserved, tenant) + use + pledge <= Quota(quotas, tenant)
    ensures WithinQuota(quotas, Bump(used, tenant, use), Bump(reserved, tenant, pledge))
    ensures use == 0 ==> WithinQuota(quotas, used, Bump(reserved, tenant, pledge))
    ensures pledge == 0 ==> WithinQuota(quotas, Bump(used, tenant, use), reserved)
  {
  }

  lemma UnreferencedElsewhere(sweeps: map<Name, Sweep>, inflight: map<Name, int>, active: map<Name, int>, key: Name,
                              pledge: int, use: int)
    requires Unreferenced(sweeps, inflight, active) && key !in sweeps
    ensures Unreferenced(sweeps, Bump(inflight, key, pledge), active)
    ensures Unreferenced(sweeps, inflight, Bump(active, key, use))
    ensures Unreferenced(sweeps, Bump(inflight, key, pledge), Bump(active, key, use))
  {
  }

  // ----- one transition at a time -----

  lemma AdmitSound(r: Repo, request: Reservation)
    requires Sound(r)
    requires request.invocationId !in r.invocations && request.objectKey !in r.sweeps
    requires request.artifactId !in r.artifactReservations
    requires 0 <= request.size
             <= Quota(r.quotas, request.tenant) - At(r.used, request.tenant) - At(r.reserved, request.tenant)
    ensures Sound(Admit(r, request))
  {
    hide Balanced, Indexed, Numbered, Linked, WithinQuota, Unreferenced;
    var s := Admit(r, request);
    QuotaMoved(r.quotas, r.used, r.reserved, request.tenant, 0, request.size);
    UnreferencedElsewhere(r.sweeps, r.inflightByObject, r.activeByObject, request.objectKey, 1, 0);
    var pledged := HeldByInvocations(r.invocations);
    var added := Holding(request.tenant, request.objectKey, request.size, true);
    assert HeldByInvocations(s.invocations) == pledged[request.invocationId := added];
    Opened(r.invocationOrder, pledged, r.reserved, r.inflightByObject, request.invocationId, added);
    LinkReserved(r.invocations, r.artifacts, r.artifactReservations, Reserved(request));
  }

  lemma HeartbeatSound(r: Repo, id: Name, digest: Name, generation: nat, now: int)
    requires Sound(r)
    ensures Sound(HeartbeatCreate(r, id, digest, generation, now))
  {
    hide Balanced, Indexed, Numbered, Unreferenced, WithinQuota, Linked;
    var s := HeartbeatCreate(r, id, digest, generation, now);
    if s != r {
      assert HeldByInvocations(s.invocations) == HeldByInvocations(r.invocations);
      LinkAdvanced(r.invocations, r.artifacts, r.artifactReservations, id, s.invocations[id]);
    }
  }

  lemma SettleIndexed(r: Repo, invocation: Invocation, artifact: Artifact)
    requires Indexed(r.artifactsByObject, r.artifacts) && artifact.artifactId !in r.artifacts
    ensures Indexed(Settle(r, invocation, artifact).artifactsByObject, Settle(r, invocation, artifact).artifacts)
  {
    var s := Settle(r, invocation, artifact);
    forall key, id ensures id in Listed(s.artifactsByObject, key)
      <==> id in s.artifacts && s.artifacts[id].objectKey == key {
      assert id in Listed(r.artifactsByObject, key) <==> id in r.artifacts && r.artifacts[id].objectKey == key;
    }
  }

  lemma SettleSound(r: Repo, invocation: Invocation, artifact: Artifact)
    requires Sound(r) && invocation.invocationId in r.invocations
    requires r.invocations[invocation.invocationId] == invocation && invocation.state.Inflight?
    requires Settles(invocation, artifact) && artifact.artifactId !in r.artifacts
    ensures Sound(Settle(r, invocation, artifact))
  {
    hide Balanced, Numbered, Indexed, Listed, Linked, WithinQuota, Unreferenced;
    var s := Settle(r, invocation, artifact);
    QuotaMoved(r.quotas, r.used, r.reserved, artifact.tenant, artifact.size, -artifact.size);
    ReferencedIsUnclaimed(r);
    UnreferencedElsewhere(r.sweeps, r.inflightByObject, r.activeByObject, artifact.objectKey, -1, 1);
    PledgeClosed(r, invocation.invocationId, invocation.(state := Committed));
    var added := Holding(artifact.tenant, artifact.objectKey, artifact.size, true);
    assert HeldByArtifacts(s.artifacts) == HeldByArtifacts(r.artifacts)[artifact.artifactId := added];
    Opened(r.artifactOrder, HeldByArtifacts(r.artifacts), r.used, r.activeByObject, artifact.artifactId, added);
    SettleIndexed(r, invocation, artifact);
    LinkSettled(r.invocations, r.artifacts, r.artifactReservations, invocation, artifact);
  }

  lemma EntombSound(r: Repo, id: Name, now: int)
    requires Sound(r) && id in r.artifacts && r.artifacts[id].state.Active?
    ensures Sound(Entomb(r, id, now))
  {
    hide Balanced, Numbered, Linked, Indexed, RecordTombstone, WithinQuota, Unreferenced;
    var s := Entomb(r, id, now);
    var record := r.artifacts[id];
    assert record.objectKey !in r.sweeps by { ReferencedIsUnclaimed(r); }
    assert UsageBalances(s) && 0 <= record.size by { UsageClosed(r, id, s.artifacts[id]); }
    hide HeldByArtifacts, HeldByInvocations;
    QuotaMoved(r.quotas, r.used, r.reserved, record.tenant, -record.size, 0);
    UnreferencedElsewhere(r.sweeps, r.inflightByObject, r.activeByObject, record.objectKey, 0, -1);
    ArtifactAged(r.invocations, r.artifacts, r.artifactReservations, r.artifactsByObject, id, s.artifacts[id]);
  }

  lemma {:induction false} EntombAllSound(r: Repo, ids: seq<Name>, now: int)
    requires Sound(r)
    ensures Sound(EntombAll(r, ids, now))
  {
    hide Sound, Entomb;
    if ids != [] {
      EntombAllSound(r, ids[..|ids| - 1], now);
      var before := EntombAll(r, ids[..|ids| - 1], now);
      if Expired(before, ids[|ids| - 1], now) {
        EntombSound(before, ids[|ids| - 1], now);
      }
    }
  }

  lemma AbandonSound(r: Repo, id: Name)
    requires Sound(r) && id in r.invocations && r.invocations[id].state.Inflight?
    ensures Sound(Abandon(r, id))
  {
    hide Balanced, Numbered, Linked, Indexed, WithinQuota, Unreferenced;
    var s := Abandon(r, id);
    var record := r.invocations[id];
    PledgeClosed(r, id, s.invocations[id]);
    QuotaMoved(r.quotas, r.used, r.reserved, record.tenant, 0, -record.size);
    ReferencedIsUnclaimed(r);
    UnreferencedElsewhere(r.sweeps, r.inflightByObject, r.activeByObject, record.objectKey, -1, 0);
    LinkAdvanced(r.invocations, r.artifacts, r.artifactReservations, id, s.invocations[id]);
  }

  lemma {:induction false} AbandonAllSound(r: Repo, ids: seq<Name>, heartbeatBefore: int)
    requires Sound(r)
    ensures Sound(AbandonAll(r, ids, heartbeatBefore))
  {
    hide Sound, Abandon;
    if ids != [] {
      AbandonAllSound(r, ids[..|ids| - 1], heartbeatBefore);
      var before := AbandonAll(r, ids[..|ids| - 1], heartbeatBefore);
      if Lapsed(before, ids[|ids| - 1], heartbeatBefore) {
        AbandonSound(before, ids[|ids| - 1]);
      }
    }
  }

  /** The selection of the oldest claims names claims, each once. */
  lemma {:induction false} OldestListsClaims(sweeps: map<Name, Sweep>, count: nat)
    ensures Distinct(Oldest(sweeps, count))
    ensures forall key | key in Oldest(sweeps, count) :: key in sweeps
    ensures |Oldest(sweeps, count)| <= count
  {
    if count != 0 && sweeps != map[] {
      OldestListsClaims(sweeps - {Least(sweeps)}, count - 1);
    }
  }

  /** Offering moves exactly the listed claims, to fresh orders, and changes only their lease token. */
  lemma {:induction false} OfferEffect(sweeps: map<Name, Sweep>, keys: seq<Name>, order: nat, leaseToken: nat)
    requires Distinct(keys) && forall key | key in keys :: key in sweeps
    ensures Offer(sweeps, keys, order, leaseToken).Keys == sweeps.Keys
    ensures forall i | 0 <= i < |keys| ::
              Offer(sweeps, keys, order, leaseToken)[keys[i]]
              == Sweep(sweeps[keys[i]].claim.(leaseToken := leaseToken), order + i + 1)
    ensures forall key | key in sweeps && key !in keys ::
              Offer(sweeps, keys, order, leaseToken)[key] == sweeps[key]
  {
    if keys != [] {
      var prefix := keys[..|keys| - 1];
      assert keys == prefix + [keys[|keys| - 1]];
      OfferEffect(sweeps, prefix, order, leaseToken);
    }
  }

  lemma OfferNumbered(sweeps: map<Name, Sweep>, keys: seq<Name>, token: nat, order: nat, lease: nat)
    requires Numbered(sweeps, token, order, lease)
    requires Distinct(keys) && forall key | key in keys :: key in sweeps
    ensures Numbered(Offer(sweeps, keys, order, lease), token, order + |keys|, lease)
  {
    hide Offer;
    OfferEffect(sweeps, keys, order, lease);
    var offered := Offer(sweeps, keys, order, lease);
    forall key | key in offered
      ensures offered[key].claim == sweeps[key].claim.(leaseToken := offered[key].claim.leaseToken)
      ensures offered[key] == sweeps[key]
              || exists i :: 0 <= i < |keys| && keys[i] == key && offered[key].order == order + i + 1
      ensures offered[key].claim.leaseToken <= lease
    {
      if key in keys {
        var i :| 0 <= i < |keys| && keys[i] == key;
      }
    }
  }

  lemma PendingSound(r: Repo, lease: Lease, limit: int)
    requires Sound(r)
    ensures Sound(PendingSweepsPage(r, lease, limit))
  {
    hide Balanced, Numbered, Indexed, Offer, Oldest, WithinQuota, Linked;
    if BatchSize(limit) && Leased(r, lease) {
      var keys := Oldest(r.sweeps, limit);
      OldestListsClaims(r.sweeps, limit);
      OfferEffect(r.sweeps, keys, r.nextSweepOrder, lease.token);
      OfferNumbered(r.sweeps, keys, r.nextSweepToken, r.nextSweepOrder, r.nextLeaseToken);
    }
  }

  lemma ClaimSound(r: Repo, lease: Lease, key: Name, version: nat, before: int)
    requires Sound(r)
    ensures Sound(ClaimSweepLeased(r, lease, key, version, before))
  {
    hide Balanced, Indexed, WithinQuota, Linked;
  }

  /** Purging touches only listed tombstoned artifacts, and leaves none of them tombstoned. */
  lemma {:induction false} PurgeEffect(artifacts: map<Name, Artifact>, ids: seq<Name>, now: int)
    ensures PurgeAll(artifacts, ids, now).Keys == artifacts.Keys
    ensures forall id | id in artifacts ::
              PurgeAll(artifacts, ids, now)[id]
              == if id in ids && artifacts[id].state.Tombstoned?
                 then artifacts[id].(state := Purged, purgedAt := When(now)) else artifacts[id]
  {
    if ids != [] {
      var prefix := ids[..|ids| - 1];
      assert ids == prefix + [ids[|ids| - 1]];
      PurgeEffect(artifacts, prefix, now);
    }
  }

  lemma UnsweepSound(r: Repo, key: Name)
    requires Sound(r)
    ensures Sound(Unsweep(r, key))
  {
    hide Balanced, Indexed, WithinQuota, Linked;
  }

  lemma PurgedAlike(artifacts: map<Name, Artifact>, ids: seq<Name>, now: int)
    ensures PurgeAll(artifacts, ids, now).Keys == artifacts.Keys
    ensures forall id | id in artifacts ::
              && SameArtifact(artifacts[id], PurgeAll(artifacts, ids, now)[id])
              && (artifacts[id].state.Active? <==> PurgeAll(artifacts, ids, now)[id].state.Active?)
  {
    hide PurgeAll;
    PurgeEffect(artifacts, ids, now);
  }

  lemma PurgeSound(r: Repo, ids: seq<Name>, now: int, latest: map<Name, int>)
    requires Sound(r)
    ensures Sound(r.(artifacts := PurgeAll(r.artifacts, ids, now), latestTombstone := latest))
  {
    hide Balanced, WithinQuota, Linked, Indexed, Numbered, Unreferenced, PurgeAll, HeldByArtifacts, HeldByInvocations,
         SameArtifact;
    var purged := PurgeAll(r.artifacts, ids, now);
    PurgedAlike(r.artifacts, ids, now);
    HeldUnchanged(r.artifacts, purged);
    LinksAged(r.invocations, r.artifacts, r.artifactReservations, purged);
    IndexAged(r.artifactsByObject, r.artifacts, purged);
  }

  lemma HeldUnchanged(artifacts: map<Name, Artifact>, aged: map<Name, Artifact>)
    requires aged.Keys == artifacts.Keys
    requires forall id | id in artifacts ::
             SameArtifact(artifacts[id], aged[id]) && (artifacts[id].state.Active? <==> aged[id].state.Active?)
    ensures HeldByArtifacts(aged) == HeldByArtifacts(artifacts)
  {
    forall id ensures id in aged <==> id in artifacts {
      assert id in aged.Keys <==> id in artifacts.Keys;
    }
  }

  lemma CallSound(r: Repo, call: Call)
    requires Sound(r)
    ensures Sound(Apply(r, call))
  {
    hide Balanced, WithinQuota, Linked, Indexed, Unreferenced, Numbered;
    hide Entomb, EntombAll, Abandon, AbandonAll, PurgeAll, Admit, Settle, HeartbeatCreate, PendingSweepsPage,
         ClaimSweepLeased;
    match call
    case Begin(request) => BeginSound(r, request);
    case Heartbeat(id, digest, generation, now) => HeartbeatSound(r, id, digest, generation, now);
    case Commit(id, digest, generation, artifact) => CommitSound(r, id, digest, generation, artifact);
    case Tombstone(id, tenant, now) =>
      if id in r.artifacts && r.artifacts[id].state.Active? { EntombSound(r, id, now); }
    case ExpirePage(lease, now, after, limit) =>
      var page := ScanPage(r, lease, after, |r.artifactOrder|, limit);
      if page.Page? { EntombAllSound(r, r.artifactOrder[page.start..page.end], now); }
    case AbandonPage(lease, before, after, limit) =>
      var page := ScanPage(r, lease, after, |r.invocationOrder|, limit);
      if page.Page? { AbandonAllSound(r, r.invocationOrder[page.start..page.end], before); }
    case Acquire(now, duration) => AcquireSound(r, now, duration);
    case Pending(lease, limit) => PendingSound(r, lease, limit);
    case Claim(lease, key, version, before) => ClaimSound(r, lease, key, version, before);
    case Retire(lease, claim) => UnsweepSound(r, claim.objectKey);
    case Finish(lease, claim, deleted, now) => FinishSound(r, lease, claim, deleted, now);
    case _ =>
  }

  lemma BeginSound(r: Repo, request: Reservation)
    requires Sound(r)
    ensures Sound(BeginCreate(r, request))
  {
    hide Sound, Admit;
    var s := BeginCreate(r, request);
    if s != r {
      AdmitSound(r, request);
    }
  }

  lemma CommitSound(r: Repo, id: Name, digest: Name, generation: nat, artifact: Artifact)
    requires Sound(r)
    ensures Sound(CommitCreate(r, id, digest, generation, artifact))
  {
    hide Balanced, WithinQuota, Indexed, Unreferenced, Numbered, Settle;
    var s := CommitCreate(r, id, digest, generation, artifact);
    if s != r {
      SettleSound(r, r.invocations[id], artifact);
    }
  }

  lemma AcquireSound(r: Repo, now: int, duration: int)
    requires Sound(r)
    ensures Sound(AcquireGC(r, now, duration))
  {
    hide Balanced, WithinQuota, Linked, Indexed, Unreferenced;
  }

  lemma FinishSound(r: Repo, lease: Lease, claim: SweepClaim, deleted: bool, now: int)
    requires Sound(r)
    ensures Sound(FinishSweepLeased(r, lease, claim, deleted, now))
  {
    hide Sound, PurgeAll;
    var ids := Listed(r.artifactsByObject, claim.objectKey);
    UnsweepSound(r, claim.objectKey);
    PurgeSound(Unsweep(r, claim.objectKey), ids, now, r.latestTombstone - {claim.objectKey});
  }

  lemma {:induction false} RunKeepsSound(r: Repo, calls: seq<Call>)
    requires Sound(r)
    ensures Sound(Run(r, calls))
  {
    hide Sound, Apply;
    if calls != [] {
      RunKeepsSound(r, calls[..|calls| - 1]);
      CallSound(Run(r, calls[..|calls| - 1]), calls[|calls| - 1]);
    }
  }

  /** Conservation over every run: whatever calls are made, in whatever order,
      the repository stays sound. */
  lemma RunSound(quotas: map<Name, int>, calls: seq<Call>)
    ensures Sound(Run(Initial(quotas), calls))
  {
    hide Sound, Run;
    InitialSound(quotas);
    RunKeepsSound(Initial(quotas), calls);
  }

  lemma InitialSound(quotas: map<Name, int>)
    ensures Sound(Initial(quotas))
  {
    var r := Initial(quotas);
    forall gauge ensures Reading(r.reserved, r.inflightByObject, gauge) == Sum([], map[], gauge) {}
  }
}
