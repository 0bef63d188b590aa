/** The artifact metadata repository: every mutex-protected method as one
    transition on the repository state. */
module ArtifactRepository {
  import opened Common

  const MAXIMUM_GC_BATCH := 4096

  datatype Failure =
    | InvalidRequest
    | AccessDenied
    | InvocationConflict
    | InvocationAbandoned
    | QuotaExceeded
    | ArtifactNotFound
    | StorageCorruption
    | GCInProgress
    | RepositoryConflict

  datatype InvocationState = Inflight | Committed | Abandoned

  /** `details` stands for the session, workspace, source and metadata fields,
      which the repository copies and never inspects. */
  datatype Invocation = Invocation(
    tenant: Name, invocationId: Name, requestDigest: Name, artifactId: Name,
    objectKey: Name, contentDigest: Name, size: int, startedAt: int, heartbeatAt: int,
    generation: nat, state: InvocationState, details: Name)

  datatype Moment = Never | When(at: int)

  datatype ArtifactState = Active | Tombstoned | Purged

  datatype Artifact = Artifact(
    artifactId: Name, tenant: Name, invocationId: Name, requestDigest: Name,
    objectKey: Name, contentDigest: Name, size: int, createdAt: int, retainUntil: int,
    state: ArtifactState, tombstonedAt: Moment, purgedAt: Moment, details: Name)

  datatype Reservation = Reservation(
    tenant: Name, invocationId: Name, requestDigest: Name, artifactId: Name,
    objectKey: Name, contentDigest: Name, size: int, startedAt: int, details: Name)

  datatype SweepClaim = SweepClaim(objectKey: Name, objectVersion: nat, token: nat, leaseToken: nat)

  datatype Sweep = Sweep(claim: SweepClaim, order: nat)

  /** A page cursor: the empty text, a "start:highwater" pair, or text that does not parse. */
  datatype Cursor = Fresh | Resume(start: int, highwater: int) | Malformed

  datatype Checkpoint = Checkpoint(expired: Cursor, inflight: Cursor, blobEpoch: nat, blobCursor: nat)

  datatype Lease = Lease(token: nat, expiresAt: int, checkpoint: Checkpoint)

  const NO_CHECKPOINT := Checkpoint(Fresh, Fresh, 0, 0)
  const NO_LEASE := Lease(0, 0, NO_CHECKPOINT)

  datatype Repo = Repo(
    quotas: map<Name, int>, used: map<Name, int>, reserved: map<Name, int>,
    invocations: map<Name, Invocation>, invocationOrder: seq<Name>,
    artifactReservations: map<Name, Name>, inflightByObject: map<Name, int>,
    artifacts: map<Name, Artifact>, artifactOrder: seq<Name>,
    activeByObject: map<Name, int>, latestTombstone: map<Name, int>,
    artifactsByObject: map<Name, seq<Name>>,
    sweeps: map<Name, Sweep>, nextSweepToken: nat, nextSweepOrder: nat,
    checkpoint: Checkpoint, lease: Lease, leaseHeld: bool, nextLeaseToken: nat)

  function Initial(quotas: map<Name, int>): Repo {
    Repo(quotas, map[], map[], map[], [], map[], map[], map[], [], map[], map[], map[],
         map[], 0, 0, NO_CHECKPOINT, NO_LEASE, false, 0)
  }

  /** What a repository call answers. */
  datatype Reply =
    | Refused(error: Failure)
    | Invoked(invocation: Invocation, replayed: bool)
    | Stored(artifact: Artifact, changed: bool)
    | Scanned(count: nat, next: Cursor, done: bool)
    | Granted(lease: Lease)
    | Busy
    | Offered(claims: seq<SweepClaim>)
    | Claimed(claim: SweepClaim)
    | Skipped
    | Done(purged: nat)

  // ----- creation -----

  function Reserved(request: Reservation): Invocation {
    Invocation(request.tenant, request.invocationId, request.requestDigest, request.artifactId,
               request.objectKey, request.contentDigest, request.size, request.startedAt,
               request.startedAt, 1, Inflight, request.details)
  }

  function Admit(r: Repo, request: Reservation): Repo {
    r.(invocations := r.invocations[request.invocationId := Reserved(request)],
       invocationOrder := r.invocationOrder + [request.invocationId],
       artifactReservations := r.artifactReservations[request.artifactId := request.invocationId],
       inflightByObject := Bump(r.inflightByObject, request.objectKey, 1),
       reserved := Bump(r.reserved, request.tenant, request.size))
  }

  predicate Affordable(r: Repo, request: Reservation) {
    && request.tenant in r.quotas && 0 <= r.quotas[request.tenant] && 0 <= request.size
    && request.size <= r.quotas[request.tenant] - At(r.used, request.tenant) - At(r.reserved, request.tenant)
  }

  predicate Admissible(r: Repo, request: Reservation) {
    && request.invocationId !in r.invocations
    && request.objectKey !in r.sweeps
    && Affordable(r, request)
    && request.artifactId !in r.artifacts && request.artifactId !in r.artifactReservations
  }

  function BeginCreate(r: Repo, request: Reservation): Repo {
    if Admissible(r, request) then Admit(r, request) else r
  }

  function BeginReply(r: Repo, request: Reservation): Reply {
    if request.invocationId in r.invocations then
      var existing := r.invocations[request.invocationId];
      if existing.tenant != request.tenant || existing.requestDigest != request.requestDigest
      then Refused(InvocationConflict) else Invoked(existing, true)
    else if request.objectKey in r.sweeps then Refused(GCInProgress)
    else if !Affordable(r, request) then Refused(QuotaExceeded)
    else if request.artifactId in r.artifacts || request.artifactId in r.artifactReservations
            then Refused(RepositoryConflict)
    else Invoked(Reserved(request), false)
  }

  /** The invocation a heartbeat or commit may act on: same request, still inflight, same generation. */
  predicate Live(r: Repo, invocationId: Name, requestDigest: Name, generation: nat) {
    && invocationId in r.invocations
    && r.invocations[invocationId].requestDigest == requestDigest
    && r.invocations[invocationId].state.Inflight?
    && r.invocations[invocationId].generation == generation
  }

  function HeartbeatCreate(r: Repo, invocationId: Name, requestDigest: Name, generation: nat, now: int): Repo {
    if Live(r, invocationId, requestDigest, generation) && r.invocations[invocationId].heartbeatAt < now
    then r.(invocations := r.invocations[invocationId := r.invocations[invocationId].(heartbeatAt := now)])
    else r
  }

  function HeartbeatReply(r: Repo, invocationId: Name, requestDigest: Name, generation: nat, now: int): Reply {
    if invocationId !in r.invocations then Refused(RepositoryConflict) else
    var record := r.invocations[invocationId];
    if record.requestDigest != requestDigest then Refused(InvocationConflict)
    else if record.state.Abandoned? then Refused(InvocationAbandoned)
    else if record.generation != generation then Refused(RepositoryConflict)
    else if record.state.Committed? || now <= record.heartbeatAt then Invoked(record, false)
    else Invoked(record.(heartbeatAt := now), false)
  }

  /** What a commit must repeat of the reservation it settles. */
  predicate Settles(invocation: Invocation, artifact: Artifact) {
    && artifact.artifactId == invocation.artifactId
    && artifact.tenant == invocation.tenant
    && artifact.invocationId == invocation.invocationId
    && artifact.requestDigest == invocation.requestDigest
    && artifact.objectKey == invocation.objectKey
    && artifact.size == invocation.size
    && artifact.state.Active?
  }

  function Listed(index: map<Name, seq<Name>>, key: Name): seq<Name> {
    if key in index then index[key] else []
  }

  function Settle(r: Repo, invocation: Invocation, artifact: Artifact): Repo {
    r.(artifacts := r.artifacts[artifact.artifactId := artifact],
       artifactOrder := r.artifactOrder + [artifact.artifactId],
       artifactsByObject :=
         r.artifactsByObject[artifact.objectKey := Listed(r.artifactsByObject, artifact.objectKey)
                             + [artifact.artifactId]],
       inflightByObject := Bump(r.inflightByObject, artifact.objectKey, -1),
       activeByObject := Bump(r.activeByObject, artifact.objectKey, 1),
       reserved := Bump(r.reserved, artifact.tenant, -artifact.size),
       used := Bump(r.used, artifact.tenant, artifact.size),
       invocations := r.invocations[invocation.invocationId := invocation.(state := Committed)])
  }

  function CommitCreate(r: Repo, invocationId: Name, requestDigest: Name, generation: nat, artifact: Artifact): Repo {
    if Live(r, invocationId, requestDigest, generation) && Settles(r.invocations[invocationId], artifact)
       && artifact.artifactId !in r.artifacts
    then Settle(r, r.invocations[invocationId], artifact) else r
  }

  function CommitReply(r: Repo, invocationId: Name, requestDigest: Name, generation: nat, artifact: Artifact): Reply {
    if invocationId !in r.invocations then Refused(RepositoryConflict) else
    var invocation := r.invocations[invocationId];
    if invocation.requestDigest != requestDigest then Refused(InvocationConflict)
    else if invocation.state.Abandoned? then Refused(InvocationAbandoned)
    else if invocation.state.Committed? then
      if invocation.artifactId in r.artifacts then Stored(r.artifacts[invocation.artifactId], false)
      else Refused(StorageCorruption)
    else if invocation.generation != generation then Refused(RepositoryConflict)
    else if !Settles(invocation, artifact) then Refused(RepositoryConflict)
    else if artifact.artifactId in r.artifacts then Refused(RepositoryConflict)
    else Stored(artifact, true)
  }

  // ----- retirement -----

  function RecordTombstone(latest: map<Name, int>, key: Name, now: int): map<Name, int> {
    if key !in latest || latest[key] < now then latest[key := now] else latest
  }

  function Entomb(r: Repo, id: Name, now: int): Repo
    requires id in r.artifacts
  {
    var record := r.artifacts[id];
    r.(artifacts := r.artifacts[id := record.(state := Tombstoned, tombstonedAt := When(now))],
       used := Bump(r.used, record.tenant, -record.size),
       activeByObject := Bump(r.activeByObject, record.objectKey, -1),
       latestTombstone := RecordTombstone(r.latestTombstone, record.objectKey, now))
  }

  function TombstoneArtifact(r: Repo, id: Name, tenant: Name, now: int): Repo {
    if id in r.artifacts && r.artifacts[id].tenant == tenant && r.artifacts[id].state.Active? then Entomb(r, id, now)
    else r
  }

  function TombstoneReply(r: Repo, id: Name, tenant: Name, now: int): Reply {
    if id !in r.artifacts then Refused(ArtifactNotFound)
    else if r.artifacts[id].tenant != tenant then Refused(AccessDenied)
    else if !r.artifacts[id].state.Active? then Stored(r.artifacts[id], false)
    else Stored(r.artifacts[id].(state := Tombstoned, tombstonedAt := When(now)), true)
  }

  predicate Expired(r: Repo, id: Name, now: int) {
    id in r.artifacts && r.artifacts[id].state.Active? && r.artifacts[id].retainUntil <= now
  }

  /** The expiry loop over a stretch of the artifact order. */
  function EntombAll(r: Repo, ids: seq<Name>, now: int): Repo {
    if ids == [] then r else
    var before := EntombAll(r, ids[..|ids| - 1], now);
    var id := ids[|ids| - 1];
    if Expired(before, id, now) then Entomb(before, id, now) else before
  }

  function EntombCount(r: Repo, ids: seq<Name>, now: int): nat {
    if ids == [] then 0 else
    EntombCount(r, ids[..|ids| - 1], now)
      + (if Expired(EntombAll(r, ids[..|ids| - 1], now), ids[|ids| - 1], now) then 1 else 0)
  }

  datatype Page = Unreadable | Page(start: nat, end: nat, next: Cursor, done: bool)

  function PageBounds(cursor: Cursor, total: nat, limit: nat): (page: Page)
    ensures page.Page? ==> page.start <= page.end <= total
  {
    match cursor
    case Malformed => Unreadable
    case Fresh => PageFrom(0, total, limit)
    case Resume(start, highwater) =>
      if start < 0 || highwater < start || highwater > total then Unreadable else PageFrom(start, highwater, limit)
  }

  function PageFrom(start: nat, highwater: nat, limit: nat): Page
    requires start <= highwater
  {
    var end := if start + limit > highwater then highwater else start + limit;
    Page(start, end, if end == highwater then Fresh else Resume(end, highwater), end == highwater)
  }

  predicate Leased(r: Repo, lease: Lease) {
    r.leaseHeld && r.lease.token == lease.token
  }

  predicate BatchSize(limit: int) {
    0 < limit <= MAXIMUM_GC_BATCH
  }

  function ScanPage(r: Repo, lease: Lease, after: Cursor, total: nat, limit: int): (page: Page)
    ensures page.Page? ==> page.start <= page.end <= total
  {
    if BatchSize(limit) && Leased(r, lease) then PageBounds(after, total, limit) else Unreadable
  }

  function ScanReply(r: Repo, lease: Lease, limit: int, page: Page, count: nat): Reply {
    if !BatchSize(limit) then Refused(InvalidRequest)
    else if !Leased(r, lease) || page.Unreadable? then Refused(RepositoryConflict)
    else Scanned(count, page.next, page.done)
  }

  function TombstoneExpiredPage(r: Repo, lease: Lease, now: int, after: Cursor, limit: int): Repo {
    var page := ScanPage(r, lease, after, |r.artifactOrder|, limit);
    if page.Page?
    then EntombAll(r, r.artifactOrder[page.start..page.end], now) else r
  }

  function ExpiredReply(r: Repo, lease: Lease, now: int, after: Cursor, limit: int): Reply {
    var page := ScanPage(r, lease, after, |r.artifactOrder|, limit);
    ScanReply(r, lease, limit, page,
              if page.Page?
              then EntombCount(r, r.artifactOrder[page.start..page.end], now) else 0)
  }

  function Abandon(r: Repo, id: Name): Repo
    requires id in r.invocations
  {
    var record := r.invocations[id];
    r.(invocations := r.invocations[id := record.(state := Abandoned, generation := record.generation + 1)],
       reserved := Bump(r.reserved, record.tenant, -record.size),
       inflightByObject := Bump(r.inflightByObject, record.objectKey, -1))
  }

  predicate Lapsed(r: Repo, id: Name, heartbeatBefore: int) {
    id in r.invocations && r.invocations[id].state.Inflight? && r.invocations[id].heartbeatAt <= heartbeatBefore
  }

  function AbandonAll(r: Repo, ids: seq<Name>, heartbeatBefore: int): Repo {
    if ids == [] then r else
    var before := AbandonAll(r, ids[..|ids| - 1], heartbeatBefore);
    var id := ids[|ids| - 1];
    if Lapsed(before, id, heartbeatBefore) then Abandon(before, id) else before
  }

  function AbandonCount(r: Repo, ids: seq<Name>, heartbeatBefore: int): nat {
    if ids == [] then 0 else
    AbandonCount(r, ids[..|ids| - 1], heartbeatBefore)
      + (if Lapsed(AbandonAll(r, ids[..|ids| - 1], heartbeatBefore), ids[|ids| - 1], heartbeatBefore) then 1 else 0)
  }

  function AbandonInflightPage(r: Repo, lease: Lease, heartbeatBefore: int, after: Cursor, limit: int): Repo {
    var page := ScanPage(r, lease, after, |r.invocationOrder|, limit);
    if page.Page?
    then AbandonAll(r, r.invocationOrder[page.start..page.end], heartbeatBefore) else r
  }

  function AbandonReply(r: Repo, lease: Lease, heartbeatBefore: int, after: Cursor, limit: int): Reply {
    var page := ScanPage(r, lease, after, |r.invocationOrder|, limit);
    ScanReply(r, lease, limit, page,
              if page.Page?
              then AbandonCount(r, r.invocationOrder[page.start..page.end], heartbeatBefore) else 0)
  }

  // ----- collector lease -----

  predicate Grantable(r: Repo, now: int, duration: int) {
    0 < duration && !(r.leaseHeld && now < r.lease.expiresAt)
  }

  function NextLease(r: Repo, now: int, duration: int): Lease {
    Lease(r.nextLeaseToken + 1, now + duration, r.checkpoint)
  }

  function AcquireGC(r: Repo, now: int, duration: int): Repo {
    if Grantable(r, now, duration)
    then r.(nextLeaseToken := r.nextLeaseToken + 1, lease := NextLease(r, now, duration), leaseHeld := true) else r
  }

  function AcquireReply(r: Repo, now: int, duration: int): Reply {
    if duration <= 0 then Refused(InvalidRequest)
    else if !Grantable(r, now, duration) then Busy
    else Granted(NextLease(r, now, duration))
  }

  function RenewGC(r: Repo, lease: Lease, now: int, duration: int): Repo {
    if 0 < duration && Leased(r, lease) && now < r.lease.expiresAt
    then r.(lease := r.lease.(expiresAt := now + duration)) else r
  }

  function RenewReply(r: Repo, lease: Lease, now: int, duration: int): Reply {
    if duration <= 0 then Refused(InvalidRequest)
    else if Leased(r, lease) && now < r.lease.expiresAt then Granted(r.lease.(expiresAt := now + duration))
    else Refused(RepositoryConflict)
  }

  function ReleaseGC(r: Repo, lease: Lease, checkpoint: Checkpoint): Repo {
    if Leased(r, lease) then r.(checkpoint := checkpoint, leaseHeld := false, lease := NO_LEASE) else r
  }

  function ReleaseReply(r: Repo, lease: Lease): Reply {
    if Leased(r, lease) then Done(0) else Refused(RepositoryConflict)
  }

  // ----- sweep claims -----

  /** The claim offered longest ago: the one with the least order. */
  ghost predicate IsLeast(sweeps: map<Name, Sweep>, key: Name) {
    key in sweeps && forall other | other in sweeps :: sweeps[key].order <= sweeps[other].order
  }

  ghost function Least(sweeps: map<Name, Sweep>): (key: Name)
    requires sweeps != map[]
    ensures IsLeast(sweeps, key)
  {
    LeastExists(sweeps);
    var key :| IsLeast(sweeps, key);
    key
  }

  lemma {:induction false} LeastExists(sweeps: map<Name, Sweep>)
    requires sweeps != map[]
    ensures exists key :: IsLeast(sweeps, key)
    decreases |sweeps|
  {
    var some :| some in sweeps;
    var rest := sweeps - {some};
    if rest == map[] {
      assert sweeps.Keys == {some} by {
        assert forall k | k in sweeps :: k != some ==> k in rest;
      }
      assert IsLeast(sweeps, some);
    } else {
      assert |rest| < |sweeps| by {
        assert rest.Keys == sweeps.Keys - {some};
        assert |rest.Keys| == |sweeps.Keys| - 1;
      }
      LeastExists(rest);
      var key :| IsLeast(rest, key);
      assert forall k | k in sweeps :: k == some || k in rest;
      assert IsLeast(sweeps, if sweeps[key].order <= sweeps[some].order then key else some);
    }
  }

  /** The first `count` claims, least recently offered first. */
  ghost function Oldest(sweeps: map<Name, Sweep>, count: nat): seq<Name> {
    if count == 0 || sweeps == map[] then []
    else var key := Least(sweeps); [key] + Oldest(sweeps - {key}, count - 1)
  }

  /** Hands each listed claim to the lease and sends it to the back of the order. */
  function Offer(sweeps: map<Name, Sweep>, keys: seq<Name>, order: nat, leaseToken: nat): map<Name, Sweep> {
    if keys == [] then sweeps else
    var before := Offer(sweeps, keys[..|keys| - 1], order, leaseToken);
    var key := keys[|keys| - 1];
    if key in before then
      before[key := Sweep(before[key].claim.(leaseToken := leaseToken), order + |keys|)]
    else before
  }

  ghost function PendingSweepsPage(r: Repo, lease: Lease, limit: int): Repo {
    if BatchSize(limit) && Leased(r, lease) then
      var keys := Oldest(r.sweeps, limit);
      r.(sweeps := Offer(r.sweeps, keys, r.nextSweepOrder, lease.token), nextSweepOrder := r.nextSweepOrder + |keys|)
    else r
  }

  function ClaimsOn(sweeps: map<Name, Sweep>, keys: seq<Name>): seq<SweepClaim> {
    if keys == [] then [] else
    var rest := ClaimsOn(sweeps, keys[..|keys| - 1]);
    var key := keys[|keys| - 1];
    if key in sweeps then rest + [sweeps[key].claim] else rest
  }

  ghost function PendingReply(r: Repo, lease: Lease, limit: int): Reply {
    if !BatchSize(limit) then Refused(InvalidRequest)
    else if !Leased(r, lease) then Refused(RepositoryConflict)
    else Offered(ClaimsOn(PendingSweepsPage(r, lease, limit).sweeps, Oldest(r.sweeps, limit)))
  }

  predicate Sweepable(r: Repo, key: Name, tombstonedBefore: int) {
    && key !in r.sweeps
    && At(r.inflightByObject, key) == 0 && At(r.activeByObject, key) == 0
    && (key in r.latestTombstone ==> r.latestTombstone[key] <= tombstonedBefore)
  }

  predicate Claimable(r: Repo, lease: Lease, key: Name, version: nat, tombstonedBefore: int) {
    Leased(r, lease) && key != NO_NAME && version != 0 && Sweepable(r, key, tombstonedBefore)
  }

  function NextClaim(r: Repo, lease: Lease, key: Name, version: nat): SweepClaim {
    SweepClaim(key, version, r.nextSweepToken + 1, lease.token)
  }

  function ClaimSweepLeased(r: Repo, lease: Lease, key: Name, version: nat, tombstonedBefore: int): Repo {
    if Claimable(r, lease, key, version, tombstonedBefore)
    then r.(nextSweepToken := r.nextSweepToken + 1, nextSweepOrder := r.nextSweepOrder + 1,
            sweeps := r.sweeps[key := Sweep(NextClaim(r, lease, key, version), r.nextSweepOrder + 1)])
    else r
  }

  function ClaimReply(r: Repo, lease: Lease, key: Name, version: nat, tombstonedBefore: int): Reply {
    if !Leased(r, lease) || key == NO_NAME || version == 0 then Refused(RepositoryConflict)
    else if !Sweepable(r, key, tombstonedBefore) then Skipped
    else Claimed(NextClaim(r, lease, key, version))
  }

  predicate Holds(r: Repo, lease: Lease, claim: SweepClaim) {
    && Leased(r, lease)
    && claim.leaseToken == lease.token
    && claim.objectKey in r.sweeps
    && r.sweeps[claim.objectKey].claim == claim
  }

  function Unsweep(r: Repo, key: Name): Repo {
    r.(sweeps := r.sweeps - {key})
  }

  function RetireSweepLeased(r: Repo, lease: Lease, claim: SweepClaim): Repo {
    if Holds(r, lease, claim) then Unsweep(r, claim.objectKey) else r
  }

  function RetireReply(r: Repo, lease: Lease, claim: SweepClaim): Reply {
    if Holds(r, lease, claim) then Done(0) else Refused(RepositoryConflict)
  }

  /** The purge loop over the artifacts recorded for one object. */
  function PurgeAll(artifacts: map<Name, Artifact>, ids: seq<Name>, now: int): map<Name, Artifact> {
    if ids == [] then artifacts else
    var before := PurgeAll(artifacts, ids[..|ids| - 1], now);
    var id := ids[|ids| - 1];
    if id in before && before[id].state.Tombstoned?
    then before[id := before[id].(state := Purged, purgedAt := When(now))] else before
  }

  function PurgeCount(artifacts: map<Name, Artifact>, ids: seq<Name>, now: int): nat {
    if ids == [] then 0 else
    var before := PurgeAll(artifacts, ids[..|ids| - 1], now);
    var id := ids[|ids| - 1];
    PurgeCount(artifacts, ids[..|ids| - 1], now) + (if id in before && before[id].state.Tombstoned? then 1 else 0)
  }

  function FinishSweepLeased(r: Repo, lease: Lease, claim: SweepClaim, deleted: bool, now: int): Repo {
    if Holds(r, lease, claim) && deleted then
      Unsweep(r, claim.objectKey).(
        artifacts := PurgeAll(r.artifacts, Listed(r.artifactsByObject, claim.objectKey), now),
        latestTombstone := r.latestTombstone - {claim.objectKey})
    else r
  }

  function FinishReply(r: Repo, lease: Lease, claim: SweepClaim, deleted: bool, now: int): Reply {
    if !Holds(r, lease, claim) then Refused(RepositoryConflict)
    else if !deleted then Done(0)
    else Done(PurgeCount(r.artifacts, Listed(r.artifactsByObject, claim.objectKey), now))
  }

  // ----- every call the service makes -----

  datatype Call =
    | Begin(request: Reservation)
    | Heartbeat(invocationId: Name, requestDigest: Name, generation: nat, now: int)
    | Commit(invocationId: Name, requestDigest: Name, generation: nat, artifact: Artifact)
    | Tombstone(artifactId: Name, tenant: Name, now: int)
    | ExpirePage(lease: Lease, now: int, after: Cursor, limit: int)
    | AbandonPage(lease: Lease, heartbeatBefore: int, after: Cursor, limit: int)
    | Acquire(now: int, duration: int)
    | Renew(lease: Lease, now: int, duration: int)
    | Release(lease: Lease, checkpoint: Checkpoint)
    | Pending(lease: Lease, limit: int)
    | Claim(lease: Lease, key: Name, version: nat, tombstonedBefore: int)
    | Retire(lease: Lease, claim: SweepClaim)
    | Finish(lease: Lease, claim: SweepClaim, deleted: bool, now: int)

  ghost function Apply(r: Repo, call: Call): Repo {
    match call
    case Begin(request) => BeginCreate(r, request)
    case Heartbeat(id, digest, generation, now) => HeartbeatCreate(r, id, digest, generation, now)
    case Commit(id, digest, generation, artifact) => CommitCreate(r, id, digest, generation, artifact)
    case Tombstone(id, tenant, now) => TombstoneArtifact(r, id, tenant, now)
    case ExpirePage(lease, now, after, limit) => TombstoneExpiredPage(r, lease, now, after, limit)
    case AbandonPage(lease, before, after, limit) => AbandonInflightPage(r, lease, before, after, limit)
    case Acquire(now, duration) => AcquireGC(r, now, duration)
    case Renew(lease, now, duration) => RenewGC(r, lease, now, duration)
    case Release(lease, checkpoint) => ReleaseGC(r, lease, checkpoint)
    case Pending(lease, limit) => PendingSweepsPage(r, lease, limit)
    case Claim(lease, key, version, before) => ClaimSweepLeased(r, lease, key, version, before)
    case Retire(lease, claim) => RetireSweepLeased(r, lease, claim)
    case Finish(lease, claim, deleted, now) => FinishSweepLeased(r, lease, claim, deleted, now)
  }

  ghost function Run(r: Repo, calls: seq<Call>): Repo {
    if calls == [] then r else Apply(Run(r, calls[..|calls| - 1]), calls[|calls| - 1])
  }
}
