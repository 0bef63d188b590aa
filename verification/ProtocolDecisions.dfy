/** What the single steps of creators, collectors, users and the network do in every world. */
module ProtocolDecisions {
  import opened Common
  import opened ArtifactRepository
  import opened ArtifactProtocol
  import Blob = BlobStore
  import Decisions = ArtifactDecisions
  import History = ArtifactHistory
  import Progress = ArtifactProgress

  // ----- creators -----

  /** The invocation is on record for this tenant and this very request. */
  predicate OnRecord(w: World, c: Creator) {
    && c.request.invocationId in w.repo.invocations
    && w.repo.invocations[c.request.invocationId].tenant == c.request.tenant
    && w.repo.invocations[c.request.invocationId].requestDigest == c.request.requestDigest
  }

  /** Only this creator changes. */
  predicate Moves(w: World, n: World, id: nat, c: Creator) {
    n == w.(creators := w.creators[id := c])
  }

  /** A look finds nothing and goes on to reserve, finds its own inflight record and resumes it, or is over. */
  lemma LookDecided(w: World, id: nat)
    requires id in w.creators
    ensures var c, n := w.creators[id], ArtifactProtocol.Next(w, CreateLooks(id));
            if c.phase != Looking then n == w
            else if c.request.invocationId !in w.repo.invocations then Moves(w, n, id, c.(phase := Reading))
            else if OnRecord(w, c) && w.repo.invocations[c.request.invocationId].state == Inflight
            then Moves(w, n, id, c.(held := w.repo.invocations[c.request.invocationId], phase := Resuming))
            else Moves(w, n, id, c.(phase := Over))
  {
  }

  /** In every reachable world a creator goes on to store its object exactly if it made the reservation, or found an
      inflight one of its own request for the same object; any other answer ends it. */
  lemma ReserveDecided(quotas: map<Name, int>, steps: seq<Step>, id: nat)
    requires id in Execute(Genesis(quotas), steps).creators
    ensures var w := Execute(Genesis(quotas), steps);
            var c, n := w.creators[id], ArtifactProtocol.Next(w, CreateReserves(id));
            var request := c.request;
            if c.phase != Reading then n == w
            else if OnRecord(w, c) then
              var record := w.repo.invocations[request.invocationId];
              if && record.state == Inflight && record.objectKey == request.objectKey
                 && record.contentDigest == request.contentDigest && record.size == request.size
              then Moves(w, n, id, c.(held := record, phase := Holding)) else Moves(w, n, id, c.(phase := Over))
            else if && request.invocationId !in w.repo.invocations && request.objectKey !in w.repo.sweeps
                    && Decisions.Fits(w.repo, request) && !Decisions.Named(w.repo, request.artifactId)
            then && n == w.(repo := n.repo, creators := n.creators)
                 && n.creators == w.creators[id := c.(held := ArtifactRepository.Reserved(request), phase := Holding)]
                 && n.repo == BeginCreate(w.repo, request) && request.invocationId in n.repo.invocations
                 && n.repo.invocations[request.invocationId] == ArtifactRepository.Reserved(request)
            else Moves(w, n, id, c.(phase := Over))
  {
    hide Execute, Genesis, Decisions.Fits, Decisions.Named, Progress.Reachable;
    var w := Execute(Genesis(quotas), steps);
    Progress.RepositoryReachable(quotas, steps);
    Progress.RecordsFiled(quotas, steps);
    BeginAnswers(quotas, w.repo, w.creators[id].request);
    hide BeginReply, BeginCreate;
  }

  lemma BeginAnswers(quotas: map<Name, int>, r: Repo, request: Reservation)
    requires Progress.Reachable(quotas, r)
    ensures var reply, n := BeginReply(r, request), BeginCreate(r, request);
            if request.invocationId in r.invocations then
              && n == r
              && var record := r.invocations[request.invocationId];
                 reply == if record.tenant == request.tenant && record.requestDigest == request.requestDigest
                          then Invoked(record, true) else Refused(InvocationConflict)
            else if && request.objectKey !in r.sweeps && Decisions.Fits(r, request)
                    && !Decisions.Named(r, request.artifactId)
            then && reply == Invoked(ArtifactRepository.Reserved(request), false)
                 && request.invocationId in n.invocations
                 && n.invocations[request.invocationId] == ArtifactRepository.Reserved(request)
            else reply.Refused? && n == r
  {
    var calls :| r == ArtifactRepository.Run(Initial(quotas), calls);
    hide ArtifactRepository.Run, Decisions.Fits, Decisions.Named, Affordable;
    Decisions.BeginDecided(quotas, calls, request);
  }

  /** A heartbeat that is refused ends the creator; one that is taken lets it check, put or commit. */
  lemma BeatDecided(w: World, id: nat, now: int)
    requires id in w.creators
    ensures var c, n := w.creators[id], ArtifactProtocol.Next(w, CreateBeats(id, now));
            var held := c.held;
            var reply := HeartbeatReply(w.repo, held.invocationId, held.requestDigest, held.generation, now);
            if c.phase != Resuming && c.phase != Holding && c.phase != Acknowledged then n == w
            else
              && n.repo == HeartbeatCreate(w.repo, held.invocationId, held.requestDigest, held.generation, now)
              && n.blobs == w.blobs && n.collectors == w.collectors && n.deletes == w.deletes
              && n.creators == w.creators[id := c.(phase := if reply.Refused? then Over
                                                            else if c.phase == Resuming then Checking
                                                            else if c.phase == Holding then Putting else Ready)]
              && n.puts == (if c.phase == Holding && reply.Invoked?
                            then w.puts + {Blob.Put(held.objectKey, held.contentDigest, held.startedAt)} else w.puts)
  {
    hide HeartbeatCreate;
  }

  /** A check finds the object with its content, finds none, or finds another one and is over. */
  lemma CheckDecided(w: World, id: nat)
    requires id in w.creators
    ensures var c, n := w.creators[id], ArtifactProtocol.Next(w, CreateChecks(id));
            var key := c.held.objectKey;
            if c.phase != Checking then n == w
            else Moves(w, n, id, c.(phase := if key !in w.blobs.objects then Holding
                                             else if w.blobs.objects[key].digest == c.held.contentDigest then Ready
                                             else Over))
  {
  }

  /** A creator is started once. */
  lemma StartDecided(w: World, id: nat, request: Reservation)
    ensures var n := ArtifactProtocol.Next(w, CreateStarts(id, request));
            if id in w.creators then n == w
            else && n == w.(creators := n.creators) && n.creators.Keys == w.creators.Keys + {id}
                 && n.creators[id].request == request && n.creators[id].phase == Looking
                 && (forall other | other in w.creators :: n.creators[other] == w.creators[other])
  {
  }

  // ----- collectors -----

  /** A collector starts once, and only when no other holds an unexpired lease; then it holds one. */
  lemma CollectStartDecided(w: World, id: nat, now: int, duration: int)
    ensures var n := ArtifactProtocol.Next(w, CollectStarts(id, now, duration));
            if id in w.collectors || duration <= 0 || (w.repo.leaseHeld && now < w.repo.lease.expiresAt) then n == w
            else && n == w.(repo := n.repo, collectors := w.collectors[id := Collector(n.repo.lease, {}, map[])])
                 && n.repo.leaseHeld && n.repo.lease.expiresAt == now + duration
                 && w.repo.nextLeaseToken < n.repo.lease.token
  {
  }

  /** Scans, renewals and releases are made under the collector's own lease, and change nothing else. */
  lemma CollectorCallsOut(w: World, id: nat, step: Step)
    requires step.CollectExpires? || step.CollectAbandons? || step.CollectRenews? || step.CollectReleases?
    requires step.collector == id && id in w.collectors
    ensures var lease := w.collectors[id].lease;
            ArtifactProtocol.Next(w, step)
            == w.(repo := match step
                          case CollectExpires(_, now, after, limit) =>
                            TombstoneExpiredPage(w.repo, lease, now, after, limit)
                          case CollectAbandons(_, heartbeatBefore, after, limit) =>
                            AbandonInflightPage(w.repo, lease, heartbeatBefore, after, limit)
                          case CollectRenews(_, now, duration) => RenewGC(w.repo, lease, now, duration)
                          case CollectReleases(_, checkpoint) => ReleaseGC(w.repo, lease, checkpoint)
                          case _ => w.repo)
  {
    hide TombstoneExpiredPage, AbandonInflightPage, RenewGC, ReleaseGC;
  }

  /** The answer to a delete: the claimed version is gone, and another version stored meanwhile is seen as such. */
  lemma DeleteAnswered(w: World, id: nat, claim: SweepClaim)
    requires id in w.collectors && claim in w.collectors[id].stages && w.collectors[id].stages[claim] == Issued
    ensures var n := ArtifactProtocol.Next(w, CollectAnswered(id, claim));
            var key, version := claim.objectKey, claim.objectVersion;
            && n.blobs == Blob.DeleteIfVersion(w.blobs, key, version)
            && n == w.(blobs := n.blobs, collectors := n.collectors)
            && StageOf(n, id, claim)
               == if key in w.blobs.objects && (w.blobs.objects[key].version != version || version == 0) then Replaced
                  else Absent
  {
    hide Blob.DeleteIfVersion;
  }

  /** A collector looks once: what it has learnt is not forgotten by another look. */
  lemma HeadDecided(w: World, id: nat, claim: SweepClaim)
    requires id in w.collectors && claim in w.collectors[id].stages
    ensures var n := ArtifactProtocol.Next(w, CollectHeads(id, claim));
            var key, stage := claim.objectKey, w.collectors[id].stages[claim];
            && n == w.(collectors := n.collectors)
            && (stage != Unknown ==> n == w)
            && (stage == Unknown ==>
                  StageOf(n, id, claim) == if key !in w.blobs.objects then Absent
                                           else if w.blobs.objects[key].version == claim.objectVersion then Present
                                           else Replaced)
  {
  }

  // ----- users and the network -----

  /** In every reachable world a put that was sent can land at any time: a free key then holds its content, a taken one
      stays as it is. A put that was not sent does not land. */
  lemma PutLandsLate(quotas: map<Name, int>, steps: seq<Step>, put: Blob.Put)
    ensures var w := Execute(Genesis(quotas), steps);
            var n := ArtifactProtocol.Next(w, PutLands(put));
            if put !in w.puts || put.key in w.blobs.objects || put.key == NO_NAME || put.digest == NO_NAME then n == w
            else && n == w.(blobs := n.blobs) && n.blobs.objects.Keys == w.blobs.objects.Keys + {put.key}
                 && n.blobs.objects[put.key].digest == put.digest
                 && (forall key | key in w.blobs.objects :: n.blobs.objects[key] == w.blobs.objects[key])
  {
    hide Execute, Genesis;
  }

  /** A delete that was sent can land at any time, and removes its version if that is the one stored. */
  lemma DeleteLandsLate(quotas: map<Name, int>, steps: seq<Step>, d: Deletion)
    ensures var w := Execute(Genesis(quotas), steps);
            var n := ArtifactProtocol.Next(w, DeleteLands(d));
            if d in w.deletes && d.key in w.blobs.objects && w.blobs.objects[d.key].version == d.version
            then n == w.(blobs := n.blobs) && n.blobs.objects == w.blobs.objects - {d.key}
            else n == w
  {
    hide Execute, Genesis;
    var w := Execute(Genesis(quotas), steps);
    if d.key in w.blobs.objects && w.blobs.objects[d.key].version == d.version {
      Progress.DeleteTakes(quotas, steps, SweepClaim(d.key, d.version, 0, 0));
      hide Blob.DeleteIfVersion;
    }
  }

  /** In every reachable world a user retires exactly an active artifact of its own tenant. */
  lemma UserDeletesOwn(quotas: map<Name, int>, steps: seq<Step>, id: Name, tenant: Name, now: int)
    ensures var w := Execute(Genesis(quotas), steps);
            var n := ArtifactProtocol.Next(w, UserDeletes(id, tenant, now));
            if id in w.repo.artifacts && w.repo.artifacts[id].tenant == tenant && w.repo.artifacts[id].state == Active
            then && n == w.(repo := n.repo)
                 && n.repo.artifacts
                    == w.repo.artifacts[id := w.repo.artifacts[id].(state := Tombstoned, tombstonedAt := When(now))]
            else n == w
  {
    hide Execute, Genesis, Bump, RecordTombstone;
  }

  /** In every reachable world a background heartbeat moves exactly the inflight record of this request, at the
      generation every reservation has, and only forward. */
  lemma HeartbeatTicksOn(quotas: map<Name, int>, steps: seq<Step>, id: Name, digest: Name, generation: nat, now: int)
    ensures var w := Execute(Genesis(quotas), steps);
            var n := ArtifactProtocol.Next(w, HeartbeatTicks(id, digest, generation, now));
            if && id in w.repo.invocations && w.repo.invocations[id].requestDigest == digest
               && w.repo.invocations[id].state == Inflight && generation == 1
               && w.repo.invocations[id].heartbeatAt < now
            then n == w.(repo := w.repo.(invocations :=
                                           w.repo.invocations[id := w.repo.invocations[id].(heartbeatAt := now)]))
            else n == w
  {
    hide Execute, Genesis, Progress.Reachable;
    Progress.RepositoryReachable(quotas, steps);
    InflightIsFirst(quotas, Execute(Genesis(quotas), steps).repo, id);
  }

  lemma InflightIsFirst(quotas: map<Name, int>, r: Repo, id: Name)
    requires Progress.Reachable(quotas, r)
    ensures id in r.invocations && r.invocations[id].state == Inflight ==> r.invocations[id].generation == 1
  {
    var calls :| r == ArtifactRepository.Run(Initial(quotas), calls);
    hide ArtifactRepository.Run;
    History.RunAging(quotas, calls);
  }
}
