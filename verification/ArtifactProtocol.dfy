/** Creators and collectors interleaved at repository and blob calls. Every
    client may stop anywhere; an issued put or delete may take effect at any
    later time, any number of times, or never. */
module ArtifactProtocol {
  import opened Common
  import opened ArtifactRepository
  import Blob = BlobStore

  // ----- clients -----

  /** Where one execution of CreateFromWorkspace stands. */
  datatype Phase =
    | Looking     // about to look the invocation up
    | Reading     // nothing recorded: about to reserve
    | Resuming    // found an inflight record: about to renew its heartbeat
    | Checking    // about to look for the object of the resumed reservation
    | Holding     // holds a reservation whose object is not known to exist
    | Putting     // put request issued
    | Acknowledged // the put was answered with success
    | Ready       // about to commit
    | Over

  /** One create execution; `held` is its copy of the invocation record. */
  datatype Creator = Creator(request: Reservation, held: Invocation, phase: Phase)

  /** What a collector knows about the object of a claim. */
  datatype Stage =
    | Unknown
    | Present   // head read found the claimed version
    | Issued    // conditional delete sent, no answer yet
    | Absent    // head or delete answered that no object exists, or the delete succeeded
    | Replaced  // head or delete answered that another version exists

  datatype Collector = Collector(lease: Lease, listed: set<Blob.Info>, stages: map<SweepClaim, Stage>)

  datatype Deletion = Deletion(key: Name, version: nat)

  datatype World = World(
    repo: Repo, blobs: Blob.Blobs,
    creators: map<nat, Creator>, collectors: map<nat, Collector>,
    puts: set<Blob.Put>, deletes: set<Deletion>)

  function Genesis(quotas: map<Name, int>): World {
    World(Initial(quotas), Blob.EMPTY, map[], map[], {}, {})
  }

  // ----- steps -----

  datatype Step =
    // creators
    | CreateStarts(creator: nat, request: Reservation)
    | CreateLooks(creator: nat)
    | CreateReserves(creator: nat)
    | CreateBeats(creator: nat, now: int)
    | CreateChecks(creator: nat)
    | CreateAnswered(creator: nat)
    | CreateCommits(creator: nat, retainUntil: int)
    // the network
    | PutLands(put: Blob.Put)
    | DeleteLands(deletion: Deletion)
    // collectors
    | CollectStarts(collector: nat, now: int, duration: int)
    | CollectExpires(collector: nat, now: int, after: Cursor, limit: int)
    | CollectAbandons(collector: nat, heartbeatBefore: int, after: Cursor, limit: int)
    | CollectRenews(collector: nat, now: int, duration: int)
    | CollectPending(collector: nat, limit: int)
    | CollectLists(collector: nat, epoch: Blob.Epoch, cursor: int, limit: int)
    | CollectClaims(collector: nat, info: Blob.Info, cutoff: int)
    | CollectHeads(collector: nat, claim: SweepClaim)
    | CollectDeletes(collector: nat, claim: SweepClaim)
    | CollectAnswered(collector: nat, claim: SweepClaim)
    | CollectFinishes(collector: nat, claim: SweepClaim, now: int)
    | CollectRetires(collector: nat, claim: SweepClaim)
    | CollectReleases(collector: nat, checkpoint: Checkpoint)
    // background heartbeats and deletion by users
    | HeartbeatTicks(invocationId: Name, requestDigest: Name, generation: nat, now: int)
    | UserDeletes(artifactId: Name, tenant: Name, now: int)

  function WithCreator(w: World, id: nat, creator: Creator): World {
    w.(creators := w.creators[id := creator])
  }

  function Looked(w: World, c: Creator): Creator {
    var id := c.request.invocationId;
    if id !in w.repo.invocations then c.(phase := Reading) else
    var record := w.repo.invocations[id];
    if record.tenant == c.request.tenant && record.requestDigest == c.request.requestDigest && record.state.Inflight?
    then c.(held := record, phase := Resuming) else c.(phase := Over)
  }

  /** A reservation is used only if it is the one this request would make. */
  predicate Usable(c: Creator, record: Invocation) {
    && record.state.Inflight?
    && record.invocationId == c.request.invocationId
    && record.objectKey == c.request.objectKey
    && record.contentDigest == c.request.contentDigest
    && record.size == c.request.size
  }

  function AfterReserve(c: Creator, reply: Reply): Creator {
    if reply.Invoked? && Usable(c, reply.invocation) then c.(held := reply.invocation, phase := Holding)
    else c.(phase := Over)
  }

  function AfterBeat(c: Creator, reply: Reply): Creator {
    if !reply.Invoked? then c.(phase := Over)
    else match c.phase
      case Resuming => c.(phase := Checking)
      case Holding => c.(phase := Putting)
      case Acknowledged => c.(phase := Ready)
      case _ => c
  }

  function Checked(w: World, c: Creator): Creator {
    var key := c.held.objectKey;
    if key !in w.blobs.objects then c.(phase := Holding)
    else if w.blobs.objects[key].digest == c.held.contentDigest then c.(phase := Ready)
    else c.(phase := Over)
  }

  function PutOf(c: Creator): Blob.Put {
    Blob.Put(c.held.objectKey, c.held.contentDigest, c.held.startedAt)
  }

  function ArtifactOf(held: Invocation, retainUntil: int): Artifact {
    Artifact(held.artifactId, held.tenant, held.invocationId, held.requestDigest, held.objectKey,
             held.contentDigest, held.size, held.startedAt, retainUntil, Active, Never, Never, held.details)
  }

  function WithCollector(w: World, id: nat, collector: Collector): World {
    w.(collectors := w.collectors[id := collector])
  }

  function Mark(w: World, id: nat, claim: SweepClaim, stage: Stage): World
    requires id in w.collectors
  {
    WithCollector(w, id, w.collectors[id].(stages := w.collectors[id].stages[claim := stage]))
  }

  function Learn(stages: map<SweepClaim, Stage>, claims: seq<SweepClaim>): map<SweepClaim, Stage> {
    if claims == [] then stages
    else Learn(stages, claims[..|claims| - 1])[claims[|claims| - 1] := Unknown]
  }

  function SeenByHead(w: World, claim: SweepClaim): Stage {
    if claim.objectKey !in w.blobs.objects then Absent
    else if w.blobs.objects[claim.objectKey].version == claim.objectVersion then Present
    else Replaced
  }

  function SeenByDelete(reply: Blob.Reply): Stage {
    if reply.VersionConflict? then Replaced else Absent
  }

  function StageOf(w: World, id: nat, claim: SweepClaim): Stage {
    if id in w.collectors && claim in w.collectors[id].stages then w.collectors[id].stages[claim] else Unknown
  }

  ghost function CreatorStep(w: World, step: Step): World {
    match step
    case CreateStarts(id, request) =>
      if id in w.creators then w
      else WithCreator(w, id, Creator(request, ArtifactRepository.Reserved(request), Looking))
    case CreateLooks(id) =>
      if id in w.creators && w.creators[id].phase.Looking? then WithCreator(w, id, Looked(w, w.creators[id])) else w
    case CreateReserves(id) =>
      if id in w.creators && w.creators[id].phase.Reading? then
        var c := w.creators[id];
        WithCreator(w.(repo := BeginCreate(w.repo, c.request)), id, AfterReserve(c, BeginReply(w.repo, c.request)))
      else w
    case CreateBeats(id, now) =>
      if id in w.creators && w.creators[id].phase in {Resuming, Holding, Acknowledged} then
        var c := w.creators[id];
        var reply := HeartbeatReply(w.repo, c.held.invocationId, c.held.requestDigest, c.held.generation, now);
        var next := AfterBeat(c, reply);
        WithCreator(w.(repo := HeartbeatCreate(w.repo, c.held.invocationId, c.held.requestDigest, c.held.generation,
                                               now),
                       puts := if next.phase.Putting? then w.puts + {PutOf(c)} else w.puts), id, next)
      else w
    case CreateChecks(id) =>
      if id in w.creators && w.creators[id].phase.Checking? then WithCreator(w, id, Checked(w, w.creators[id])) else w
    case CreateAnswered(id) =>
      if id in w.creators && w.creators[id].phase.Putting? then
        var c := w.creators[id];
        WithCreator(w.(blobs := Blob.PutIfAbsent(w.blobs, PutOf(c))), id,
                    c.(phase := if Blob.PutReply(w.blobs, PutOf(c)).Accepted? then Acknowledged else Over))
      else w
    case CreateCommits(id, retainUntil) =>
      if id in w.creators && w.creators[id].phase.Ready? then
        var c := w.creators[id];
        WithCreator(w.(repo := CommitCreate(w.repo, c.held.invocationId, c.held.requestDigest, c.held.generation,
                                            ArtifactOf(c.held, retainUntil))), id, c.(phase := Over))
      else w
    case _ => w
  }

  /** The repository call a collector step makes, if the collector is in a position to make it. */
  ghost function CollectorCall(w: World, step: Step): Option<Call> {
    match step
    case CollectStarts(id, now, duration) => if id in w.collectors then None else Some(Acquire(now, duration))
    case CollectExpires(id, now, after, limit) =>
      if id in w.collectors then Some(ExpirePage(w.collectors[id].lease, now, after, limit)) else None
    case CollectAbandons(id, before, after, limit) =>
      if id in w.collectors then Some(AbandonPage(w.collectors[id].lease, before, after, limit)) else None
    case CollectRenews(id, now, duration) =>
      if id in w.collectors then Some(Renew(w.collectors[id].lease, now, duration)) else None
    case CollectReleases(id, checkpoint) =>
      if id in w.collectors then Some(Release(w.collectors[id].lease, checkpoint)) else None
    case CollectPending(id, limit) =>
      if id in w.collectors then Some(Pending(w.collectors[id].lease, limit)) else None
    case CollectClaims(id, info, cutoff) =>
      if id in w.collectors && info in w.collectors[id].listed && info.createdAt <= cutoff
      then Some(Claim(w.collectors[id].lease, info.key, info.version, cutoff)) else None
    case CollectFinishes(id, claim, now) =>
      if StageOf(w, id, claim).Absent? then Some(Finish(w.collectors[id].lease, claim, true, now)) else None
    case CollectRetires(id, claim) =>
      if StageOf(w, id, claim).Replaced? then Some(Retire(w.collectors[id].lease, claim)) else None
    case _ => None
  }

  /** What the collector learns from the answer. */
  ghost function CollectorLearns(w: World, step: Step): map<nat, Collector> {
    match step
    case CollectStarts(id, now, duration) =>
      var reply := AcquireReply(w.repo, now, duration);
      if id !in w.collectors && reply.Granted? then w.collectors[id := Collector(reply.lease, {}, map[])]
      else w.collectors
    case CollectPending(id, limit) =>
      if id in w.collectors && PendingReply(w.repo, w.collectors[id].lease, limit).Offered? then
        var c := w.collectors[id];
        w.collectors[id := c.(stages := Learn(c.stages, PendingReply(w.repo, c.lease, limit).claims))]
      else w.collectors
    case CollectClaims(id, info, cutoff) =>
      if CollectorCall(w, step).Some?
         && ClaimReply(w.repo, w.collectors[id].lease, info.key, info.version, cutoff).Claimed? then
        var c := w.collectors[id];
        w.collectors[id := c.(stages := c.stages[NextClaim(w.repo, c.lease, info.key, info.version) := Unknown])]
      else w.collectors
    case _ => w.collectors
  }

  ghost function CollectorStep(w: World, step: Step): World {
    match step
    case CollectLists(id, epoch, cursor, limit) =>
      if id in w.collectors && Blob.ListPage(w.blobs, epoch, cursor, limit).Listing? then
        var c := w.collectors[id];
        WithCollector(w, id, c.(listed := c.listed
                                + set info | info in Blob.ListPage(w.blobs, epoch, cursor, limit).objects))
      else w
    case CollectHeads(id, claim) =>
      if id in w.collectors && claim in w.collectors[id].stages && StageOf(w, id, claim).Unknown?
      then Mark(w, id, claim, SeenByHead(w, claim)) else w
    case CollectDeletes(id, claim) =>
      if StageOf(w, id, claim).Present?
      then Mark(w, id, claim, Issued).(deletes := w.deletes + {Deletion(claim.objectKey, claim.objectVersion)}) else w
    case CollectAnswered(id, claim) =>
      if StageOf(w, id, claim).Issued? then
        Mark(w, id, claim, SeenByDelete(Blob.DeleteReply(w.blobs, claim.objectKey, claim.objectVersion)))
          .(blobs := Blob.DeleteIfVersion(w.blobs, claim.objectKey, claim.objectVersion))
      else w
    case _ =>
      var call := CollectorCall(w, step);
      if call.Some? then w.(repo := ArtifactRepository.Apply(w.repo, call.value),
                            collectors := CollectorLearns(w, step)) else w
  }

  predicate ByCreator(step: Step) {
    || step.CreateStarts? || step.CreateLooks? || step.CreateReserves? || step.CreateBeats?
    || step.CreateChecks? || step.CreateAnswered? || step.CreateCommits?
  }

  ghost function Next(w: World, step: Step): World {
    if ByCreator(step) then CreatorStep(w, step) else
    match step
    case PutLands(put) => if put in w.puts then w.(blobs := Blob.PutIfAbsent(w.blobs, put)) else w
    case DeleteLands(d) =>
      if d in w.deletes then w.(blobs := Blob.DeleteIfVersion(w.blobs, d.key, d.version)) else w
    case HeartbeatTicks(id, digest, generation, now) =>
      w.(repo := HeartbeatCreate(w.repo, id, digest, generation, now))
    case UserDeletes(id, tenant, now) => w.(repo := TombstoneArtifact(w.repo, id, tenant, now))
    case _ => CollectorStep(w, step)
  }

  ghost function Execute(w: World, steps: seq<Step>): World {
    if steps == [] then w else Next(Execute(w, steps[..|steps| - 1]), steps[|steps| - 1])
  }
}
