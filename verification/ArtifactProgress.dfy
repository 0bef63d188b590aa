/** What creators and collectors achieve when nobody is in their way, from every reachable world. */
module ArtifactProgress {
  import opened Common
  import opened ArtifactRepository
  import opened ArtifactProtocol
  import Blob = BlobStore
  import Decisions = ArtifactDecisions
  import Safety = ArtifactSafety

  // ----- the repository of a reachable world -----

  /** Some sequence of repository calls leads here. */
  ghost predicate Reachable(quotas: map<Name, int>, r: Repo) {
    exists calls :: r == ArtifactRepository.Run(Initial(quotas), calls)
  }

  lemma CallReaches(quotas: map<Name, int>, r: Repo, call: Call)
    requires Reachable(quotas, r)
    ensures Reachable(quotas, ArtifactRepository.Apply(r, call))
  {
    hide ArtifactRepository.Apply;
    var calls :| r == ArtifactRepository.Run(Initial(quotas), calls);
    assert (calls + [call])[..|calls|] == calls;
    assert ArtifactRepository.Apply(r, call) == ArtifactRepository.Run(Initial(quotas), calls + [call]);
  }

  lemma CreatorCalls(quotas: map<Name, int>, w: World, step: Step)
    requires Reachable(quotas, w.repo) && ByCreator(step)
    ensures Reachable(quotas, CreatorStep(w, step).repo)
  {
    hide Reachable, BeginCreate, HeartbeatCreate, CommitCreate, Looked, AfterReserve, AfterBeat, Blob.PutIfAbsent;
    match step
    case CreateReserves(id) =>
      if id in w.creators {
        CallReaches(quotas, w.repo, Begin(w.creators[id].request));
      }
    case CreateBeats(id, now) =>
      if id in w.creators {
        var held := w.creators[id].held;
        CallReaches(quotas, w.repo, Heartbeat(held.invocationId, held.requestDigest, held.generation, now));
      }
    case CreateCommits(id, retainUntil) =>
      if id in w.creators {
        var held := w.creators[id].held;
        CallReaches(quotas, w.repo, Commit(held.invocationId, held.requestDigest, held.generation,
                                           ArtifactOf(held, retainUntil)));
      }
    case _ =>
  }

  lemma CollectorCalls(quotas: map<Name, int>, w: World, step: Step)
    requires Reachable(quotas, w.repo) && !ByCreator(step)
    ensures Reachable(quotas, CollectorStep(w, step).repo)
  {
    hide Reachable, ArtifactRepository.Apply, CollectorCall, CollectorLearns, Blob.ListPage, Blob.DeleteIfVersion,
         SeenByHead;
    if CollectorCall(w, step).Some? {
      CallReaches(quotas, w.repo, CollectorCall(w, step).value);
    }
  }

  lemma NextCalls(quotas: map<Name, int>, w: World, step: Step)
    requires Reachable(quotas, w.repo)
    ensures Reachable(quotas, ArtifactProtocol.Next(w, step).repo)
  {
    hide Reachable, CreatorStep, CollectorStep, HeartbeatCreate, TombstoneArtifact, Blob.PutIfAbsent,
         Blob.DeleteIfVersion;
    if ByCreator(step) {
      CreatorCalls(quotas, w, step);
    } else {
      CollectorCalls(quotas, w, step);
      if step.HeartbeatTicks? {
        CallReaches(quotas, w.repo, Heartbeat(step.invocationId, step.requestDigest, step.generation, step.now));
      } else if step.UserDeletes? {
        CallReaches(quotas, w.repo, Tombstone(step.artifactId, step.tenant, step.now));
      }
    }
  }

  /** In every reachable world the repository is in a state its own calls can reach. */
  lemma {:induction false} RepositoryReachable(quotas: map<Name, int>, steps: seq<Step>)
    ensures Reachable(quotas, Execute(Genesis(quotas), steps).repo)
  {
    hide ArtifactProtocol.Next, Reachable;
    if steps == [] {
      NothingCalled(quotas);
    } else {
      RepositoryReachable(quotas, steps[..|steps| - 1]);
      NextCalls(quotas, Execute(Genesis(quotas), steps[..|steps| - 1]), steps[|steps| - 1]);
    }
  }

  lemma NothingCalled(quotas: map<Name, int>)
    ensures Reachable(quotas, Initial(quotas))
  {
    assert ArtifactRepository.Run(Initial(quotas), []) == Initial(quotas);
  }

  lemma ExecuteStep(w: World, steps: seq<Step>, k: nat)
    requires k < |steps|
    ensures Execute(w, steps[..k + 1]) == ArtifactProtocol.Next(Execute(w, steps[..k]), steps[k])
  {
    hide ArtifactProtocol.Next;
    assert steps[..k + 1][..k] == steps[..k];
  }

  lemma NoStep(w: World)
    ensures Execute(w, []) == w
  {
  }

  // ----- a create -----

  /** The world with this creator, and what it has changed. */
  function Creating(w: World, id: nat, repo: Repo, blobs: Blob.Blobs, puts: set<Blob.Put>, creator: Creator): World {
    w.(repo := repo, blobs := blobs, puts := puts, creators := w.creators[id := creator])
  }

  lemma Again(creators: map<nat, Creator>, id: nat, first: Creator, second: Creator)
    ensures creators[id := first][id := second] == creators[id := second]
  {
  }

  lemma Starts(w: World, id: nat, request: Reservation)
    requires id !in w.creators
    ensures ArtifactProtocol.Next(w, CreateStarts(id, request))
            == Creating(w, id, w.repo, w.blobs, w.puts,
                        Creator(request, ArtifactRepository.Reserved(request), Looking))
  {
  }

  lemma LooksInVain(w: World, id: nat, c: Creator)
    requires c.phase == Looking && c.request.invocationId !in w.repo.invocations
    ensures ArtifactProtocol.Next(Creating(w, id, w.repo, w.blobs, w.puts, c), CreateLooks(id))
            == Creating(w, id, w.repo, w.blobs, w.puts, c.(phase := Reading))
  {
    Again(w.creators, id, c, c.(phase := Reading));
  }

  lemma Reserves(w: World, id: nat, c: Creator)
    requires c.phase == Reading
    requires BeginReply(w.repo, c.request) == Invoked(ArtifactRepository.Reserved(c.request), false)
    ensures ArtifactProtocol.Next(Creating(w, id, w.repo, w.blobs, w.puts, c), CreateReserves(id))
            == Creating(w, id, BeginCreate(w.repo, c.request), w.blobs, w.puts,
                        c.(held := ArtifactRepository.Reserved(c.request), phase := Holding))
  {
    hide BeginCreate, BeginReply;
    Again(w.creators, id, c, c.(held := ArtifactRepository.Reserved(c.request), phase := Holding));
  }

  lemma Beats(w: World, id: nat, repo: Repo, blobs: Blob.Blobs, puts: set<Blob.Put>, c: Creator, now: int)
    requires c.phase == Holding || c.phase == Acknowledged || c.phase == Resuming
    requires HeartbeatReply(repo, c.held.invocationId, c.held.requestDigest, c.held.generation, now).Invoked?
    ensures var beaten := HeartbeatCreate(repo, c.held.invocationId, c.held.requestDigest, c.held.generation, now);
            ArtifactProtocol.Next(Creating(w, id, repo, blobs, puts, c), CreateBeats(id, now))
            == match c.phase
               case Holding => Creating(w, id, beaten, blobs, puts + {PutOf(c)}, c.(phase := Putting))
               case Acknowledged => Creating(w, id, beaten, blobs, puts, c.(phase := Ready))
               case _ => Creating(w, id, beaten, blobs, puts, c.(phase := Checking))
  {
    hide HeartbeatCreate, HeartbeatReply;
    Again(w.creators, id, c, c.(phase := Putting));
    Again(w.creators, id, c, c.(phase := Ready));
    Again(w.creators, id, c, c.(phase := Checking));
  }

  lemma Puts(w: World, id: nat, repo: Repo, blobs: Blob.Blobs, puts: set<Blob.Put>, c: Creator)
    requires c.phase == Putting && Blob.PutReply(blobs, PutOf(c)) == Blob.Accepted
    ensures ArtifactProtocol.Next(Creating(w, id, repo, blobs, puts, c), CreateAnswered(id))
            == Creating(w, id, repo, Blob.PutIfAbsent(blobs, PutOf(c)), puts, c.(phase := Acknowledged))
  {
    hide Blob.PutIfAbsent, Blob.PutReply;
    Again(w.creators, id, c, c.(phase := Acknowledged));
  }

  lemma Commits(w: World, id: nat, repo: Repo, blobs: Blob.Blobs, puts: set<Blob.Put>, c: Creator, retainUntil: int)
    requires c.phase == Ready
    ensures ArtifactProtocol.Next(Creating(w, id, repo, blobs, puts, c), CreateCommits(id, retainUntil))
            == Creating(w, id, CommitCreate(repo, c.held.invocationId, c.held.requestDigest, c.held.generation,
                                            ArtifactOf(c.held, retainUntil)), blobs, puts, c.(phase := Over))
  {
    hide CommitCreate;
    Again(w.creators, id, c, c.(phase := Over));
  }

  function CreateSteps(id: nat, request: Reservation, beats: (int, int), retainUntil: int): seq<Step> {
    [CreateStarts(id, request), CreateLooks(id), CreateReserves(id), CreateBeats(id, beats.0), CreateAnswered(id),
     CreateBeats(id, beats.1), CreateCommits(id, retainUntil)]
  }

  /** A request nobody has made, that fits, for an object nobody is sweeping and nobody has stored otherwise. */
  ghost predicate Welcome(w: World, request: Reservation) {
    && request.invocationId !in w.repo.invocations && request.objectKey !in w.repo.sweeps
    && Decisions.Fits(w.repo, request) && !Decisions.Named(w.repo, request.artifactId)
    && request.objectKey != NO_NAME && request.contentDigest != NO_NAME
    && (request.objectKey in w.blobs.objects ==> w.blobs.objects[request.objectKey].digest == request.contentDigest)
  }

  /** The artifact a request is answered with. */
  function Asked(request: Reservation, retainUntil: int): Artifact {
    Artifact(request.artifactId, request.tenant, request.invocationId, request.requestDigest, request.objectKey,
             request.contentDigest, request.size, request.startedAt, retainUntil, Active, Never, Never, request.details)
  }

  /** One artifact more, with its object stored, and its invocation committed; other objects stay. */
  ghost predicate Created(w: World, n: World, request: Reservation, retainUntil: int) {
    && n.repo.artifacts == w.repo.artifacts[request.artifactId := Asked(request, retainUntil)]
    && request.invocationId in n.repo.invocations && n.repo.invocations[request.invocationId].state == Committed
    && request.objectKey in n.blobs.objects && n.blobs.objects[request.objectKey].digest == request.contentDigest
    && (forall key | key != request.objectKey ::
          key in n.blobs.objects <==> key in w.blobs.objects)
    && (forall key | key in w.blobs.objects :: key in n.blobs.objects && n.blobs.objects[key] == w.blobs.objects[key])
    && n.collectors == w.collectors && n.deletes == w.deletes
  }

  /** Left alone, a creator with a welcome request stores the object and commits the artifact. */
  lemma CreateCompletes(quotas: map<Name, int>, before: seq<Step>, id: nat, request: Reservation, beats: (int, int),
                        retainUntil: int)
    requires var w := Execute(Genesis(quotas), before); id !in w.creators && Welcome(w, request)
    ensures var w := Execute(Genesis(quotas), before);
            Created(w, Execute(w, CreateSteps(id, request, beats, retainUntil)), request, retainUntil)
  {
    hide Execute, Genesis, ArtifactProtocol.Next, Created, Reachable, Decisions.Fits, Decisions.Named, Creating,
         HeartbeatCreate, HeartbeatReply, CommitCreate, BeginCreate, BeginReply, Blob.PutIfAbsent, Blob.PutReply;
    var w := Execute(Genesis(quotas), before);
    var held := ArtifactRepository.Reserved(request);
    RepositoryReachable(quotas, before);
    RequestSettled(quotas, w.repo, request, beats, retainUntil);
    SevenSteps(w, CreateSteps(id, request, beats, retainUntil));
    BeginsAnew(w, id, request);
    PutAccepted(w, request);
    var begun := BeginCreate(w.repo, request);
    var again := HeartbeatCreate(HeartbeatCreate(begun, held.invocationId, held.requestDigest, 1, beats.0),
                                 held.invocationId, held.requestDigest, 1, beats.1);
    var put := Blob.Put(request.objectKey, request.contentDigest, request.startedAt);
    var blobs, puts := Blob.PutIfAbsent(w.blobs, put), w.puts + {put};
    StoresItsObject(w, id, begun, request, beats);
    Commits(w, id, again, blobs, puts, Creator(request, held, Ready), retainUntil);
    CreatedBy(w, id, CommitCreate(again, held.invocationId, held.requestDigest, 1, Asked(request, retainUntil)), blobs,
              puts, Creator(request, held, Over), retainUntil);
  }

  lemma SevenSteps(w: World, steps: seq<Step>)
    requires |steps| == 7
    ensures var third := ArtifactProtocol.Next(ArtifactProtocol.Next(ArtifactProtocol.Next(w, steps[0]), steps[1]),
                                               steps[2]);
            var sixth := ArtifactProtocol.Next(ArtifactProtocol.Next(ArtifactProtocol.Next(third, steps[3]), steps[4]),
                                               steps[5]);
            Execute(w, steps) == ArtifactProtocol.Next(sixth, steps[6])
  {
    hide Execute, ArtifactProtocol.Next;
    NoStep(w);
    assert steps[..0] == [] && steps[..7] == steps;
    ExecuteStep(w, steps, 0);
    ExecuteStep(w, steps, 1);
    ExecuteStep(w, steps, 2);
    ExecuteStep(w, steps, 3);
    ExecuteStep(w, steps, 4);
    ExecuteStep(w, steps, 5);
    ExecuteStep(w, steps, 6);
  }

  /** From a reservation to a stored object: heartbeat, put, heartbeat. */
  lemma StoresItsObject(w: World, id: nat, begun: Repo, request: Reservation, beats: (int, int))
    requires HeartbeatReply(begun, request.invocationId, request.requestDigest, 1, beats.0).Invoked?
    requires var beaten := HeartbeatCreate(begun, request.invocationId, request.requestDigest, 1, beats.0);
             HeartbeatReply(beaten, request.invocationId, request.requestDigest, 1, beats.1).Invoked?
    requires Blob.PutReply(w.blobs, Blob.Put(request.objectKey, request.contentDigest, request.startedAt))
             == Blob.Accepted
    ensures var held := ArtifactRepository.Reserved(request);
            var put := Blob.Put(request.objectKey, request.contentDigest, request.startedAt);
            var beaten := HeartbeatCreate(begun, request.invocationId, request.requestDigest, 1, beats.0);
            var again := HeartbeatCreate(beaten, request.invocationId, request.requestDigest, 1, beats.1);
            var k := Creating(w, id, begun, w.blobs, w.puts, Creator(request, held, Holding));
            ArtifactProtocol.Next(ArtifactProtocol.Next(ArtifactProtocol.Next(k, CreateBeats(id, beats.0)),
                                                        CreateAnswered(id)), CreateBeats(id, beats.1))
            == Creating(w, id, again, Blob.PutIfAbsent(w.blobs, put), w.puts + {put}, Creator(request, held, Ready))
  {
    hide ArtifactProtocol.Next, Creating, HeartbeatCreate, HeartbeatReply, Blob.PutIfAbsent, Blob.PutReply;
    var c := Creator(request, ArtifactRepository.Reserved(request), Holding);
    var put := Blob.Put(request.objectKey, request.contentDigest, request.startedAt);
    Beats(w, id, begun, w.blobs, w.puts, c, beats.0);
    var beaten := HeartbeatCreate(begun, request.invocationId, request.requestDigest, 1, beats.0);
    Puts(w, id, beaten, w.blobs, w.puts + {put}, c.(phase := Putting));
    Beats(w, id, beaten, Blob.PutIfAbsent(w.blobs, put), w.puts + {put}, c.(phase := Acknowledged), beats.1);
  }

  lemma BeginsAnew(w: World, id: nat, request: Reservation)
    requires id !in w.creators && request.invocationId !in w.repo.invocations
    requires BeginReply(w.repo, request) == Invoked(ArtifactRepository.Reserved(request), false)
    ensures ArtifactProtocol.Next(ArtifactProtocol.Next(ArtifactProtocol.Next(w, CreateStarts(id, request)),
                                                        CreateLooks(id)), CreateReserves(id))
            == Creating(w, id, BeginCreate(w.repo, request), w.blobs, w.puts,
                        Creator(request, ArtifactRepository.Reserved(request), Holding))
  {
    hide ArtifactProtocol.Next, Creating, BeginCreate, BeginReply, ArtifactRepository.Reserved;
    var c := Creator(request, ArtifactRepository.Reserved(request), Looking);
    Starts(w, id, request);
    LooksInVain(w, id, c);
    Reserves(w, id, c.(phase := Reading));
  }

  /** The repository's part: reserved, kept alive twice, and settled. */
  lemma RequestSettled(quotas: map<Name, int>, r: Repo, request: Reservation, beats: (int, int), retainUntil: int)
    requires Reachable(quotas, r) && request.invocationId !in r.invocations && request.objectKey !in r.sweeps
    requires Decisions.Fits(r, request) && !Decisions.Named(r, request.artifactId)
    ensures var id, digest := request.invocationId, request.requestDigest;
            var begun := BeginCreate(r, request);
            var beaten := HeartbeatCreate(begun, id, digest, 1, beats.0);
            var again := HeartbeatCreate(beaten, id, digest, 1, beats.1);
            var n := CommitCreate(again, id, digest, 1, Asked(request, retainUntil));
            && BeginReply(r, request) == Invoked(ArtifactRepository.Reserved(request), false)
            && HeartbeatReply(begun, id, digest, 1, beats.0).Invoked?
            && HeartbeatReply(beaten, id, digest, 1, beats.1).Invoked?
            && n.artifacts == r.artifacts[request.artifactId := Asked(request, retainUntil)]
            && id in n.invocations && n.invocations[id].state == Committed
  {
    hide Reachable, BeginCreate, HeartbeatCreate, CommitCreate, BeginReply, HeartbeatReply, Pledged, Decisions.Fits,
         Decisions.Named;
    var id, digest := request.invocationId, request.requestDigest;
    var begun := BeginCreate(r, request);
    Begun(quotas, r, request);
    Beaten(begun, request, beats.0);
    Beaten(HeartbeatCreate(begun, id, digest, 1, beats.0), request, beats.1);
    Settled(HeartbeatCreate(HeartbeatCreate(begun, id, digest, 1, beats.0), id, digest, 1, beats.1), request,
            retainUntil);
  }

  /** The request is reserved and not settled. */
  predicate Pledged(r: Repo, request: Reservation) {
    && request.invocationId in r.invocations && request.artifactId !in r.artifacts
    && r.invocations[request.invocationId]
       == ArtifactRepository.Reserved(request).(heartbeatAt := r.invocations[request.invocationId].heartbeatAt)
  }

  lemma Begun(quotas: map<Name, int>, r: Repo, request: Reservation)
    requires Reachable(quotas, r) && request.invocationId !in r.invocations && request.objectKey !in r.sweeps
    requires Decisions.Fits(r, request) && !Decisions.Named(r, request.artifactId)
    ensures BeginReply(r, request) == Invoked(ArtifactRepository.Reserved(request), false)
    ensures Pledged(BeginCreate(r, request), request) && BeginCreate(r, request).artifacts == r.artifacts
  {
    var calls :| r == ArtifactRepository.Run(Initial(quotas), calls);
    hide ArtifactRepository.Run, Decisions.Fits, Decisions.Named, Affordable;
    Decisions.BeginDecided(quotas, calls, request);
    assert Admissible(r, request);
  }

  lemma Beaten(r: Repo, request: Reservation, now: int)
    requires Pledged(r, request)
    ensures HeartbeatReply(r, request.invocationId, request.requestDigest, 1, now).Invoked?
    ensures var n := HeartbeatCreate(r, request.invocationId, request.requestDigest, 1, now);
            Pledged(n, request) && n.artifacts == r.artifacts
  {
    hide ArtifactRepository.Reserved, HeartbeatCreate;
    var record := r.invocations[request.invocationId];
    PledgeIsLive(record, request, now);
    BeatMoves(r, request.invocationId, now);
  }

  lemma BeatMoves(r: Repo, id: Name, now: int)
    requires id in r.invocations && r.invocations[id].state == Inflight && r.invocations[id].generation == 1
    ensures var record := r.invocations[id];
            var n := HeartbeatCreate(r, id, record.requestDigest, 1, now);
            && n.artifacts == r.artifacts && id in n.invocations
            && (n.invocations[id] == record || n.invocations[id] == record.(heartbeatAt := now))
  {
    var record := r.invocations[id];
    var n := r.(invocations := r.invocations[id := record.(heartbeatAt := now)]);
    assert n.artifacts == r.artifacts && n.invocations[id] == record.(heartbeatAt := now);
    assert HeartbeatCreate(r, id, record.requestDigest, 1, now) == if record.heartbeatAt < now then n else r;
  }

  lemma PledgeIsLive(record: Invocation, request: Reservation, now: int)
    requires record == ArtifactRepository.Reserved(request).(heartbeatAt := record.heartbeatAt)
    ensures record.(heartbeatAt := now) == ArtifactRepository.Reserved(request).(heartbeatAt := now)
    ensures record.requestDigest == request.requestDigest && record.state == Inflight && record.generation == 1
  {
  }

  lemma Settled(r: Repo, request: Reservation, retainUntil: int)
    requires Pledged(r, request)
    ensures var n := CommitCreate(r, request.invocationId, request.requestDigest, 1, Asked(request, retainUntil));
            && n.artifacts == r.artifacts[request.artifactId := Asked(request, retainUntil)]
            && request.invocationId in n.invocations && n.invocations[request.invocationId].state == Committed
  {
    hide Bump, Listed;
    assert Live(r, request.invocationId, request.requestDigest, 1);
    assert Settles(r.invocations[request.invocationId], Asked(request, retainUntil));
  }

  lemma PutAccepted(w: World, request: Reservation)
    requires request.objectKey != NO_NAME && request.contentDigest != NO_NAME
    requires request.objectKey in w.blobs.objects ==>
               w.blobs.objects[request.objectKey].digest == request.contentDigest
    ensures Blob.PutReply(w.blobs, Blob.Put(request.objectKey, request.contentDigest, request.startedAt))
            == Blob.Accepted
  {
  }

  lemma CreatedBy(w: World, id: nat, repo: Repo, blobs: Blob.Blobs, puts: set<Blob.Put>, c: Creator, retainUntil: int)
    requires blobs == Blob.PutIfAbsent(w.blobs, Blob.Put(c.request.objectKey, c.request.contentDigest,
                                                         c.request.startedAt))
    requires repo.artifacts == w.repo.artifacts[c.request.artifactId := Asked(c.request, retainUntil)]
    requires c.request.invocationId in repo.invocations && repo.invocations[c.request.invocationId].state == Committed
    requires Welcome(w, c.request)
    ensures Created(w, Creating(w, id, repo, blobs, puts, c), c.request, retainUntil)
  {
    hide Decisions.Fits, Decisions.Named;
  }

  // ----- a create that was interrupted -----

  /** The invocation is on record as an earlier execution of the same request left it. */
  predicate Interrupted(r: Repo, request: Reservation) {
    && request.invocationId in r.invocations
    && r.invocations[request.invocationId]
       == ArtifactRepository.Reserved(request).(heartbeatAt := r.invocations[request.invocationId].heartbeatAt)
  }

  lemma StillPledged(quotas: map<Name, int>, r: Repo, request: Reservation)
    requires Reachable(quotas, r) && Interrupted(r, request)
    ensures Pledged(r, request)
  {
    var calls :| r == ArtifactRepository.Run(Initial(quotas), calls);
    hide ArtifactRepository.Run;
    Decisions.CommitAnswered(quotas, calls, request.invocationId, request.requestDigest, 1, Asked(request, 0));
  }

  lemma LooksAndFinds(w: World, id: nat, c: Creator)
    requires c.phase == Looking && Interrupted(w.repo, c.request)
    ensures ArtifactProtocol.Next(Creating(w, id, w.repo, w.blobs, w.puts, c), CreateLooks(id))
            == Creating(w, id, w.repo, w.blobs, w.puts,
                        c.(held := w.repo.invocations[c.request.invocationId], phase := Resuming))
  {
    Again(w.creators, id, c, c.(held := w.repo.invocations[c.request.invocationId], phase := Resuming));
  }

  lemma Checks(w: World, id: nat, repo: Repo, c: Creator)
    requires c.phase == Checking
    requires c.held.objectKey in w.blobs.objects ==> w.blobs.objects[c.held.objectKey].digest == c.held.contentDigest
    ensures ArtifactProtocol.Next(Creating(w, id, repo, w.blobs, w.puts, c), CreateChecks(id))
            == Creating(w, id, repo, w.blobs, w.puts,
                        c.(phase := if c.held.objectKey in w.blobs.objects then Ready else Holding))
  {
    Again(w.creators, id, c, c.(phase := Ready));
    Again(w.creators, id, c, c.(phase := Holding));
  }

  /** Left alone, a creator that finds its object stored by an interrupted execution commits the artifact. */
  lemma ResumeCompletes(quotas: map<Name, int>, before: seq<Step>, id: nat, request: Reservation, beat: int,
                        retainUntil: int)
    requires var w := Execute(Genesis(quotas), before);
             && id !in w.creators && Interrupted(w.repo, request)
             && request.objectKey in w.blobs.objects
             && w.blobs.objects[request.objectKey].digest == request.contentDigest
    ensures var w := Execute(Genesis(quotas), before);
            Created(w, Execute(w, [CreateStarts(id, request), CreateLooks(id), CreateBeats(id, beat), CreateChecks(id),
                                   CreateCommits(id, retainUntil)]), request, retainUntil)
  {
    hide Execute, Genesis, ArtifactProtocol.Next, Created, Reachable, Creating, HeartbeatCreate, HeartbeatReply,
         CommitCreate;
    var w := Execute(Genesis(quotas), before);
    var steps := [CreateStarts(id, request), CreateLooks(id), CreateBeats(id, beat), CreateChecks(id),
                  CreateCommits(id, retainUntil)];
    RepositoryReachable(quotas, before);
    StillPledged(quotas, w.repo, request);
    NoStep(w);
    assert steps[..0] == [] && steps[..5] == steps;
    ExecuteStep(w, steps, 0);
    ExecuteStep(w, steps, 1);
    ExecuteStep(w, steps, 2);
    ExecuteStep(w, steps, 3);
    ExecuteStep(w, steps, 4);
    var c := Creator(request, ArtifactRepository.Reserved(request), Looking);
    Starts(w, id, request);
    LooksAndFinds(w, id, c);
    var found := c.(held := w.repo.invocations[request.invocationId], phase := Resuming);
    Beaten(w.repo, request, beat);
    Beats(w, id, w.repo, w.blobs, w.puts, found, beat);
    var beaten := HeartbeatCreate(w.repo, request.invocationId, request.requestDigest, 1, beat);
    Checks(w, id, beaten, found.(phase := Checking));
    Commits(w, id, beaten, w.blobs, w.puts, found.(phase := Ready), retainUntil);
    Settled(beaten, request, retainUntil);
    assert ArtifactOf(found.held, retainUntil) == Asked(request, retainUntil);
    ResumedBy(w, id, CommitCreate(beaten, request.invocationId, request.requestDigest, 1, Asked(request, retainUntil)),
              found.(phase := Over), retainUntil);
  }

  lemma ResumedBy(w: World, id: nat, repo: Repo, c: Creator, retainUntil: int)
    requires repo.artifacts == w.repo.artifacts[c.request.artifactId := Asked(c.request, retainUntil)]
    requires c.request.invocationId in repo.invocations && repo.invocations[c.request.invocationId].state == Committed
    requires c.request.objectKey in w.blobs.objects
    requires w.blobs.objects[c.request.objectKey].digest == c.request.contentDigest
    ensures Created(w, Creating(w, id, repo, w.blobs, w.puts, c), c.request, retainUntil)
  {
  }

  // ----- a sweep -----

  /** The world with this collector, and what it has changed. */
  function Collecting(w: World, id: nat, repo: Repo, blobs: Blob.Blobs, deletes: set<Deletion>,
                      collector: Collector): World {
    w.(repo := repo, blobs := blobs, deletes := deletes, collectors := w.collectors[id := collector])
  }

  lemma Twice(collectors: map<nat, Collector>, id: nat, first: Collector, second: Collector)
    ensures collectors[id := first][id := second] == collectors[id := second]
  {
  }

  /** The collector once it knows this much about the claim's object. */
  function Knowing(c: Collector, claim: SweepClaim, stage: Stage): Collector {
    c.(stages := c.stages[claim := stage])
  }

  lemma KnowsMore(w: World, id: nat, c: Collector, claim: SweepClaim, first: Stage, second: Stage)
    ensures Knowing(Knowing(c, claim, first), claim, second) == Knowing(c, claim, second)
    ensures w.collectors[id := Knowing(c, claim, first)][id := Knowing(c, claim, second)]
            == w.collectors[id := Knowing(c, claim, second)]
  {
    assert c.stages[claim := first][claim := second] == c.stages[claim := second];
  }

  lemma Heads(w: World, id: nat, c: Collector, claim: SweepClaim)
    ensures var k := Collecting(w, id, w.repo, w.blobs, w.deletes, Knowing(c, claim, Unknown));
            ArtifactProtocol.Next(k, CollectHeads(id, claim))
            == Collecting(w, id, w.repo, w.blobs, w.deletes, Knowing(c, claim, SeenByHead(w, claim)))
  {
    hide SeenByHead;
    var k := Collecting(w, id, w.repo, w.blobs, w.deletes, Knowing(c, claim, Unknown));
    KnowsMore(w, id, c, claim, Unknown, SeenByHead(w, claim));
    assert SeenByHead(k, claim) == SeenByHead(w, claim) by {
      HeadReadsBlobs(k, w, claim);
    }
  }

  lemma HeadReadsBlobs(k: World, w: World, claim: SweepClaim)
    requires k.blobs == w.blobs
    ensures SeenByHead(k, claim) == SeenByHead(w, claim)
  {
  }

  lemma Deletes(w: World, id: nat, c: Collector, claim: SweepClaim)
    ensures var k := Collecting(w, id, w.repo, w.blobs, w.deletes, Knowing(c, claim, Present));
            var deletes := w.deletes + {Deletion(claim.objectKey, claim.objectVersion)};
            ArtifactProtocol.Next(k, CollectDeletes(id, claim))
            == Collecting(w, id, w.repo, w.blobs, deletes, Knowing(c, claim, Issued))
  {
    KnowsMore(w, id, c, claim, Present, Issued);
  }

  lemma Answered(w: World, id: nat, deletes: set<Deletion>, c: Collector, claim: SweepClaim)
    requires Blob.DeleteReply(w.blobs, claim.objectKey, claim.objectVersion) == Blob.Accepted
    ensures var k := Collecting(w, id, w.repo, w.blobs, deletes, Knowing(c, claim, Issued));
            ArtifactProtocol.Next(k, CollectAnswered(id, claim))
            == Collecting(w, id, w.repo, Blob.DeleteIfVersion(w.blobs, claim.objectKey, claim.objectVersion), deletes,
                          Knowing(c, claim, Absent))
  {
    hide Blob.DeleteIfVersion, Blob.DeleteReply;
    KnowsMore(w, id, c, claim, Issued, Absent);
  }

  lemma Finishes(w: World, id: nat, blobs: Blob.Blobs, deletes: set<Deletion>, c: Collector, claim: SweepClaim,
                 now: int)
    ensures var k := Collecting(w, id, w.repo, blobs, deletes, Knowing(c, claim, Absent));
            ArtifactProtocol.Next(k, CollectFinishes(id, claim, now))
            == Collecting(w, id, FinishSweepLeased(w.repo, c.lease, claim, true, now), blobs, deletes,
                          Knowing(c, claim, Absent))
  {
    hide FinishSweepLeased;
  }

  lemma Retires(w: World, id: nat, c: Collector, claim: SweepClaim)
    ensures var k := Collecting(w, id, w.repo, w.blobs, w.deletes, Knowing(c, claim, Replaced));
            ArtifactProtocol.Next(k, CollectRetires(id, claim))
            == Collecting(w, id, RetireSweepLeased(w.repo, c.lease, claim), w.blobs, w.deletes,
                          Knowing(c, claim, Replaced))
  {
    hide RetireSweepLeased;
  }

  /** The collector's claim is the one on record for its key, under its lease, and it has not looked yet. */
  predicate Claiming(w: World, id: nat, claim: SweepClaim) {
    && id in w.collectors && claim in w.collectors[id].stages && w.collectors[id].stages[claim] == Unknown
    && Decisions.Owns(w.repo, w.collectors[id].lease, claim)
  }

  /** The claim is given up, tombstoned artifacts of the object are purged, and these objects are left. */
  ghost predicate Swept(w: World, n: World, claim: SweepClaim, now: int, objects: map<Name, Blob.Info>) {
    && n.blobs.objects == objects && n.repo.sweeps == w.repo.sweeps - {claim.objectKey}
    && n.repo.invocations == w.repo.invocations && n.repo.artifacts.Keys == w.repo.artifacts.Keys
    && (forall a | a in w.repo.artifacts ::
          n.repo.artifacts[a] == if a in Decisions.Purgeable(w.repo.artifacts, claim.objectKey)
                                 then Decisions.Purge(w.repo.artifacts[a], now) else w.repo.artifacts[a])
    && n.creators == w.creators && n.puts == w.puts
  }

  lemma FinishSweeps(quotas: map<Name, int>, w: World, id: nat, claim: SweepClaim, now: int, blobs: Blob.Blobs,
                     deletes: set<Deletion>, c: Collector, after: Collector)
    requires Reachable(quotas, w.repo) && Decisions.Owns(w.repo, c.lease, claim)
    ensures Swept(w, Collecting(w, id, FinishSweepLeased(w.repo, c.lease, claim, true, now), blobs, deletes, after),
                  claim, now, blobs.objects)
  {
    var calls :| w.repo == ArtifactRepository.Run(Initial(quotas), calls);
    hide ArtifactRepository.Run, Decisions.Owns, Decisions.Purgeable, Decisions.Purge, FinishSweepLeased, FinishReply,
         ArtifactRepository.Apply;
    Decisions.FinishDecided(quotas, calls, c.lease, claim, true, now);
    FinishIsApplied(w.repo, c.lease, claim, now);
  }

  lemma FinishIsApplied(r: Repo, lease: Lease, claim: SweepClaim, now: int)
    ensures ArtifactRepository.Apply(r, Finish(lease, claim, true, now))
            == FinishSweepLeased(r, lease, claim, true, now)
  {
  }

  /** A collector that finds the claimed version stored, and is left alone, removes it and finishes. */
  lemma SweepCompletes(quotas: map<Name, int>, before: seq<Step>, id: nat, claim: SweepClaim, now: int)
    requires var w := Execute(Genesis(quotas), before);
             && Claiming(w, id, claim) && claim.objectKey in w.blobs.objects
             && w.blobs.objects[claim.objectKey].version == claim.objectVersion
    ensures var w := Execute(Genesis(quotas), before);
            Swept(w, Execute(w, [CollectHeads(id, claim), CollectDeletes(id, claim), CollectAnswered(id, claim),
                                 CollectFinishes(id, claim, now)]),
                  claim, now, w.blobs.objects - {claim.objectKey})
  {
    hide Execute, Genesis, ArtifactProtocol.Next, Swept, Reachable, Collecting, FinishSweepLeased, Decisions.Owns,
         Blob.DeleteIfVersion, Blob.DeleteReply, Knowing;
    var w := Execute(Genesis(quotas), before);
    var steps := [CollectHeads(id, claim), CollectDeletes(id, claim), CollectAnswered(id, claim),
                  CollectFinishes(id, claim, now)];
    var c := w.collectors[id];
    RepositoryReachable(quotas, before);
    AsItIs(w, id, claim);
    NoStep(w);
    assert steps[..0] == [] && steps[..4] == steps;
    ExecuteStep(w, steps, 0);
    ExecuteStep(w, steps, 1);
    ExecuteStep(w, steps, 2);
    ExecuteStep(w, steps, 3);
    Heads(w, id, c, claim);
    Deletes(w, id, c, claim);
    var deletes := w.deletes + {Deletion(claim.objectKey, claim.objectVersion)};
    DeleteTakes(quotas, before, claim);
    Answered(w, id, deletes, c, claim);
    var blobs := Blob.DeleteIfVersion(w.blobs, claim.objectKey, claim.objectVersion);
    Finishes(w, id, blobs, deletes, c, claim, now);
    FinishSweeps(quotas, w, id, claim, now, blobs, deletes, c, Knowing(c, claim, Absent));
  }

  /** A world is itself with the collector it has. */
  lemma AsItIs(w: World, id: nat, claim: SweepClaim)
    requires id in w.collectors && claim in w.collectors[id].stages && w.collectors[id].stages[claim] == Unknown
    ensures Collecting(w, id, w.repo, w.blobs, w.deletes, Knowing(w.collectors[id], claim, Unknown)) == w
  {
    var c := w.collectors[id];
    assert c.stages[claim := Unknown] == c.stages;
    assert w.collectors[id := c] == w.collectors;
  }

  lemma DeleteTakes(quotas: map<Name, int>, before: seq<Step>, claim: SweepClaim)
    requires var w := Execute(Genesis(quotas), before);
             && claim.objectKey in w.blobs.objects
             && w.blobs.objects[claim.objectKey].version == claim.objectVersion
    ensures var w := Execute(Genesis(quotas), before);
            && Blob.DeleteReply(w.blobs, claim.objectKey, claim.objectVersion) == Blob.Accepted
            && Blob.DeleteIfVersion(w.blobs, claim.objectKey, claim.objectVersion).objects
               == w.blobs.objects - {claim.objectKey}
  {
    hide Execute, Genesis, Safety.ActiveBacked, Safety.CreatorsBacked, Safety.DeletesAccounted,
         Safety.CollectorsAccounted, Safety.SweepsIssued;
    Safety.RunSafe(quotas, before);
    Blob.NoVersionZero(Execute(Genesis(quotas), before).blobs);
  }

  /** One that finds no object finishes at once. */
  lemma AbsentIsFinished(quotas: map<Name, int>, before: seq<Step>, id: nat, claim: SweepClaim, now: int)
    requires var w := Execute(Genesis(quotas), before);
             Claiming(w, id, claim) && claim.objectKey !in w.blobs.objects
    ensures var w := Execute(Genesis(quotas), before);
            Swept(w, Execute(w, [CollectHeads(id, claim), CollectFinishes(id, claim, now)]), claim, now,
                  w.blobs.objects)
  {
    hide Execute, Genesis, ArtifactProtocol.Next, Swept, Reachable, Collecting, FinishSweepLeased, Decisions.Owns,
         Knowing;
    var w := Execute(Genesis(quotas), before);
    var steps := [CollectHeads(id, claim), CollectFinishes(id, claim, now)];
    var c := w.collectors[id];
    RepositoryReachable(quotas, before);
    AsItIs(w, id, claim);
    NoStep(w);
    assert steps[..0] == [] && steps[..2] == steps;
    ExecuteStep(w, steps, 0);
    ExecuteStep(w, steps, 1);
    Heads(w, id, c, claim);
    Finishes(w, id, w.blobs, w.deletes, c, claim, now);
    FinishSweeps(quotas, w, id, claim, now, w.blobs, w.deletes, c, Knowing(c, claim, Absent));
  }

  /** One that finds another version stored gives the claim up and touches nothing else. */
  lemma ReplacedIsRetired(quotas: map<Name, int>, before: seq<Step>, id: nat, claim: SweepClaim)
    requires var w := Execute(Genesis(quotas), before);
             && Claiming(w, id, claim) && claim.objectKey in w.blobs.objects
             && w.blobs.objects[claim.objectKey].version != claim.objectVersion
    ensures var w := Execute(Genesis(quotas), before);
            var n := Execute(w, [CollectHeads(id, claim), CollectRetires(id, claim)]);
            && n.repo == w.repo.(sweeps := n.repo.sweeps) && n.repo.sweeps == w.repo.sweeps - {claim.objectKey}
            && n.blobs == w.blobs && n.deletes == w.deletes && n.creators == w.creators
  {
    hide Execute, Genesis, ArtifactProtocol.Next, Reachable, RetireSweepLeased, Decisions.Owns, Knowing;
    var w := Execute(Genesis(quotas), before);
    var steps := [CollectHeads(id, claim), CollectRetires(id, claim)];
    var c := w.collectors[id];
    RepositoryReachable(quotas, before);
    AsItIs(w, id, claim);
    NoStep(w);
    assert steps[..0] == [] && steps[..2] == steps;
    ExecuteStep(w, steps, 0);
    ExecuteStep(w, steps, 1);
    Heads(w, id, c, claim);
    Retires(w, id, c, claim);
    RetireGivesUp(quotas, w.repo, c.lease, claim);
  }

  lemma RetireGivesUp(quotas: map<Name, int>, r: Repo, lease: Lease, claim: SweepClaim)
    requires Reachable(quotas, r) && Decisions.Owns(r, lease, claim)
    ensures var n := RetireSweepLeased(r, lease, claim);
            n == r.(sweeps := n.sweeps) && n.sweeps == r.sweeps - {claim.objectKey}
  {
    var calls :| r == ArtifactRepository.Run(Initial(quotas), calls);
    hide ArtifactRepository.Run, Decisions.Owns, RetireSweepLeased, RetireReply;
    Decisions.RetireDecided(quotas, calls, lease, claim);
  }

  // ----- how a claim comes about -----

  /** No collector is at work, and nothing refers to this object any more. */
  ghost predicate Orphan(w: World, info: Blob.Info, now: int, cutoff: int) {
    && !(w.repo.leaseHeld && now < w.repo.lease.expiresAt)
    && info.key in w.blobs.objects && w.blobs.objects[info.key] == info && info.createdAt <= cutoff
    && info.key !in w.repo.sweeps && Decisions.Idle(w.repo, info.key)
    && (info.key in w.repo.latestTombstone ==> w.repo.latestTombstone[info.key] <= cutoff)
  }

  function ClaimSteps(id: nat, now: int, duration: int, epoch: Blob.Epoch, cursor: int, limit: int, info: Blob.Info,
                      cutoff: int): seq<Step> {
    [CollectStarts(id, now, duration), CollectLists(id, epoch, cursor, limit), CollectClaims(id, info, cutoff)]
  }

  /** A collector that starts, reads a page with an orphan on it and asks for it, has it claimed. */
  lemma OrphanIsClaimed(quotas: map<Name, int>, before: seq<Step>, id: nat, now: int, duration: int,
                        epoch: Blob.Epoch, cursor: int, limit: int, info: Blob.Info, cutoff: int)
    requires var w := Execute(Genesis(quotas), before);
             && id !in w.collectors && 0 < duration && Orphan(w, info, now, cutoff)
             && Blob.ListPage(w.blobs, epoch, cursor, limit).Listing?
             && info in Blob.ListPage(w.blobs, epoch, cursor, limit).objects
    ensures var w := Execute(Genesis(quotas), before);
            var n := Execute(w, ClaimSteps(id, now, duration, epoch, cursor, limit, info, cutoff));
            var claim := SweepClaim(info.key, info.version, w.repo.nextSweepToken + 1, w.repo.nextLeaseToken + 1);
            && Claiming(n, id, claim) && n.blobs == w.blobs && n.creators == w.creators
            && n.repo.artifacts == w.repo.artifacts && n.repo.invocations == w.repo.invocations
            && n.repo.sweeps - {info.key} == w.repo.sweeps
  {
    hide Execute, Genesis, ArtifactProtocol.Next, Reachable, AcquireGC, ClaimSweepLeased, Decisions.Owns, Orphan,
         Blob.ListPage, ClaimReply;
    var w := Execute(Genesis(quotas), before);
    var steps := ClaimSteps(id, now, duration, epoch, cursor, limit, info, cutoff);
    RepositoryReachable(quotas, before);
    NoStep(w);
    assert steps[..0] == [] && steps[..3] == steps;
    ExecuteStep(w, steps, 0);
    ExecuteStep(w, steps, 1);
    ExecuteStep(w, steps, 2);
    var lease := Lease(w.repo.nextLeaseToken + 1, now + duration, w.repo.checkpoint);
    var held := AcquireGC(w.repo, now, duration);
    var c := Collector(lease, set i | i in Blob.ListPage(w.blobs, epoch, cursor, limit).objects, map[]);
    var claim := SweepClaim(info.key, info.version, w.repo.nextSweepToken + 1, lease.token);
    CallReaches(quotas, w.repo, Acquire(now, duration));
    LeaseGranted(w, now, duration, info, cutoff);
    Begins(w, id, now, duration, lease);
    Lists(w, id, held, lease, epoch, cursor, limit);
    StoredIsNamed(quotas, before, info.key);
    ClaimGranted(quotas, held, lease, info.key, info.version, cutoff);
    Claims(w, id, held, c, info, cutoff);
    assert Knowing(c, claim, Unknown).stages[claim] == Unknown;
  }

  lemma LeaseGranted(w: World, now: int, duration: int, info: Blob.Info, cutoff: int)
    requires 0 < duration && Orphan(w, info, now, cutoff)
    ensures var lease := Lease(w.repo.nextLeaseToken + 1, now + duration, w.repo.checkpoint);
            var held := AcquireGC(w.repo, now, duration);
            && AcquireReply(w.repo, now, duration) == Granted(lease) && Decisions.Holder(held, lease)
            && held.sweeps == w.repo.sweeps && held.artifacts == w.repo.artifacts
            && held.invocations == w.repo.invocations && held.nextSweepToken == w.repo.nextSweepToken
            && info.key !in held.sweeps && Decisions.Idle(held, info.key)
            && (info.key in held.latestTombstone ==> held.latestTombstone[info.key] <= cutoff)
            && info.createdAt <= cutoff && info.key in w.blobs.objects && w.blobs.objects[info.key] == info
  {
    assert Grantable(w.repo, now, duration);
    assert AcquireGC(w.repo, now, duration)
           == w.repo.(nextLeaseToken := w.repo.nextLeaseToken + 1, lease := NextLease(w.repo, now, duration),
                      leaseHeld := true);
  }

  lemma Begins(w: World, id: nat, now: int, duration: int, lease: Lease)
    requires id !in w.collectors && AcquireReply(w.repo, now, duration) == Granted(lease)
    ensures ArtifactProtocol.Next(w, CollectStarts(id, now, duration))
            == Collecting(w, id, AcquireGC(w.repo, now, duration), w.blobs, w.deletes, Collector(lease, {}, map[]))
  {
    hide AcquireGC, AcquireReply;
  }

  lemma Lists(w: World, id: nat, repo: Repo, lease: Lease, epoch: Blob.Epoch, cursor: int, limit: int)
    requires Blob.ListPage(w.blobs, epoch, cursor, limit).Listing?
    ensures var c := Collector(lease, set i | i in Blob.ListPage(w.blobs, epoch, cursor, limit).objects, map[]);
            ArtifactProtocol.Next(Collecting(w, id, repo, w.blobs, w.deletes, Collector(lease, {}, map[])),
                                  CollectLists(id, epoch, cursor, limit))
            == Collecting(w, id, repo, w.blobs, w.deletes, c)
  {
    hide Blob.ListPage;
    var listed := set i | i in Blob.ListPage(w.blobs, epoch, cursor, limit).objects;
    assert {} + listed == listed;
    Twice(w.collectors, id, Collector(lease, {}, map[]), Collector(lease, listed, map[]));
  }

  lemma ClaimGranted(quotas: map<Name, int>, r: Repo, lease: Lease, key: Name, version: nat, cutoff: int)
    requires Reachable(quotas, r) && Decisions.Holder(r, lease) && key != NO_NAME && version != 0
    requires key !in r.sweeps && Decisions.Idle(r, key)
    requires key in r.latestTombstone ==> r.latestTombstone[key] <= cutoff
    ensures var claim := SweepClaim(key, version, r.nextSweepToken + 1, lease.token);
            var n := ClaimSweepLeased(r, lease, key, version, cutoff);
            && ClaimReply(r, lease, key, version, cutoff) == Claimed(claim) && Decisions.Owns(n, lease, claim)
            && n.sweeps - {key} == r.sweeps
            && n.artifacts == r.artifacts && n.invocations == r.invocations
  {
    var calls :| r == ArtifactRepository.Run(Initial(quotas), calls);
    hide ArtifactRepository.Run, Decisions.Idle;
    ClaimIsGiven(quotas, calls, lease, key, version, cutoff);
    assert Claimable(r, lease, key, version, cutoff);
    ClaimFiles(r, lease, key, version, cutoff);
    hide ClaimSweepLeased;
  }

  lemma ClaimFiles(r: Repo, lease: Lease, key: Name, version: nat, cutoff: int)
    requires Claimable(r, lease, key, version, cutoff)
    ensures var n := ClaimSweepLeased(r, lease, key, version, cutoff);
            && Decisions.Owns(n, lease, NextClaim(r, lease, key, version)) && n.sweeps - {key} == r.sweeps
            && n.artifacts == r.artifacts && n.invocations == r.invocations
  {
    var sweeps := r.sweeps[key := Sweep(NextClaim(r, lease, key, version), r.nextSweepOrder + 1)];
    assert sweeps - {key} == r.sweeps;
    var n := r.(nextSweepToken := r.nextSweepToken + 1, nextSweepOrder := r.nextSweepOrder + 1, sweeps := sweeps);
    assert n.artifacts == r.artifacts && n.invocations == r.invocations && n.sweeps == sweeps;
    assert n.leaseHeld == r.leaseHeld && n.lease == r.lease;
    assert ClaimSweepLeased(r, lease, key, version, cutoff) == n;
  }

  lemma ClaimIsGiven(quotas: map<Name, int>, calls: seq<Call>, lease: Lease, key: Name, version: nat, cutoff: int)
    requires var r := ArtifactRepository.Run(Initial(quotas), calls);
             && Decisions.Holder(r, lease) && key != NO_NAME && version != 0 && key !in r.sweeps
             && Decisions.Idle(r, key) && (key in r.latestTombstone ==> r.latestTombstone[key] <= cutoff)
    ensures ClaimReply(ArtifactRepository.Run(Initial(quotas), calls), lease, key, version, cutoff).Claimed?
  {
    hide ArtifactRepository.Run, Decisions.Idle, Decisions.FiledLast, ClaimReply, ArtifactRepository.Apply;
    Decisions.ClaimDecided(quotas, calls, lease, key, version, cutoff);
  }

  lemma Claims(w: World, id: nat, repo: Repo, c: Collector, info: Blob.Info, cutoff: int)
    requires info in c.listed && info.createdAt <= cutoff
    requires ClaimReply(repo, c.lease, info.key, info.version, cutoff).Claimed?
    ensures var claim := SweepClaim(info.key, info.version, repo.nextSweepToken + 1, c.lease.token);
            ArtifactProtocol.Next(Collecting(w, id, repo, w.blobs, w.deletes, c), CollectClaims(id, info, cutoff))
            == Collecting(w, id, ClaimSweepLeased(repo, c.lease, info.key, info.version, cutoff), w.blobs, w.deletes,
                          Knowing(c, claim, Unknown))
  {
    hide ClaimSweepLeased, ClaimReply;
    var claim := SweepClaim(info.key, info.version, repo.nextSweepToken + 1, c.lease.token);
    Twice(w.collectors, id, c, Knowing(c, claim, Unknown));
  }

  /** Stored objects have a name and a version. */
  lemma {:induction false} StoredIsNamed(quotas: map<Name, int>, steps: seq<Step>, key: Name)
    requires key in Execute(Genesis(quotas), steps).blobs.objects
    ensures key != NO_NAME && Execute(Genesis(quotas), steps).blobs.objects[key].version != 0
  {
    hide ArtifactProtocol.Next, Safety.ActiveBacked, Safety.CreatorsBacked, Safety.DeletesAccounted,
         Safety.CollectorsAccounted, Safety.SweepsIssued;
    Safety.RunSafe(quotas, steps);
    Blob.NoVersionZero(Execute(Genesis(quotas), steps).blobs);
    if steps != [] {
      var w := Execute(Genesis(quotas), steps[..|steps| - 1]);
      Safety.NextMoves(w, steps[|steps| - 1]);
      if key in w.blobs.objects {
        StoredIsNamed(quotas, steps[..|steps| - 1], key);
      }
    }
  }

  // ----- an orphan is swept -----

  lemma {:induction false} ExecuteMore(w: World, first: seq<Step>, second: seq<Step>)
    ensures Execute(w, first + second) == Execute(Execute(w, first), second)
  {
    hide ArtifactProtocol.Next;
    if second == [] {
      assert first + second == first;
    } else {
      ExecuteMore(w, first, second[..|second| - 1]);
      assert (first + second)[..|first + second| - 1] == first + second[..|second| - 1];
    }
  }

  /** Left alone, a collector removes an object nothing refers to any more, and no other. */
  lemma OrphanIsSwept(quotas: map<Name, int>, before: seq<Step>, id: nat, now: int, duration: int,
                      epoch: Blob.Epoch, cursor: int, limit: int, info: Blob.Info, cutoff: int)
    requires var w := Execute(Genesis(quotas), before);
             && id !in w.collectors && 0 < duration && Orphan(w, info, now, cutoff)
             && Blob.ListPage(w.blobs, epoch, cursor, limit).Listing?
             && info in Blob.ListPage(w.blobs, epoch, cursor, limit).objects
    ensures var w := Execute(Genesis(quotas), before);
            var claim := SweepClaim(info.key, info.version, w.repo.nextSweepToken + 1, w.repo.nextLeaseToken + 1);
            var n := Execute(Execute(w, ClaimSteps(id, now, duration, epoch, cursor, limit, info, cutoff)),
                             [CollectHeads(id, claim), CollectDeletes(id, claim), CollectAnswered(id, claim),
                              CollectFinishes(id, claim, now)]);
            && n.blobs.objects == w.blobs.objects - {info.key} && n.repo.sweeps == w.repo.sweeps
            && n.creators == w.creators && n.repo.invocations == w.repo.invocations
  {
    hide Execute, Genesis, Blob.ListPage, Decisions.Purgeable, Decisions.Purge, Decisions.Owns, Decisions.Idle;
    var w := Execute(Genesis(quotas), before);
    var steps := ClaimSteps(id, now, duration, epoch, cursor, limit, info, cutoff);
    var claim := SweepClaim(info.key, info.version, w.repo.nextSweepToken + 1, w.repo.nextLeaseToken + 1);
    OrphanIsClaimed(quotas, before, id, now, duration, epoch, cursor, limit, info, cutoff);
    ExecuteMore(Genesis(quotas), before, steps);
    SweepCompletes(quotas, before + steps, id, claim, now);
  }

  // ----- the claims of a collector that stopped -----

  /** A collector that starts after another one stopped, and asks for all claims, holds each of them. */
  lemma ClaimsAreTakenOver(quotas: map<Name, int>, before: seq<Step>, id: nat, now: int, duration: int, limit: int,
                           key: Name)
    requires var w := Execute(Genesis(quotas), before);
             && id !in w.collectors && 0 < duration && !(w.repo.leaseHeld && now < w.repo.lease.expiresAt)
             && |w.repo.sweeps| <= limit && limit <= MAXIMUM_GC_BATCH && key in w.repo.sweeps
    ensures var w := Execute(Genesis(quotas), before);
            var n := Execute(w, [CollectStarts(id, now, duration), CollectPending(id, limit)]);
            && Claiming(n, id, w.repo.sweeps[key].claim.(leaseToken := w.repo.nextLeaseToken + 1))
            && n.repo.sweeps.Keys == w.repo.sweeps.Keys && n.blobs == w.blobs && n.creators == w.creators
  {
    hide Execute, Genesis, ArtifactProtocol.Next, Reachable, AcquireGC, PendingSweepsPage, PendingReply, Learn;
    var w := Execute(Genesis(quotas), before);
    var steps := [CollectStarts(id, now, duration), CollectPending(id, limit)];
    RepositoryReachable(quotas, before);
    NoStep(w);
    assert steps[..0] == [] && steps[..2] == steps;
    ExecuteStep(w, steps, 0);
    ExecuteStep(w, steps, 1);
    var lease := Lease(w.repo.nextLeaseToken + 1, now + duration, w.repo.checkpoint);
    var held := AcquireGC(w.repo, now, duration);
    FreeIsGranted(w.repo, now, duration);
    Begins(w, id, now, duration, lease);
    CallReaches(quotas, w.repo, Acquire(now, duration));
    HandedOver(quotas, held, lease, limit, key);
    Learns(w, id, held, lease, limit);
    LearntUnknown(PendingReply(held, lease, limit).claims, held.sweeps[key].claim.(leaseToken := lease.token));
  }

  lemma FreeIsGranted(r: Repo, now: int, duration: int)
    requires 0 < duration && !(r.leaseHeld && now < r.lease.expiresAt)
    ensures var lease := Lease(r.nextLeaseToken + 1, now + duration, r.checkpoint);
            var held := AcquireGC(r, now, duration);
            && AcquireReply(r, now, duration) == Granted(lease) && Decisions.Holder(held, lease)
            && held.sweeps == r.sweeps
  {
  }

  lemma HandedOver(quotas: map<Name, int>, r: Repo, lease: Lease, limit: int, key: Name)
    requires Reachable(quotas, r) && Decisions.Holder(r, lease) && key in r.sweeps
    requires |r.sweeps| <= limit && limit <= MAXIMUM_GC_BATCH
    ensures var n := PendingSweepsPage(r, lease, limit);
            var claim := r.sweeps[key].claim.(leaseToken := lease.token);
            && PendingReply(r, lease, limit).Offered? && claim in PendingReply(r, lease, limit).claims
            && claim.objectKey == key && key in n.sweeps && n.sweeps[key].claim == claim
            && n.sweeps.Keys == r.sweeps.Keys
            && Decisions.Holder(n, lease)
  {
    var calls :| r == ArtifactRepository.Run(Initial(quotas), calls);
    hide ArtifactRepository.Run, ArtifactRepository.Apply, PendingReply, PendingSweepsPage, Decisions.OffersOldest;
    assert r.sweeps.Keys != {} && |r.sweeps| == |r.sweeps.Keys|;
    Decisions.PendingDecided(quotas, calls, lease, limit);
    PendingIsApplied(r, lease, limit);
    OffersKeepKeys(r, PendingSweepsPage(r, lease, limit), lease, limit, PendingReply(r, lease, limit).claims);
    var n := PendingSweepsPage(r, lease, limit);
    EverythingOffered(r, n, lease, limit, PendingReply(r, lease, limit).claims, key);
  }

  lemma PendingIsApplied(r: Repo, lease: Lease, limit: int)
    ensures ArtifactRepository.Apply(r, Pending(lease, limit)) == PendingSweepsPage(r, lease, limit)
  {
    hide PendingSweepsPage;
  }

  lemma OffersKeepKeys(r: Repo, n: Repo, lease: Lease, limit: int, claims: seq<SweepClaim>)
    requires Decisions.OffersOldest(r, n, lease, limit, claims)
    ensures n.sweeps.Keys == r.sweeps.Keys
  {
  }

  lemma EverythingOffered(r: Repo, n: Repo, lease: Lease, limit: int, claims: seq<SweepClaim>, key: Name)
    requires Decisions.OffersOldest(r, n, lease, limit, claims) && |r.sweeps| <= limit && key in r.sweeps
    ensures var claim := r.sweeps[key].claim.(leaseToken := lease.token);
            claim in claims && claim.objectKey == key && key in n.sweeps && n.sweeps[key].claim == claim
  {
    if !Decisions.IsOffered(claims, key) {
      var offered := KeysOf(claims, |claims|);
      DistinctKeys(r.sweeps, claims, |claims|);
      assert |claims| == limit;
      forall k | k in offered
        ensures k in r.sweeps.Keys - {key}
      {
        KeysAre(claims, |claims|, k);
      }
      assert |r.sweeps.Keys - {key}| == |r.sweeps.Keys| - 1 && |r.sweeps.Keys| == |r.sweeps|;
      Smaller(offered, r.sweeps.Keys - {key});
      assert false;
    }
    var i :| 0 <= i < |claims| && claims[i].objectKey == key;
    assert claims[i] in claims;
  }

  function KeysOf(claims: seq<SweepClaim>, n: nat): set<Name>
    requires n <= |claims|
  {
    if n == 0 then {} else KeysOf(claims, n - 1) + {claims[n - 1].objectKey}
  }

  lemma {:induction false} KeysAre(claims: seq<SweepClaim>, n: nat, key: Name)
    requires n <= |claims|
    ensures key in KeysOf(claims, n) <==> exists i :: 0 <= i < n && claims[i].objectKey == key
  {
    if n > 0 {
      KeysAre(claims, n - 1, key);
    }
  }

  lemma {:induction false} DistinctKeys(sweeps: map<Name, Sweep>, claims: seq<SweepClaim>, n: nat)
    requires Decisions.OldestFirst(sweeps, claims) && n <= |claims|
    ensures |KeysOf(claims, n)| == n
  {
    if n > 0 {
      DistinctKeys(sweeps, claims, n - 1);
      KeysAre(claims, n - 1, claims[n - 1].objectKey);
    }
  }

  lemma {:induction false} Smaller(a: set<Name>, b: set<Name>)
    requires a <= b
    ensures |a| <= |b|
  {
    if a != {} {
      var some :| some in a;
      Smaller(a - {some}, b - {some});
    }
  }

  lemma Learns(w: World, id: nat, repo: Repo, lease: Lease, limit: int)
    requires PendingReply(repo, lease, limit).Offered?
    ensures ArtifactProtocol.Next(Collecting(w, id, repo, w.blobs, w.deletes, Collector(lease, {}, map[])),
                                  CollectPending(id, limit))
            == Collecting(w, id, PendingSweepsPage(repo, lease, limit), w.blobs, w.deletes,
                          Collector(lease, {}, Learn(map[], PendingReply(repo, lease, limit).claims)))
  {
    hide PendingSweepsPage, PendingReply, Learn;
    Twice(w.collectors, id, Collector(lease, {}, map[]),
          Collector(lease, {}, Learn(map[], PendingReply(repo, lease, limit).claims)));
  }

  lemma {:induction false} LearntUnknown(claims: seq<SweepClaim>, claim: SweepClaim)
    requires claim in claims
    ensures claim in Learn(map[], claims) && Learn(map[], claims)[claim] == Unknown
  {
    var last := claims[|claims| - 1];
    if claim != last {
      assert claims == claims[..|claims| - 1] + [last];
      LearntUnknown(claims[..|claims| - 1], claim);
    }
  }

  // ----- a creator works on its own request -----

  /** Once it holds a record, it is the inflight record of this very request. */
  predicate Own(c: Creator) {
    Safety.Bound(c.phase) ==>
      && c.held.invocationId == c.request.invocationId && c.held.tenant == c.request.tenant
      && c.held.requestDigest == c.request.requestDigest && c.held.state == Inflight
  }

  ghost predicate AllOwn(creators: map<nat, Creator>) {
    forall id | id in creators :: Own(creators[id])
  }

  lemma OneMoreOwn(creators: map<nat, Creator>, id: nat, c: Creator)
    requires AllOwn(creators) && Own(c)
    ensures AllOwn(creators[id := c])
  {
  }

  ghost predicate Filed(invocations: map<Name, Invocation>) {
    forall id | id in invocations :: invocations[id].invocationId == id
  }

  lemma LookedOwn(w: World, c: Creator)
    requires Own(c) && Filed(w.repo.invocations)
    ensures Own(Looked(w, c))
  {
  }

  lemma ReservedOwn(w: World, c: Creator)
    requires Own(c) && Filed(w.repo.invocations)
    ensures Own(AfterReserve(c, BeginReply(w.repo, c.request)))
  {
  }

  lemma CreatorStepOwn(w: World, step: Step)
    requires AllOwn(w.creators) && Filed(w.repo.invocations) && ByCreator(step)
    ensures AllOwn(CreatorStep(w, step).creators)
  {
    hide AllOwn, Filed, BeginCreate, HeartbeatCreate, CommitCreate, Looked, AfterReserve, BeginReply, HeartbeatReply,
         Blob.PutIfAbsent, Blob.PutReply;
    match step
    case CreateStarts(id, request) =>
      OneMoreOwn(w.creators, id, Creator(request, ArtifactRepository.Reserved(request), Looking));
    case CreateLooks(id) =>
      if id in w.creators {
        OwnAt(w.creators, id);
        LookedOwn(w, w.creators[id]);
        OneMoreOwn(w.creators, id, Looked(w, w.creators[id]));
      }
    case CreateReserves(id) =>
      if id in w.creators {
        var c := w.creators[id];
        OwnAt(w.creators, id);
        ReservedOwn(w, c);
        OneMoreOwn(w.creators, id, AfterReserve(c, BeginReply(w.repo, c.request)));
      }
    case CreateBeats(id, now) =>
      if id in w.creators && w.creators[id].phase in {Resuming, Holding, Acknowledged} {
        var c := w.creators[id];
        OwnAt(w.creators, id);
        var reply := HeartbeatReply(w.repo, c.held.invocationId, c.held.requestDigest, c.held.generation, now);
        OneMoreOwn(w.creators, id, AfterBeat(c, reply));
      }
    case CreateChecks(id) =>
      if id in w.creators && w.creators[id].phase.Checking? {
        OwnAt(w.creators, id);
        OneMoreOwn(w.creators, id, Checked(w, w.creators[id]));
      }
    case CreateAnswered(id) =>
      if id in w.creators && w.creators[id].phase.Putting? {
        OwnAt(w.creators, id);
        OneMoreOwn(w.creators, id, w.creators[id].(phase := Acknowledged));
        OneMoreOwn(w.creators, id, w.creators[id].(phase := Over));
      }
    case CreateCommits(id, retainUntil) =>
      if id in w.creators {
        OneMoreOwn(w.creators, id, w.creators[id].(phase := Over));
      }
  }

  lemma OwnAt(creators: map<nat, Creator>, id: nat)
    requires AllOwn(creators) && id in creators
    ensures Own(creators[id])
  {
  }

  lemma OthersKeepCreators(w: World, step: Step)
    requires !ByCreator(step)
    ensures ArtifactProtocol.Next(w, step).creators == w.creators
  {
    hide ArtifactRepository.Apply, CollectorCall, CollectorLearns, HeartbeatCreate, TombstoneArtifact,
         Blob.PutIfAbsent, Blob.DeleteIfVersion, Blob.ListPage, SeenByHead;
  }

  /** Over every run whoever puts an object or commits an artifact holds the inflight record of its own request. */
  lemma {:induction false} CreatorsKeepToTheirRequests(quotas: map<Name, int>, steps: seq<Step>)
    ensures AllOwn(Execute(Genesis(quotas), steps).creators)
  {
    hide ArtifactProtocol.Next, AllOwn, CreatorStep;
    if steps == [] {
      NobodyYet();
    } else {
      var w, step := Execute(Genesis(quotas), steps[..|steps| - 1]), steps[|steps| - 1];
      CreatorsKeepToTheirRequests(quotas, steps[..|steps| - 1]);
      if ByCreator(step) {
        RecordsFiled(quotas, steps[..|steps| - 1]);
        CreatorStepOwn(w, step);
        ByTheCreator(w, step);
      } else {
        OthersKeepCreators(w, step);
      }
    }
  }

  lemma NobodyYet()
    ensures AllOwn(map[])
  {
  }

  lemma ByTheCreator(w: World, step: Step)
    requires ByCreator(step)
    ensures ArtifactProtocol.Next(w, step) == CreatorStep(w, step)
  {
    hide CreatorStep;
  }

  lemma RecordsFiled(quotas: map<Name, int>, steps: seq<Step>)
    ensures Filed(Execute(Genesis(quotas), steps).repo.invocations)
  {
    hide Execute, Genesis, Safety.ActiveBacked, Safety.CreatorsBacked, Safety.DeletesAccounted, Blob.Sound,
         Safety.CollectorsAccounted, Safety.SweepsIssued;
    Safety.RunSafe(quotas, steps);
  }
}
