/** Collector safety over every run of the artifact protocol: no interleaving of
    creators and collectors loses the object of an active artifact. */
module ArtifactSafety {
  import opened Common
  import opened ArtifactRepository
  import opened ArtifactProtocol
  import Conservation = ArtifactConservation
  import Blob = BlobStore

  type Objects = map<Name, Blob.Info>

  /** The version was issued and is not current; `GoneForGood` below: it can never be current again. */
  predicate Gone(objects: Objects, issued: nat, key: Name, version: nat) {
    version <= issued && !(key in objects && objects[key].version == version)
  }

  predicate Covered(sweeps: map<Name, Sweep>, key: Name, version: nat) {
    key in sweeps && sweeps[key].claim.objectVersion == version
  }

  /** The key invariant for a delete in flight: a held claim still covers it, or
      its version can never be current again. */
  predicate Accounted(sweeps: map<Name, Sweep>, objects: Objects, issued: nat, key: Name, version: nat) {
    version <= issued && (Gone(objects, issued, key, version) || Covered(sweeps, key, version))
  }

  ghost predicate DeletesAccounted(deletes: set<Deletion>, sweeps: map<Name, Sweep>, objects: Objects, issued: nat) {
    forall d | d in deletes :: Accounted(sweeps, objects, issued, d.key, d.version)
  }

  ghost predicate StagesAccounted(stages: map<SweepClaim, Stage>, sweeps: map<Name, Sweep>, objects: Objects,
                                  issued: nat) {
    forall claim | claim in stages ::
      && Accounted(sweeps, objects, issued, claim.objectKey, claim.objectVersion)
      && (stages[claim].Absent? || stages[claim].Replaced?
          ==> Gone(objects, issued, claim.objectKey, claim.objectVersion))
  }

  ghost predicate ListedIssued(listed: set<Blob.Info>, issued: nat) {
    forall info | info in listed :: info.version <= issued
  }

  ghost predicate CollectorsAccounted(collectors: map<nat, Collector>, sweeps: map<Name, Sweep>, objects: Objects,
                                      issued: nat) {
    forall id | id in collectors ::
      StagesAccounted(collectors[id].stages, sweeps, objects, issued) && ListedIssued(collectors[id].listed, issued)
  }

  ghost predicate SweepsIssued(sweeps: map<Name, Sweep>, issued: nat) {
    forall key | key in sweeps :: sweeps[key].claim.objectVersion <= issued
  }

  predicate Present(objects: Objects, key: Name, digest: Name) {
    key in objects && objects[key].digest == digest
  }

  /** The safety property: the object of every active artifact is stored, with its content. */
  ghost predicate ActiveBacked(artifacts: map<Name, Artifact>, objects: Objects) {
    forall id | id in artifacts && artifacts[id].state.Active? ::
      Present(objects, artifacts[id].objectKey, artifacts[id].contentDigest)
  }

  predicate Bound(phase: Phase) {
    !phase.Looking? && !phase.Reading? && !phase.Over?
  }

  predicate Copied(invocations: map<Name, Invocation>, held: Invocation) {
    && held.invocationId in invocations
    && invocations[held.invocationId].objectKey == held.objectKey
    && invocations[held.invocationId].contentDigest == held.contentDigest
  }

  /** A creator that passed its put or its check finds the object stored for as
      long as its invocation is inflight. */
  predicate CreatorBacked(c: Creator, invocations: map<Name, Invocation>, objects: Objects) {
    && (Bound(c.phase) ==> Copied(invocations, c.held))
    && ((c.phase.Acknowledged? || c.phase.Ready?) && invocations[c.held.invocationId].state.Inflight?
        ==> Present(objects, c.held.objectKey, c.held.contentDigest))
  }

  ghost predicate CreatorsBacked(creators: map<nat, Creator>, invocations: map<Name, Invocation>, objects: Objects) {
    forall id | id in creators :: CreatorBacked(creators[id], invocations, objects)
  }

  ghost predicate Safe(w: World) {
    && Conservation.Sound(w.repo)
    && Blob.Sound(w.blobs)
    && ActiveBacked(w.repo.artifacts, w.blobs.objects)
    && CreatorsBacked(w.creators, w.repo.invocations, w.blobs.objects)
    && SweepsIssued(w.repo.sweeps, w.blobs.nextVersion)
    && DeletesAccounted(w.deletes, w.repo.sweeps, w.blobs.objects, w.blobs.nextVersion)
    && CollectorsAccounted(w.collectors, w.repo.sweeps, w.blobs.objects, w.blobs.nextVersion)
  }

  // ----- what repository calls do to records and claims -----

  ghost predicate Kept(before: map<Name, Invocation>, after: map<Name, Invocation>) {
    forall id | id in before ::
      && id in after
      && after[id].objectKey == before[id].objectKey
      && after[id].contentDigest == before[id].contentDigest
      && (after[id].state.Inflight? ==> before[id].state.Inflight?)
  }

  ghost predicate Faded(before: map<Name, Artifact>, after: map<Name, Artifact>) {
    forall id | id in after && after[id].state.Active? ::
      && id in before && before[id].state.Active?
      && after[id].objectKey == before[id].objectKey
      && after[id].contentDigest == before[id].contentDigest
  }

  ghost predicate ClaimsKept(before: map<Name, Sweep>, after: map<Name, Sweep>) {
    forall key | key in before :: Covered(after, key, before[key].claim.objectVersion)
  }

  lemma {:induction false} EntombFades(r: Repo, ids: seq<Name>, now: int)
    ensures Faded(r.artifacts, EntombAll(r, ids, now).artifacts)
    ensures EntombAll(r, ids, now).invocations == r.invocations && EntombAll(r, ids, now).sweeps == r.sweeps
  {
    if ids != [] { EntombFades(r, ids[..|ids| - 1], now); }
  }

  lemma {:induction false} AbandonKeeps(r: Repo, ids: seq<Name>, heartbeatBefore: int)
    ensures Kept(r.invocations, AbandonAll(r, ids, heartbeatBefore).invocations)
    ensures AbandonAll(r, ids, heartbeatBefore).artifacts == r.artifacts
            && AbandonAll(r, ids, heartbeatBefore).sweeps == r.sweeps
  {
    if ids != [] { AbandonKeeps(r, ids[..|ids| - 1], heartbeatBefore); }
  }

  lemma OffersKeepClaims(sweeps: map<Name, Sweep>, limit: nat, order: nat, token: nat)
    ensures ClaimsKept(sweeps, Offer(sweeps, Oldest(sweeps, limit), order, token))
    ensures ClaimsKept(Offer(sweeps, Oldest(sweeps, limit), order, token), sweeps)
  {
    var keys := Oldest(sweeps, limit);
    Conservation.OldestListsClaims(sweeps, limit);
    Conservation.OfferEffect(sweeps, keys, order, token);
    hide Offer, Oldest;
    var offered := Offer(sweeps, keys, order, token);
    forall key | key in sweeps
      ensures key in offered && offered[key].claim.objectVersion == sweeps[key].claim.objectVersion
    {
      assert key in offered.Keys;
      if key in keys {
        var i :| 0 <= i < |keys| && keys[i] == key;
        assert offered[keys[i]].claim.objectVersion == sweeps[keys[i]].claim.objectVersion;
      }
    }
    forall key | key in offered ensures key in sweeps {
      assert key in offered.Keys;
    }
  }

  // ----- frames -----

  lemma CreatorsKept(creators: map<nat, Creator>, before: map<Name, Invocation>, after: map<Name, Invocation>,
                     objects: Objects)
    requires CreatorsBacked(creators, before, objects) && Kept(before, after)
    ensures CreatorsBacked(creators, after, objects)
  {
  }

  lemma ActiveFaded(before: map<Name, Artifact>, after: map<Name, Artifact>, objects: Objects)
    requires ActiveBacked(before, objects) && Faded(before, after)
    ensures ActiveBacked(after, objects)
  {
  }

  /** Accounting survives every change of claims that drops only claims on versions that are gone. */
  ghost predicate DropsOnlyGone(before: map<Name, Sweep>, after: map<Name, Sweep>, objects: Objects, issued: nat) {
    forall key | key in before ::
      || Covered(after, key, before[key].claim.objectVersion)
      || Gone(objects, issued, key, before[key].claim.objectVersion)
  }

  lemma ClaimsChanged(w: World, sweeps: map<Name, Sweep>)
    requires Safe(w) && DropsOnlyGone(w.repo.sweeps, sweeps, w.blobs.objects, w.blobs.nextVersion)
    ensures DeletesAccounted(w.deletes, sweeps, w.blobs.objects, w.blobs.nextVersion)
    ensures CollectorsAccounted(w.collectors, sweeps, w.blobs.objects, w.blobs.nextVersion)
  {
    hide Conservation.Sound, Blob.Sound, ActiveBacked, CreatorsBacked;
    forall id | id in w.collectors
      ensures StagesAccounted(w.collectors[id].stages, sweeps, w.blobs.objects, w.blobs.nextVersion) {}
  }

  /** A put creates a version never issued before and touches no stored object. */
  lemma PutSafe(w: World, put: Blob.Put)
    requires Safe(w)
    ensures Safe(w.(blobs := Blob.PutIfAbsent(w.blobs, put)))
  {
    hide Conservation.Sound, Blob.Sound;
    Blob.PutSound(w.blobs, put);
    var b := Blob.PutIfAbsent(w.blobs, put);
    if b != w.blobs {
      assert b.nextVersion == w.blobs.nextVersion + 1;
      PutKeepsObjects(w, put);
    }
  }

  lemma PutKeepsObjects(w: World, put: Blob.Put)
    requires Safe(w) && put.key !in w.blobs.objects && Blob.WellFormed(put)
    ensures var b := Blob.PutIfAbsent(w.blobs, put);
            && ActiveBacked(w.repo.artifacts, b.objects)
            && CreatorsBacked(w.creators, w.repo.invocations, b.objects)
            && SweepsIssued(w.repo.sweeps, b.nextVersion)
            && DeletesAccounted(w.deletes, w.repo.sweeps, b.objects, b.nextVersion)
            && CollectorsAccounted(w.collectors, w.repo.sweeps, b.objects, b.nextVersion)
  {
    hide Conservation.Sound, Blob.Sound;
  }

  /** Deleting an accounted version never removes a referenced object: either the
      version is gone, or the claim that covers it keeps references away. */
  lemma DeleteSafe(w: World, key: Name, version: nat)
    requires Safe(w) && Accounted(w.repo.sweeps, w.blobs.objects, w.blobs.nextVersion, key, version)
    ensures Safe(w.(blobs := Blob.DeleteIfVersion(w.blobs, key, version)))
    ensures Gone(Blob.DeleteIfVersion(w.blobs, key, version).objects, w.blobs.nextVersion, key, version)
    ensures Blob.DeleteIfVersion(w.blobs, key, version).nextVersion == w.blobs.nextVersion
  {
    Blob.NoVersionZero(w.blobs);
    Blob.DeleteSound(w.blobs, key, version);
    var b := Blob.DeleteIfVersion(w.blobs, key, version);
    assert b != w.blobs ==> b.objects == w.blobs.objects - {key} && Covered(w.repo.sweeps, key, version);
    assert b.nextVersion == w.blobs.nextVersion;
    hide Conservation.Sound, Blob.Sound, Blob.DeleteIfVersion;
    if b != w.blobs {
      DeleteKeepsReferenced(w, key);
      DeleteKeepsAccounts(w, key);
    }
  }

  lemma DeleteKeepsReferenced(w: World, key: Name)
    requires Safe(w) && key in w.repo.sweeps
    ensures ActiveBacked(w.repo.artifacts, w.blobs.objects - {key})
    ensures CreatorsBacked(w.creators, w.repo.invocations, w.blobs.objects - {key})
  {
    hide Conservation.Sound, Blob.Sound, DeletesAccounted, CollectorsAccounted, SweepsIssued;
    Conservation.ReferencedIsUnclaimed(w.repo);
  }

  lemma DeleteKeepsAccounts(w: World, key: Name)
    requires Safe(w)
    ensures DeletesAccounted(w.deletes, w.repo.sweeps, w.blobs.objects - {key}, w.blobs.nextVersion)
    ensures CollectorsAccounted(w.collectors, w.repo.sweeps, w.blobs.objects - {key}, w.blobs.nextVersion)
  {
    hide Conservation.Sound, Blob.Sound, ActiveBacked, CreatorsBacked;
  }

  // ----- creators -----

  lemma CreatorUpdated(w: World, id: nat, c: Creator)
    requires Safe(w) && CreatorBacked(c, w.repo.invocations, w.blobs.objects)
    ensures Safe(WithCreator(w, id, c))
  {
    hide Conservation.Sound, Blob.Sound, ActiveBacked, DeletesAccounted, CollectorsAccounted, SweepsIssued,
         CreatorBacked;
  }

  lemma LookSafe(w: World, id: nat)
    requires Safe(w) && id in w.creators
    ensures Safe(WithCreator(w, id, Looked(w, w.creators[id])))
  {
    assert Conservation.Linked(w.repo.invocations, w.repo.artifacts, w.repo.artifactReservations);
    hide Conservation.Sound, Blob.Sound, ActiveBacked, DeletesAccounted, CollectorsAccounted, SweepsIssued;
    CreatorUpdated(w, id, Looked(w, w.creators[id]));
  }

  /** A call that changes only invocation records, and keeps those there were. */
  lemma InvocationsSafe(w: World, s: Repo)
    requires Safe(w) && Conservation.Sound(s)
    requires Kept(w.repo.invocations, s.invocations) && s.artifacts == w.repo.artifacts && s.sweeps == w.repo.sweeps
    ensures Safe(w.(repo := s))
  {
    hide Conservation.Sound, Blob.Sound, ActiveBacked, DeletesAccounted, CollectorsAccounted, SweepsIssued,
         CreatorsBacked, Kept;
    CreatorsKept(w.creators, w.repo.invocations, s.invocations, w.blobs.objects);
  }

  lemma ReserveEffect(r: Repo, c: Creator)
    requires forall id | id in r.invocations :: r.invocations[id].invocationId == id
    ensures var s := BeginCreate(r, c.request);
            && Kept(r.invocations, s.invocations) && s.artifacts == r.artifacts && s.sweeps == r.sweeps
            && (AfterReserve(c, BeginReply(r, c.request)).phase.Holding?
                ==> Copied(s.invocations, AfterReserve(c, BeginReply(r, c.request)).held))
  {
  }

  lemma ReserveSafe(w: World, id: nat)
    requires Safe(w) && id in w.creators
    ensures var c := w.creators[id];
            Safe(WithCreator(w.(repo := BeginCreate(w.repo, c.request)), id,
                             AfterReserve(c, BeginReply(w.repo, c.request))))
  {
    hide Conservation.Sound, Blob.Sound, ActiveBacked, DeletesAccounted, CollectorsAccounted, SweepsIssued,
         CreatorsBacked, Kept;
    hide BeginCreate, BeginReply;
    var c := w.creators[id];
    Conservation.BeginSound(w.repo, c.request);
    forall i | i in w.repo.invocations ensures w.repo.invocations[i].invocationId == i { InvocationFiled(w.repo, i); }
    ReserveEffect(w.repo, c);
    InvocationsSafe(w, BeginCreate(w.repo, c.request));
    CreatorUpdated(w.(repo := BeginCreate(w.repo, c.request)), id, AfterReserve(c, BeginReply(w.repo, c.request)));
  }

  lemma HeartbeatSafe(w: World, id: Name, digest: Name, generation: nat, now: int)
    requires Safe(w)
    ensures Safe(w.(repo := HeartbeatCreate(w.repo, id, digest, generation, now)))
    ensures Kept(w.repo.invocations, HeartbeatCreate(w.repo, id, digest, generation, now).invocations)
  {
    hide Conservation.Sound, Blob.Sound, ActiveBacked, DeletesAccounted, CollectorsAccounted, SweepsIssued,
         CreatorsBacked;
    Conservation.HeartbeatSound(w.repo, id, digest, generation, now);
    InvocationsSafe(w, HeartbeatCreate(w.repo, id, digest, generation, now));
  }

  lemma BeatSafe(w: World, id: nat, now: int)
    requires Safe(w) && id in w.creators && w.creators[id].phase in {Resuming, Holding, Acknowledged}
    ensures Safe(CreatorStep(w, CreateBeats(id, now)))
  {
    hide Conservation.Sound, Blob.Sound, ActiveBacked, DeletesAccounted, CollectorsAccounted, SweepsIssued,
         HeartbeatCreate, HeartbeatReply;
    var c := w.creators[id];
    var s := HeartbeatCreate(w.repo, c.held.invocationId, c.held.requestDigest, c.held.generation, now);
    HeartbeatSafe(w, c.held.invocationId, c.held.requestDigest, c.held.generation, now);
    assert CreatorBacked(c, s.invocations, w.blobs.objects);
    var next := AfterBeat(c, HeartbeatReply(w.repo, c.held.invocationId, c.held.requestDigest, c.held.generation, now));
    assert CreatorBacked(next, s.invocations, w.blobs.objects);
    CreatorUpdated(w.(repo := s), id, next);
    hide CreatorsBacked;
  }

  lemma AnswerSafe(w: World, id: nat)
    requires Safe(w) && id in w.creators && w.creators[id].phase.Putting?
    ensures Safe(CreatorStep(w, CreateAnswered(id)))
  {
    hide Conservation.Sound, Blob.Sound, ActiveBacked, DeletesAccounted, CollectorsAccounted, SweepsIssued;
    var c := w.creators[id];
    var b := Blob.PutIfAbsent(w.blobs, PutOf(c));
    PutSafe(w, PutOf(c));
    var next := c.(phase := if Blob.PutReply(w.blobs, PutOf(c)).Accepted? then Acknowledged else Over);
    assert CreatorBacked(c, w.repo.invocations, w.blobs.objects);
    assert CreatorBacked(next, w.repo.invocations, b.objects);
    hide CreatorsBacked;
    CreatorUpdated(w.(blobs := b), id, next);
  }

  lemma SettleEffect(r: Repo, id: Name, artifact: Artifact)
    requires id in r.invocations && r.invocations[id].invocationId == id
    ensures var s := Settle(r, r.invocations[id], artifact);
            && Kept(r.invocations, s.invocations)
            && s.sweeps == r.sweeps
            && s.artifacts == r.artifacts[artifact.artifactId := artifact]
  {
  }

  lemma ActiveAdded(artifacts: map<Name, Artifact>, objects: Objects, artifact: Artifact)
    requires ActiveBacked(artifacts, objects) && Present(objects, artifact.objectKey, artifact.contentDigest)
    ensures ActiveBacked(artifacts[artifact.artifactId := artifact], objects)
  {
  }

  lemma InvocationFiled(r: Repo, id: Name)
    requires Conservation.Sound(r) && id in r.invocations
    ensures r.invocations[id].invocationId == id
  {
    assert Conservation.Linked(r.invocations, r.artifacts, r.artifactReservations);
  }

  lemma StoredSafe(w: World, id: Name, artifact: Artifact)
    requires Safe(w) && id in w.repo.invocations && Present(w.blobs.objects, artifact.objectKey, artifact.contentDigest)
    requires Conservation.Sound(Settle(w.repo, w.repo.invocations[id], artifact))
    ensures Safe(w.(repo := Settle(w.repo, w.repo.invocations[id], artifact)))
  {
    hide Conservation.Sound, Blob.Sound, ActiveBacked, DeletesAccounted, CollectorsAccounted, SweepsIssued,
         CreatorsBacked, Kept;
    var s := Settle(w.repo, w.repo.invocations[id], artifact);
    InvocationFiled(w.repo, id);
    SettleEffect(w.repo, id, artifact);
    hide Settle;
    ActiveAdded(w.repo.artifacts, w.blobs.objects, artifact);
    CreatorsKept(w.creators, w.repo.invocations, s.invocations, w.blobs.objects);
  }

  /** A commit that takes effect finds the object it points to. */
  lemma CommitSafe(w: World, id: nat, retainUntil: int)
    requires Safe(w) && id in w.creators && w.creators[id].phase.Ready?
    ensures Safe(CreatorStep(w, CreateCommits(id, retainUntil)))
  {
    hide Conservation.Sound, Blob.Sound, ActiveBacked, DeletesAccounted, CollectorsAccounted, SweepsIssued, Settle,
         Settles;
    var c := w.creators[id];
    var artifact := ArtifactOf(c.held, retainUntil);
    var s := CommitCreate(w.repo, c.held.invocationId, c.held.requestDigest, c.held.generation, artifact);
    Conservation.CommitSound(w.repo, c.held.invocationId, c.held.requestDigest, c.held.generation, artifact);
    assert CreatorBacked(c, w.repo.invocations, w.blobs.objects);
    hide CreatorsBacked;
    if s != w.repo {
      StoredSafe(w, c.held.invocationId, artifact);
    }
    CreatorUpdated(w.(repo := s), id, c.(phase := Over));
  }

  lemma CreatorStepSafe(w: World, step: Step)
    requires Safe(w) && ByCreator(step)
    ensures Safe(CreatorStep(w, step))
  {
    hide Conservation.Sound, Blob.Sound, ActiveBacked, DeletesAccounted, CollectorsAccounted, SweepsIssued;
    hide BeginCreate, BeginReply, AfterReserve, Looked;
    if step.CreateStarts? {
      if step.creator !in w.creators {
        CreatorUpdated(w, step.creator, Creator(step.request, ArtifactRepository.Reserved(step.request), Looking));
      }
    } else if step.creator in w.creators {
      var c := w.creators[step.creator];
      if step.CreateLooks? {
        LookSafe(w, step.creator);
      } else if step.CreateReserves? {
        ReserveSafe(w, step.creator);
      } else if step.CreateBeats? {
        if c.phase in {Resuming, Holding, Acknowledged} { BeatSafe(w, step.creator, step.now); }
      } else if step.CreateChecks? {
        CheckSafe(w, step.creator);
      } else if step.CreateAnswered? {
        if c.phase.Putting? { AnswerSafe(w, step.creator); }
      } else {
        if c.phase.Ready? { CommitSafe(w, step.creator, step.retainUntil); }
      }
    }
  }

  lemma CheckSafe(w: World, id: nat)
    requires Safe(w) && id in w.creators
    ensures Safe(CreatorStep(w, CreateChecks(id)))
  {
    hide Conservation.Sound, Blob.Sound, ActiveBacked, DeletesAccounted, CollectorsAccounted, SweepsIssued;
    var c := w.creators[id];
    if c.phase.Checking? {
      assert CreatorBacked(c, w.repo.invocations, w.blobs.objects);
      assert CreatorBacked(Checked(w, c), w.repo.invocations, w.blobs.objects);
      hide CreatorsBacked;
      CreatorUpdated(w, id, Checked(w, c));
    }
  }

  // ----- collectors -----

  lemma CollectorUpdated(w: World, id: nat, c: Collector)
    requires Safe(w)
    requires StagesAccounted(c.stages, w.repo.sweeps, w.blobs.objects, w.blobs.nextVersion)
    requires ListedIssued(c.listed, w.blobs.nextVersion)
    ensures Safe(WithCollector(w, id, c))
  {
    hide Conservation.Sound, Blob.Sound, ActiveBacked, CreatorsBacked, DeletesAccounted, SweepsIssued, StagesAccounted,
         ListedIssued;
  }

  lemma Marked(w: World, id: nat, claim: SweepClaim, stage: Stage)
    requires Safe(w) && id in w.collectors
    requires Accounted(w.repo.sweeps, w.blobs.objects, w.blobs.nextVersion, claim.objectKey, claim.objectVersion)
    requires stage.Absent? || stage.Replaced?
             ==> Gone(w.blobs.objects, w.blobs.nextVersion, claim.objectKey, claim.objectVersion)
    ensures Safe(Mark(w, id, claim, stage))
  {
    hide Conservation.Sound, Blob.Sound, ActiveBacked, CreatorsBacked, DeletesAccounted, SweepsIssued, ListedIssued,
         Accounted, Gone;
    var c := w.collectors[id];
    assert StagesAccounted(c.stages, w.repo.sweeps, w.blobs.objects, w.blobs.nextVersion);
    CollectorUpdated(w, id, c.(stages := c.stages[claim := stage]));
  }

  /** A call that leaves records and claims alone. */
  lemma LeaseSafe(w: World, s: Repo)
    requires Safe(w) && Conservation.Sound(s)
    requires s.invocations == w.repo.invocations && s.artifacts == w.repo.artifacts && s.sweeps == w.repo.sweeps
    ensures Safe(w.(repo := s))
  {
    hide Conservation.Sound, Blob.Sound, ActiveBacked, CreatorsBacked, DeletesAccounted, CollectorsAccounted,
         SweepsIssued;
  }

  lemma ExpireSafe(w: World, lease: Lease, now: int, after: Cursor, limit: int)
    requires Safe(w)
    ensures Safe(w.(repo := TombstoneExpiredPage(w.repo, lease, now, after, limit)))
  {
    hide Conservation.Sound, Blob.Sound, ActiveBacked, CreatorsBacked, DeletesAccounted, CollectorsAccounted,
         SweepsIssued, EntombAll, Faded;
    var r := w.repo;
    var page := ScanPage(r, lease, after, |r.artifactOrder|, limit);
    if page.Page? {
      var ids := r.artifactOrder[page.start..page.end];
      Conservation.EntombAllSound(r, ids, now);
      EntombFades(r, ids, now);
      ActiveFaded(r.artifacts, EntombAll(r, ids, now).artifacts, w.blobs.objects);
    }
  }

  lemma AbandonSafe(w: World, lease: Lease, before: int, after: Cursor, limit: int)
    requires Safe(w)
    ensures Safe(w.(repo := AbandonInflightPage(w.repo, lease, before, after, limit)))
  {
    hide Conservation.Sound, Blob.Sound, ActiveBacked, CreatorsBacked, DeletesAccounted, CollectorsAccounted,
         SweepsIssued, AbandonAll, Kept;
    var r := w.repo;
    var page := ScanPage(r, lease, after, |r.invocationOrder|, limit);
    if page.Page? {
      var ids := r.invocationOrder[page.start..page.end];
      Conservation.AbandonAllSound(r, ids, before);
      AbandonKeeps(r, ids, before);
      InvocationsSafe(w, AbandonAll(r, ids, before));
    }
  }

  lemma UserDeleteSafe(w: World, id: Name, tenant: Name, now: int)
    requires Safe(w)
    ensures Safe(w.(repo := TombstoneArtifact(w.repo, id, tenant, now)))
  {
    hide Conservation.Sound, Blob.Sound, ActiveBacked, CreatorsBacked, DeletesAccounted, CollectorsAccounted,
         SweepsIssued;
    var r := w.repo;
    if id in r.artifacts && r.artifacts[id].state.Active? {
      Conservation.EntombSound(r, id, now);
      EntombOneFades(r, id, now);
      hide Entomb, Faded;
      ActiveFaded(r.artifacts, Entomb(r, id, now).artifacts, w.blobs.objects);
    }
  }

  lemma EntombOneFades(r: Repo, id: Name, now: int)
    requires id in r.artifacts
    ensures Faded(r.artifacts, Entomb(r, id, now).artifacts)
    ensures Entomb(r, id, now).invocations == r.invocations && Entomb(r, id, now).sweeps == r.sweeps
  {
  }

  /** A call that changes only the claims, dropping none but those on versions that are gone. */
  lemma SweepsSafe(w: World, s: Repo)
    requires Safe(w) && Conservation.Sound(s)
    requires s.invocations == w.repo.invocations && s.artifacts == w.repo.artifacts
    requires DropsOnlyGone(w.repo.sweeps, s.sweeps, w.blobs.objects, w.blobs.nextVersion)
    requires SweepsIssued(s.sweeps, w.blobs.nextVersion)
    ensures Safe(w.(repo := s))
  {
    hide Conservation.Sound, Blob.Sound, ActiveBacked, CreatorsBacked, DeletesAccounted, CollectorsAccounted,
         SweepsIssued, DropsOnlyGone;
    ClaimsChanged(w, s.sweeps);
  }

  lemma {:induction false} OfferedAreCovered(sweeps: map<Name, Sweep>, keys: seq<Name>, claim: SweepClaim)
    requires forall key | key in sweeps :: sweeps[key].claim.objectKey == key
    requires claim in ClaimsOn(sweeps, keys)
    ensures Covered(sweeps, claim.objectKey, claim.objectVersion)
  {
    if claim in ClaimsOn(sweeps, keys[..|keys| - 1]) {
      OfferedAreCovered(sweeps, keys[..|keys| - 1], claim);
    }
  }

  lemma {:induction false} LearnAccounted(stages: map<SweepClaim, Stage>, claims: seq<SweepClaim>,
                                          sweeps: map<Name, Sweep>, objects: Objects, issued: nat)
    requires StagesAccounted(stages, sweeps, objects, issued)
    requires forall claim | claim in claims :: Accounted(sweeps, objects, issued, claim.objectKey, claim.objectVersion)
    ensures StagesAccounted(Learn(stages, claims), sweeps, objects, issued)
  {
    if claims != [] {
      hide Accounted;
      LearnAccounted(stages, claims[..|claims| - 1], sweeps, objects, issued);
    }
  }

  lemma ClaimsFiled(r: Repo)
    requires Conservation.Sound(r)
    ensures forall key | key in r.sweeps :: r.sweeps[key].claim.objectKey == key
  {
    assert Conservation.Numbered(r.sweeps, r.nextSweepToken, r.nextSweepOrder, r.nextLeaseToken);
  }

  lemma OfferSafe(w: World, lease: Lease, limit: int)
    requires Safe(w) && BatchSize(limit) && Leased(w.repo, lease)
    ensures Safe(w.(repo := PendingSweepsPage(w.repo, lease, limit)))
  {
    hide Conservation.Sound, Blob.Sound, ActiveBacked, CreatorsBacked, DeletesAccounted, CollectorsAccounted, Oldest,
         Offer;
    Conservation.PendingSound(w.repo, lease, limit);
    OffersKeepClaims(w.repo.sweeps, limit, w.repo.nextSweepOrder, lease.token);
    SweepsSafe(w, PendingSweepsPage(w.repo, lease, limit));
  }

  lemma PendingSafe(w: World, id: nat, limit: int)
    requires Safe(w)
    ensures Safe(CollectorStep(w, CollectPending(id, limit)))
  {
    hide Conservation.Sound, Blob.Sound, ActiveBacked, CreatorsBacked, DeletesAccounted, Oldest, Offer, ClaimsOn,
         Learn, StagesAccounted, ListedIssued;
    if id in w.collectors && BatchSize(limit) && Leased(w.repo, w.collectors[id].lease) {
      var c := w.collectors[id];
      var s := PendingSweepsPage(w.repo, c.lease, limit);
      var keys := Oldest(w.repo.sweeps, limit);
      OfferSafe(w, c.lease, limit);
      ClaimsFiled(s);
      forall claim | claim in ClaimsOn(s.sweeps, keys)
        ensures Accounted(s.sweeps, w.blobs.objects, w.blobs.nextVersion, claim.objectKey, claim.objectVersion)
      {
        OfferedAreCovered(s.sweeps, keys, claim);
      }
      hide PendingSweepsPage, Accounted, SweepsIssued;
      LearnAccounted(c.stages, ClaimsOn(s.sweeps, keys), s.sweeps, w.blobs.objects, w.blobs.nextVersion);
      CollectorUpdated(w.(repo := s), id, c.(stages := Learn(c.stages, ClaimsOn(s.sweeps, keys))));
      PendingIs(w, id, limit);
    } else {
      PendingRefused(w, id, limit);
    }
  }

  lemma PendingIs(w: World, id: nat, limit: int)
    requires id in w.collectors && BatchSize(limit) && Leased(w.repo, w.collectors[id].lease)
    ensures var c := w.collectors[id];
            var s := PendingSweepsPage(w.repo, c.lease, limit);
            CollectorStep(w, CollectPending(id, limit))
            == WithCollector(w.(repo := s), id,
                             c.(stages := Learn(c.stages, ClaimsOn(s.sweeps, Oldest(w.repo.sweeps, limit)))))
  {
    hide Oldest, Offer, ClaimsOn, Learn;
  }

  lemma PendingRefused(w: World, id: nat, limit: int)
    requires !(id in w.collectors && BatchSize(limit) && Leased(w.repo, w.collectors[id].lease))
    ensures CollectorStep(w, CollectPending(id, limit)) == w
  {
    hide Oldest, Offer, ClaimsOn, Learn;
  }

  lemma {:induction false} VisibleIssued(entries: seq<Blob.Entry>, snapshot: nat, issued: nat)
    requires forall i | 0 <= i < |entries| :: entries[i].info.version <= issued
    ensures forall info | info in Blob.VisibleInfos(entries, snapshot) :: info.version <= issued
  {
    if entries != [] { VisibleIssued(entries[..|entries| - 1], snapshot, issued); }
  }

  lemma PageIssued(b: Blob.Blobs, epoch: Blob.Epoch, cursor: int, limit: int)
    requires Blob.Sound(b) && Blob.ListPage(b, epoch, cursor, limit).Listing?
    ensures forall info | info in Blob.ListPage(b, epoch, cursor, limit).objects :: info.version <= b.nextVersion
  {
    var page := Blob.ListPage(b, epoch, cursor, limit);
    var end := if cursor + limit > page.epoch.highwater then page.epoch.highwater else cursor + limit;
    VisibleIssued(b.history[cursor..end], page.epoch.mutation, b.nextVersion);
  }

  lemma ListSafe(w: World, id: nat, epoch: Blob.Epoch, cursor: int, limit: int)
    requires Safe(w)
    ensures Safe(CollectorStep(w, CollectLists(id, epoch, cursor, limit)))
  {
    hide Conservation.Sound, Blob.Sound, Blob.ListPage, ActiveBacked, CreatorsBacked, DeletesAccounted, SweepsIssued,
         StagesAccounted;
    var page := Blob.ListPage(w.blobs, epoch, cursor, limit);
    if id in w.collectors && page.Listing? {
      var c := w.collectors[id];
      PageIssued(w.blobs, epoch, cursor, limit);
      assert ListedIssued(c.listed, w.blobs.nextVersion);
      CollectorUpdated(w, id, c.(listed := c.listed + set info | info in page.objects));
    }
  }

  lemma ClaimSafe(w: World, id: nat, info: Blob.Info, cutoff: int)
    requires Safe(w)
    ensures Safe(CollectorStep(w, CollectClaims(id, info, cutoff)))
  {
    hide Conservation.Sound, Blob.Sound, ActiveBacked, CreatorsBacked, DeletesAccounted, StagesAccounted, CollectorStep;
    if id in w.collectors && info in w.collectors[id].listed && info.createdAt <= cutoff
       && Claimable(w.repo, w.collectors[id].lease, info.key, info.version, cutoff) {
      var c := w.collectors[id];
      var s := ClaimSweepLeased(w.repo, c.lease, info.key, info.version, cutoff);
      var claim := NextClaim(w.repo, c.lease, info.key, info.version);
      Conservation.ClaimSound(w.repo, c.lease, info.key, info.version, cutoff);
      assert ListedIssued(c.listed, w.blobs.nextVersion);
      SweepsSafe(w, s);
      Marked(w.(repo := s), id, claim, Unknown);
      ClaimIs(w, id, info, cutoff);
    } else {
      ClaimRefused(w, id, info, cutoff);
    }
  }

  lemma ClaimIs(w: World, id: nat, info: Blob.Info, cutoff: int)
    requires id in w.collectors && info in w.collectors[id].listed && info.createdAt <= cutoff
    requires Claimable(w.repo, w.collectors[id].lease, info.key, info.version, cutoff)
    ensures var c := w.collectors[id];
            CollectorStep(w, CollectClaims(id, info, cutoff))
            == Mark(w.(repo := ClaimSweepLeased(w.repo, c.lease, info.key, info.version, cutoff)), id,
                    NextClaim(w.repo, c.lease, info.key, info.version), Unknown)
  {
  }

  lemma ClaimRefused(w: World, id: nat, info: Blob.Info, cutoff: int)
    requires !(id in w.collectors && info in w.collectors[id].listed && info.createdAt <= cutoff
               && Claimable(w.repo, w.collectors[id].lease, info.key, info.version, cutoff))
    ensures CollectorStep(w, CollectClaims(id, info, cutoff)) == w
  {
  }

  lemma StageAccounted(w: World, id: nat, claim: SweepClaim)
    requires Safe(w) && id in w.collectors && claim in w.collectors[id].stages
    ensures Accounted(w.repo.sweeps, w.blobs.objects, w.blobs.nextVersion, claim.objectKey, claim.objectVersion)
    ensures StageOf(w, id, claim).Absent? || StageOf(w, id, claim).Replaced?
            ==> Gone(w.blobs.objects, w.blobs.nextVersion, claim.objectKey, claim.objectVersion)
  {
    hide Conservation.Sound, Blob.Sound, ActiveBacked, CreatorsBacked, DeletesAccounted;
    assert StagesAccounted(w.collectors[id].stages, w.repo.sweeps, w.blobs.objects, w.blobs.nextVersion);
  }

  /** Reading, deleting and recording what became of a claimed object. */
  lemma ResolveSafe(w: World, step: Step)
    requires Safe(w) && (step.CollectHeads? || step.CollectDeletes? || step.CollectAnswered?)
    ensures Safe(CollectorStep(w, step))
  {
    hide Conservation.Sound, Blob.Sound, ActiveBacked, CreatorsBacked, CollectorsAccounted, Blob.DeleteIfVersion;
    var id, claim := step.collector, step.claim;
    if id in w.collectors && claim in w.collectors[id].stages {
      StageAccounted(w, id, claim);
      if step.CollectHeads? {
        Marked(w, id, claim, SeenByHead(w, claim));
      } else if step.CollectDeletes? {
        Marked(w, id, claim, Issued);
      } else {
        var b := Blob.DeleteIfVersion(w.blobs, claim.objectKey, claim.objectVersion);
        DeleteSafe(w, claim.objectKey, claim.objectVersion);
        Marked(w.(blobs := b), id, claim,
               SeenByDelete(Blob.DeleteReply(w.blobs, claim.objectKey, claim.objectVersion)));
      }
    }
  }

  lemma UnsweepSafe(w: World, claim: SweepClaim)
    requires Safe(w) && claim.objectKey in w.repo.sweeps && w.repo.sweeps[claim.objectKey].claim == claim
    requires Gone(w.blobs.objects, w.blobs.nextVersion, claim.objectKey, claim.objectVersion)
    ensures Safe(w.(repo := Unsweep(w.repo, claim.objectKey)))
  {
    hide Conservation.Sound, Blob.Sound, ActiveBacked, CreatorsBacked, DeletesAccounted, CollectorsAccounted;
    Conservation.UnsweepSound(w.repo, claim.objectKey);
    SweepsSafe(w, Unsweep(w.repo, claim.objectKey));
  }

  lemma RetireSafe(w: World, id: nat, claim: SweepClaim)
    requires Safe(w)
    ensures Safe(CollectorStep(w, CollectRetires(id, claim)))
  {
    hide Conservation.Sound, Blob.Sound, ActiveBacked, CreatorsBacked, DeletesAccounted, CollectorsAccounted,
         SweepsIssued, Unsweep;
    if StageOf(w, id, claim).Replaced? {
      StageAccounted(w, id, claim);
      if Holds(w.repo, w.collectors[id].lease, claim) { UnsweepSafe(w, claim); }
    }
  }

  lemma PurgeFades(artifacts: map<Name, Artifact>, ids: seq<Name>, now: int)
    ensures Faded(artifacts, PurgeAll(artifacts, ids, now))
  {
    hide PurgeAll;
    Conservation.PurgeEffect(artifacts, ids, now);
    forall id | id in PurgeAll(artifacts, ids, now) ensures id in artifacts {
      assert id in PurgeAll(artifacts, ids, now).Keys;
    }
  }

  lemma FinishSafe(w: World, id: nat, claim: SweepClaim, now: int)
    requires Safe(w)
    ensures Safe(CollectorStep(w, CollectFinishes(id, claim, now)))
  {
    hide Conservation.Sound, Blob.Sound, ActiveBacked, CreatorsBacked, DeletesAccounted, CollectorsAccounted,
         SweepsIssued, PurgeAll, Faded;
    if StageOf(w, id, claim).Absent? {
      var lease := w.collectors[id].lease;
      StageAccounted(w, id, claim);
      Conservation.FinishSound(w.repo, lease, claim, true, now);
      if Holds(w.repo, lease, claim) {
        var ids := Listed(w.repo.artifactsByObject, claim.objectKey);
        UnsweepSafe(w, claim);
        PurgeFades(w.repo.artifacts, ids, now);
        ActiveFaded(w.repo.artifacts, PurgeAll(w.repo.artifacts, ids, now), w.blobs.objects);
      }
    }
  }

  predicate LeaseStep(step: Step) {
    step.CollectStarts? || step.CollectRenews? || step.CollectReleases?
  }

  lemma LeaseStepSafe(w: World, step: Step)
    requires Safe(w) && LeaseStep(step)
    ensures Safe(CollectorStep(w, step))
  {
    hide Conservation.Sound, Blob.Sound, ActiveBacked, CreatorsBacked, DeletesAccounted, CollectorsAccounted,
         SweepsIssued;
    var call := CollectorCall(w, step);
    if call.Some? {
      var s := ArtifactRepository.Apply(w.repo, call.value);
      Conservation.CallSound(w.repo, call.value);
      LeaseSafe(w, s);
      if step.CollectStarts? && AcquireReply(w.repo, step.now, step.duration).Granted? {
        var c := Collector(NextLease(w.repo, step.now, step.duration), {}, map[]);
        CollectorUpdated(w.(repo := s), step.collector, c);
      }
    }
  }

  lemma CollectorStepSafe(w: World, step: Step)
    requires Safe(w) && !ByCreator(step)
    ensures Safe(CollectorStep(w, step))
  {
    hide Safe, TombstoneExpiredPage, AbandonInflightPage;
    if step.CollectPending? { PendingSafe(w, step.collector, step.limit); }
    else if step.CollectLists? { ListSafe(w, step.collector, step.epoch, step.cursor, step.limit); }
    else if step.CollectClaims? { ClaimSafe(w, step.collector, step.info, step.cutoff); }
    else if step.CollectFinishes? { FinishSafe(w, step.collector, step.claim, step.now); }
    else if step.CollectRetires? { RetireSafe(w, step.collector, step.claim); }
    else if step.CollectHeads? || step.CollectDeletes? || step.CollectAnswered? { ResolveSafe(w, step); }
    else if LeaseStep(step) { LeaseStepSafe(w, step); }
    else if step.CollectExpires? {
      if step.collector in w.collectors {
        ExpireSafe(w, w.collectors[step.collector].lease, step.now, step.after, step.limit);
      }
    } else if step.CollectAbandons? {
      if step.collector in w.collectors {
        AbandonSafe(w, w.collectors[step.collector].lease, step.heartbeatBefore, step.after, step.limit);
      }
    }
  }

  // ----- every run -----

  lemma StepSafe(w: World, step: Step)
    requires Safe(w)
    ensures Safe(Next(w, step))
  {
    hide CreatorStep, CollectorStep, HeartbeatCreate, TombstoneArtifact, Blob.DeleteIfVersion, Blob.PutIfAbsent;
    if ByCreator(step) { CreatorStepSafe(w, step); }
    else if step.PutLands? { PutSafe(w, step.put); }
    else if step.DeleteLands? {
      if step.deletion in w.deletes {
        assert DeletesAccounted(w.deletes, w.repo.sweeps, w.blobs.objects, w.blobs.nextVersion);
        hide Safe;
        DeleteSafe(w, step.deletion.key, step.deletion.version);
      }
    }
    else if step.HeartbeatTicks? {
      HeartbeatSafe(w, step.invocationId, step.requestDigest, step.generation, step.now);
    }
    else if step.UserDeletes? { UserDeleteSafe(w, step.artifactId, step.tenant, step.now); }
    else { CollectorStepSafe(w, step); }
  }

  lemma {:induction false} RunSafe(quotas: map<Name, int>, steps: seq<Step>)
    ensures Safe(Execute(Genesis(quotas), steps))
  {
    if steps == [] {
      Conservation.InitialSound(quotas);
      hide Conservation.Sound;
    } else {
      hide Safe, Next;
      RunSafe(quotas, steps[..|steps| - 1]);
      StepSafe(Execute(Genesis(quotas), steps[..|steps| - 1]), steps[|steps| - 1]);
    }
  }

  /** Collector safety: after any interleaving of creators, users, collectors
      with live, expired or superseded leases, and late puts and deletes, the
      object of every active artifact is stored with the artifact's content, and
      every delete that may still arrive is covered by a claim or names a
      version that can never be current again. */
  lemma NoActiveArtifactLosesItsObject(quotas: map<Name, int>, steps: seq<Step>)
    ensures var w := Execute(Genesis(quotas), steps);
            && (forall id | id in w.repo.artifacts && w.repo.artifacts[id].state.Active? ::
                  Present(w.blobs.objects, w.repo.artifacts[id].objectKey, w.repo.artifacts[id].contentDigest))
            && (forall d | d in w.deletes ::
                  || Covered(w.repo.sweeps, d.key, d.version)
                  || Gone(w.blobs.objects, w.blobs.nextVersion, d.key, d.version))
  {
    hide Execute, Conservation.Sound, Blob.Sound, CreatorsBacked, CollectorsAccounted;
    RunSafe(quotas, steps);
  }

  // ----- what is gone stays gone -----

  /** Each step leaves the store alone, puts an object or deletes one version. */
  ghost predicate StoreMoves(before: Blob.Blobs, after: Blob.Blobs) {
    || after == before
    || (exists put :: after == Blob.PutIfAbsent(before, put))
    || (exists key, version :: after == Blob.DeleteIfVersion(before, key, version))
  }

  lemma CreatorMoves(w: World, step: Step)
    requires ByCreator(step)
    ensures StoreMoves(w.blobs, CreatorStep(w, step).blobs)
  {
    hide ArtifactRepository.BeginCreate, HeartbeatCreate, CommitCreate, Blob.PutIfAbsent, Blob.DeleteIfVersion, Looked,
         AfterReserve;
  }

  lemma CollectorMoves(w: World, step: Step)
    requires !ByCreator(step)
    ensures StoreMoves(w.blobs, CollectorStep(w, step).blobs)
  {
    hide ArtifactRepository.Apply, CollectorCall, CollectorLearns, Blob.PutIfAbsent, Blob.DeleteIfVersion,
         Blob.ListPage;
  }

  lemma NextMoves(w: World, step: Step)
    ensures StoreMoves(w.blobs, Next(w, step).blobs)
  {
    hide CreatorStep, CollectorStep, HeartbeatCreate, TombstoneArtifact, Blob.PutIfAbsent, Blob.DeleteIfVersion;
    if ByCreator(step) {
      CreatorMoves(w, step);
    } else {
      CollectorMoves(w, step);
    }
  }

  lemma MoveKeepsGone(before: Blob.Blobs, after: Blob.Blobs, key: Name, version: nat)
    requires StoreMoves(before, after) && Gone(before.objects, before.nextVersion, key, version)
    ensures Gone(after.objects, after.nextVersion, key, version)
  {
  }

  /** A version that is gone never becomes current again, whatever steps follow. */
  lemma {:induction false} GoneForGood(w: World, steps: seq<Step>, key: Name, version: nat)
    requires Gone(w.blobs.objects, w.blobs.nextVersion, key, version)
    ensures var after := Execute(w, steps).blobs; Gone(after.objects, after.nextVersion, key, version)
  {
    hide Next, Gone, StoreMoves;
    if steps != [] {
      var before := Execute(w, steps[..|steps| - 1]);
      GoneForGood(w, steps[..|steps| - 1], key, version);
      NextMoves(before, steps[|steps| - 1]);
      MoveKeepsGone(before.blobs, Next(before, steps[|steps| - 1]).blobs, key, version);
    }
  }

  /** A delete in flight that no claim covers removes nothing, whenever it lands: neither the
      version it names nor an object stored under the same key since. */
  lemma StrayDeleteIsHarmless(quotas: map<Name, int>, steps: seq<Step>, d: Deletion, more: seq<Step>)
    requires var w := Execute(Genesis(quotas), steps);
             d in w.deletes && !Covered(w.repo.sweeps, d.key, d.version)
    ensures var after := Execute(Execute(Genesis(quotas), steps), more); Next(after, DeleteLands(d)) == after
  {
    hide Execute, Genesis;
    var w := Execute(Genesis(quotas), steps);
    NoActiveArtifactLosesItsObject(quotas, steps);
    GoneForGood(w, more, d.key, d.version);
  }
}
