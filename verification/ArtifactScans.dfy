/** A full cursor cycle of the expiry scan is complete, although other calls run
    and entries are appended between its pages. */
module ArtifactScans {
  import opened Common
  import opened ArtifactLedger
  import opened ArtifactRepository
  import opened ArtifactConservation

  /** Whatever happens, artifacts keep their place, their expiry and their
      retirement: nothing becomes active again. */
  ghost predicate Aged(before: Repo, after: Repo) {
    && before.artifactOrder <= after.artifactOrder
    && (forall id | id in before.artifacts ::
          && id in after.artifacts
          && after.artifacts[id].retainUntil == before.artifacts[id].retainUntil
          && (after.artifacts[id].state.Active? ==> before.artifacts[id].state.Active?))
  }

  /** What calls that leave artifacts alone do not change. */
  datatype Tombs = Tombs(artifacts: map<Name, Artifact>, order: seq<Name>, latest: map<Name, int>)

  function TombsOf(r: Repo): Tombs {
    Tombs(r.artifacts, r.artifactOrder, r.latestTombstone)
  }

  lemma {:induction false} EntombAllAges(r: Repo, ids: seq<Name>, now: int)
    ensures Aged(r, EntombAll(r, ids, now))
    ensures EntombAll(r, ids, now).artifactOrder == r.artifactOrder
    ensures forall id | id in ids && id in r.artifacts && r.artifacts[id].retainUntil <= now ::
              !EntombAll(r, ids, now).artifacts[id].state.Active?
  {
    if ids != [] {
      EntombAllAges(r, ids[..|ids| - 1], now);
      assert ids == ids[..|ids| - 1] + [ids[|ids| - 1]];
    }
  }

  lemma {:induction false} AbandonAllSame(r: Repo, ids: seq<Name>, horizon: int)
    ensures TombsOf(AbandonAll(r, ids, horizon)) == TombsOf(r)
  {
    if ids != [] {
      AbandonAllSame(r, ids[..|ids| - 1], horizon);
    }
  }

  lemma SettleAges(r: Repo, invocation: Invocation, artifact: Artifact)
    requires artifact.artifactId !in r.artifacts
    ensures Aged(r, Settle(r, invocation, artifact))
  {
  }

  lemma EntombAges(r: Repo, id: Name, now: int)
    requires id in r.artifacts
    ensures Aged(r, Entomb(r, id, now))
  {
  }

  lemma FinishAges(r: Repo, lease: Lease, claim: SweepClaim, deleted: bool, now: int)
    requires Holds(r, lease, claim) && deleted
    ensures Aged(r, FinishSweepLeased(r, lease, claim, deleted, now))
  {
    hide PurgeAll;
    PurgeEffect(r.artifacts, Listed(r.artifactsByObject, claim.objectKey), now);
  }

  lemma Untouched(before: Repo, after: Repo)
    requires TombsOf(after) == TombsOf(before)
    ensures Aged(before, after)
  {
  }

  /** The calls that leave artifacts alone. */
  predicate Bystander(call: Call) {
    !(call.Commit? || call.Tombstone? || call.ExpirePage? || call.AbandonPage? || call.Finish?)
  }

  lemma BeginSame(r: Repo, request: Reservation)
    ensures TombsOf(BeginCreate(r, request)) == TombsOf(r)
  {
  }

  lemma HeartbeatSame(r: Repo, id: Name, digest: Name, generation: nat, now: int)
    ensures TombsOf(HeartbeatCreate(r, id, digest, generation, now)) == TombsOf(r)
  {
  }

  lemma AcquireSame(r: Repo, now: int, duration: int)
    ensures TombsOf(AcquireGC(r, now, duration)) == TombsOf(r)
  {
  }

  lemma RenewSame(r: Repo, lease: Lease, now: int, duration: int)
    ensures TombsOf(RenewGC(r, lease, now, duration)) == TombsOf(r)
  {
  }

  lemma ReleaseSame(r: Repo, lease: Lease, checkpoint: Checkpoint)
    ensures TombsOf(ReleaseGC(r, lease, checkpoint)) == TombsOf(r)
  {
  }

  lemma PendingSame(r: Repo, lease: Lease, limit: int)
    ensures TombsOf(PendingSweepsPage(r, lease, limit)) == TombsOf(r)
  {
    hide Oldest, Offer;
  }

  lemma ClaimSame(r: Repo, lease: Lease, key: Name, version: nat, cutoff: int)
    ensures TombsOf(ClaimSweepLeased(r, lease, key, version, cutoff)) == TombsOf(r)
  {
  }

  lemma RetireSame(r: Repo, lease: Lease, claim: SweepClaim)
    ensures TombsOf(RetireSweepLeased(r, lease, claim)) == TombsOf(r)
  {
  }

  lemma BystanderSame(r: Repo, call: Call)
    requires Bystander(call)
    ensures TombsOf(Apply(r, call)) == TombsOf(r)
  {
    hide BeginCreate, HeartbeatCreate, AcquireGC, RenewGC, ReleaseGC, PendingSweepsPage, ClaimSweepLeased,
         RetireSweepLeased, TombsOf;
    match call
    case Begin(request) => BeginSame(r, request);
    case Heartbeat(id, digest, generation, now) => HeartbeatSame(r, id, digest, generation, now);
    case Acquire(now, duration) => AcquireSame(r, now, duration);
    case Renew(lease, now, duration) => RenewSame(r, lease, now, duration);
    case Release(lease, checkpoint) => ReleaseSame(r, lease, checkpoint);
    case Pending(lease, limit) => PendingSame(r, lease, limit);
    case Claim(lease, key, version, cutoff) => ClaimSame(r, lease, key, version, cutoff);
    case Retire(lease, claim) => RetireSame(r, lease, claim);
  }

  lemma CallAges(r: Repo, call: Call)
    ensures Aged(r, Apply(r, call))
  {
    hide Aged, Settle, Entomb, EntombAll, AbandonAll, FinishSweepLeased, Settles;
    Untouched(r, r);
    if call.Commit? {
      if call.artifact.artifactId !in r.artifacts && call.invocationId in r.invocations {
        SettleAges(r, r.invocations[call.invocationId], call.artifact);
      }
    } else if call.Tombstone? {
      if call.artifactId in r.artifacts { EntombAges(r, call.artifactId, call.now); }
    } else if call.ExpirePage? {
      var page := ScanPage(r, call.lease, call.after, |r.artifactOrder|, call.limit);
      if page.Page? { EntombAllAges(r, r.artifactOrder[page.start..page.end], call.now); }
    } else if call.AbandonPage? {
      var page := ScanPage(r, call.lease, call.after, |r.invocationOrder|, call.limit);
      if page.Page? {
        var ids := r.invocationOrder[page.start..page.end];
        AbandonAllSame(r, ids, call.heartbeatBefore);
        Untouched(r, AbandonAll(r, ids, call.heartbeatBefore));
      }
    } else if call.Finish? {
      FinishCallAges(r, call);
    } else {
      BystanderSame(r, call);
      Untouched(r, Apply(r, call));
    }
  }

  lemma FinishCallAges(r: Repo, call: Call)
    requires call.Finish?
    ensures Aged(r, Apply(r, call))
  {
    hide Aged, PurgeAll;
    Untouched(r, r);
    if Holds(r, call.lease, call.claim) && call.deleted {
      FinishAges(r, call.lease, call.claim, call.deleted, call.now);
    }
  }

  lemma {:induction false} RunAges(r: Repo, calls: seq<Call>)
    ensures Aged(r, Run(r, calls))
  {
    if calls != [] {
      RunAges(r, calls[..|calls| - 1]);
      CallAges(Run(r, calls[..|calls| - 1]), calls[|calls| - 1]);
    }
  }

  /** One page of the cycle, and the foreign calls that run before it. */
  datatype Segment = Segment(calls: seq<Call>, lease: Lease, now: int, limit: int)

  datatype Progress = Progress(repo: Repo, cursor: Cursor, visited: seq<nat>, done: bool)

  function Range(start: nat, end: nat): seq<nat>
    requires start <= end
  {
    seq(end - start, i requires 0 <= i < end - start => start + i)
  }

  /** The scan as the collector drives it: each page starts at the cursor the
      last one returned; a refused page is tried again. */
  ghost function Cycle(r: Repo, segments: seq<Segment>): Progress {
    if segments == [] then Progress(r, Fresh, [], false) else
    var p := Cycle(r, segments[..|segments| - 1]);
    Advance(p, segments[|segments| - 1])
  }

  ghost function Advance(p: Progress, segment: Segment): Progress {
    var s := Run(p.repo, segment.calls);
    if p.done then p.(repo := s) else
    var page := ScanPage(s, segment.lease, p.cursor, |s.artifactOrder|, segment.limit);
    if page.Unreadable? then p.(repo := s)
    else Progress(TombstoneExpiredPage(s, segment.lease, segment.now, p.cursor, segment.limit),
                  page.next, p.visited + Range(page.start, page.end), page.done)
  }

  /** Everything at the listed places that had expired by `horizon` is retired. */
  ghost predicate Retired(r: Repo, places: nat, horizon: int) {
    && places <= |r.artifactOrder|
    && (forall i | 0 <= i < places && r.artifactOrder[i] in r.artifacts ::
          r.artifacts[r.artifactOrder[i]].retainUntil <= horizon ==> !r.artifacts[r.artifactOrder[i]].state.Active?)
  }

  ghost predicate Filed(r: Repo) {
    forall i | 0 <= i < |r.artifactOrder| :: r.artifactOrder[i] in r.artifacts
  }

  ghost predicate OnCourse(p: Progress, least: nat, horizon: int) {
    && p.visited == Range(0, |p.visited|)
    && Retired(p.repo, |p.visited|, horizon)
    && least <= |p.repo.artifactOrder|
    && (if p.done then least <= |p.visited|
        else if p.cursor.Fresh? then p.visited == []
        else p.cursor.Resume? && p.cursor.start == |p.visited| && least <= p.cursor.highwater)
  }

  lemma RetiredAges(before: Repo, after: Repo, places: nat, horizon: int)
    requires Aged(before, after) && Filed(before) && Retired(before, places, horizon)
    ensures Retired(after, places, horizon)
  {
    forall i | 0 <= i < places && after.artifactOrder[i] in after.artifacts
      ensures after.artifacts[after.artifactOrder[i]].retainUntil <= horizon
              ==> !after.artifacts[after.artifactOrder[i]].state.Active?
    {
      assert after.artifactOrder[i] == before.artifactOrder[i];
    }
  }

  lemma SoundFiles(r: Repo)
    requires Sound(r)
    ensures Filed(r)
  {
    hide Linked, Indexed, Unreferenced, Numbered, WithinQuota, Sum;
    forall i | 0 <= i < |r.artifactOrder| ensures r.artifactOrder[i] in r.artifacts {
      assert r.artifactOrder[i] in HeldByArtifacts(r.artifacts);
    }
  }

  lemma AdvanceOnCourse(p: Progress, segment: Segment, least: nat, horizon: int)
    requires OnCourse(p, least, horizon) && horizon <= segment.now
    requires Filed(p.repo) && Filed(Run(p.repo, segment.calls))
    ensures OnCourse(Advance(p, segment), least, horizon)
  {
    hide Run, EntombAll;
    var s := Run(p.repo, segment.calls);
    RunAges(p.repo, segment.calls);
    RetiredAges(p.repo, s, |p.visited|, horizon);
    var page := ScanPage(s, segment.lease, p.cursor, |s.artifactOrder|, segment.limit);
    if !p.done && page.Page? {
      var ids := s.artifactOrder[page.start..page.end];
      assert p.visited + Range(page.start, page.end) == Range(0, page.end);
      EntombAllAges(s, ids, segment.now);
      RetiredAges(s, EntombAll(s, ids, segment.now), |p.visited|, horizon);
      forall i | page.start <= i < page.end ensures s.artifactOrder[i] in ids {
        assert ids[i - page.start] == s.artifactOrder[i];
      }
    }
  }

  lemma AdvanceKeepsSound(p: Progress, segment: Segment)
    requires Sound(p.repo)
    ensures Sound(Advance(p, segment).repo)
  {
    hide Sound, Run, TombstoneExpiredPage;
    var s := Run(p.repo, segment.calls);
    RunKeepsSound(p.repo, segment.calls);
    CallSound(s, ExpirePage(segment.lease, segment.now, p.cursor, segment.limit));
  }

  /** Completeness of the expiry scan: when a cycle reports done, it has visited
      every place exactly once and in order, including all that existed when it
      began, and every artifact that had expired by then is retired. */
  lemma {:induction false} CycleComplete(r: Repo, segments: seq<Segment>, horizon: int)
    requires Sound(r)
    requires forall i | 0 <= i < |segments| :: horizon <= segments[i].now
    ensures var p := Cycle(r, segments);
            && Sound(p.repo)
            && OnCourse(p, |r.artifactOrder|, horizon)
            && (p.done ==> |r.artifactOrder| <= |p.visited| && Retired(p.repo, |r.artifactOrder|, horizon))
  {
    hide Sound, Run, Advance;
    if segments != [] {
      var prefix, segment := segments[..|segments| - 1], segments[|segments| - 1];
      CycleComplete(r, prefix, horizon);
      var p := Cycle(r, prefix);
      RunKeepsSound(p.repo, segment.calls);
      SoundFiles(p.repo);
      SoundFiles(Run(p.repo, segment.calls));
      AdvanceOnCourse(p, segment, |r.artifactOrder|, horizon);
      AdvanceKeepsSound(p, segment);
    }
  }
}
