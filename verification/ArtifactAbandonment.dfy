/** A full cursor cycle of the abandonment scan is complete: when it is done, no
    reservation that was there when it began is still inflight with a lapsed heartbeat. */
module ArtifactAbandonment {
  import opened Common
  import opened ArtifactLedger
  import opened ArtifactRepository
  import opened ArtifactConservation
  import Scans = ArtifactScans

  /** Reservations keep their place, heartbeats only move forward, and nothing becomes inflight again. */
  ghost predicate Worn(before: Repo, after: Repo) {
    && before.invocationOrder <= after.invocationOrder
    && (forall id | id in before.invocations ::
          && id in after.invocations
          && (after.invocations[id].state.Inflight? ==>
                before.invocations[id].state.Inflight?
                  && before.invocations[id].heartbeatAt <= after.invocations[id].heartbeatAt))
  }

  lemma Unworn(before: Repo, after: Repo)
    requires after.invocations == before.invocations && after.invocationOrder == before.invocationOrder
    ensures Worn(before, after)
  {
  }

  lemma {:induction false} AbandonAllWears(r: Repo, ids: seq<Name>, horizon: int)
    ensures Worn(r, AbandonAll(r, ids, horizon))
    ensures AbandonAll(r, ids, horizon).invocationOrder == r.invocationOrder
    ensures forall id | id in ids :: !Lapsed(AbandonAll(r, ids, horizon), id, horizon)
  {
    if ids != [] {
      AbandonAllWears(r, ids[..|ids| - 1], horizon);
      assert ids == ids[..|ids| - 1] + [ids[|ids| - 1]];
    }
  }

  lemma {:induction false} EntombAllWears(r: Repo, ids: seq<Name>, now: int)
    ensures EntombAll(r, ids, now).invocations == r.invocations
            && EntombAll(r, ids, now).invocationOrder == r.invocationOrder
  {
    if ids != [] {
      EntombAllWears(r, ids[..|ids| - 1], now);
    }
  }

  lemma AdmitWears(r: Repo, request: Reservation)
    requires request.invocationId !in r.invocations
    ensures Worn(r, Admit(r, request))
  {
  }

  lemma SettleWears(r: Repo, invocation: Invocation, artifact: Artifact)
    requires invocation.invocationId in r.invocations
    ensures Worn(r, Settle(r, invocation, artifact))
  {
  }

  function Beaten(invocation: Invocation, now: int): Invocation {
    invocation.(heartbeatAt := now)
  }

  lemma BeatWears(invocations: map<Name, Invocation>, id: Name, now: int)
    requires id in invocations && invocations[id].heartbeatAt < now
    ensures var after := invocations[id := Beaten(invocations[id], now)];
            forall other | other in invocations ::
              && other in after && after[other].state == invocations[other].state
              && invocations[other].heartbeatAt <= after[other].heartbeatAt
  {
  }

  lemma HeartbeatWears(r: Repo, id: Name, digest: Name, generation: nat, now: int)
    ensures Worn(r, HeartbeatCreate(r, id, digest, generation, now))
  {
    if Live(r, id, digest, generation) && r.invocations[id].heartbeatAt < now {
      BeatWears(r.invocations, id, now);
      var n := HeartbeatCreate(r, id, digest, generation, now);
      assert n.invocations == r.invocations[id := Beaten(r.invocations[id], now)]
             && n.invocationOrder == r.invocationOrder;
    }
  }

  /** The calls that leave reservations alone. */
  predicate SparesReservations(call: Call) {
    !(call.Begin? || call.Heartbeat? || call.Commit? || call.Tombstone? || call.ExpirePage? || call.AbandonPage?
      || call.Finish?)
  }

  /** What calls that leave reservations alone do not change. */
  datatype Pledges = Pledges(invocations: map<Name, Invocation>, order: seq<Name>)

  function PledgesOf(r: Repo): Pledges {
    Pledges(r.invocations, r.invocationOrder)
  }

  lemma AcquireWears(r: Repo, now: int, duration: int)
    ensures PledgesOf(AcquireGC(r, now, duration)) == PledgesOf(r)
  {
  }

  lemma RenewWears(r: Repo, lease: Lease, now: int, duration: int)
    ensures PledgesOf(RenewGC(r, lease, now, duration)) == PledgesOf(r)
  {
  }

  lemma ReleaseWears(r: Repo, lease: Lease, checkpoint: Checkpoint)
    ensures PledgesOf(ReleaseGC(r, lease, checkpoint)) == PledgesOf(r)
  {
  }

  lemma PendingWears(r: Repo, lease: Lease, limit: int)
    ensures PledgesOf(PendingSweepsPage(r, lease, limit)) == PledgesOf(r)
  {
    hide Oldest, Offer;
  }

  lemma ClaimWears(r: Repo, lease: Lease, key: Name, version: nat, cutoff: int)
    ensures PledgesOf(ClaimSweepLeased(r, lease, key, version, cutoff)) == PledgesOf(r)
  {
  }

  lemma RetireWears(r: Repo, lease: Lease, claim: SweepClaim)
    ensures PledgesOf(RetireSweepLeased(r, lease, claim)) == PledgesOf(r)
  {
  }

  lemma SparingWears(r: Repo, call: Call)
    requires SparesReservations(call)
    ensures PledgesOf(Apply(r, call)) == PledgesOf(r)
  {
    hide AcquireGC, RenewGC, ReleaseGC, PendingSweepsPage, ClaimSweepLeased, RetireSweepLeased, PledgesOf;
    match call
    case Acquire(now, duration) => AcquireWears(r, now, duration);
    case Renew(lease, now, duration) => RenewWears(r, lease, now, duration);
    case Release(lease, checkpoint) => ReleaseWears(r, lease, checkpoint);
    case Pending(lease, limit) => PendingWears(r, lease, limit);
    case Claim(lease, key, version, cutoff) => ClaimWears(r, lease, key, version, cutoff);
    case Retire(lease, claim) => RetireWears(r, lease, claim);
  }

  lemma TombstoneWears(r: Repo, id: Name, tenant: Name, now: int)
    ensures var n := TombstoneArtifact(r, id, tenant, now);
            n.invocations == r.invocations && n.invocationOrder == r.invocationOrder
  {
    hide RecordTombstone, Bump;
  }

  lemma FinishWears(r: Repo, lease: Lease, claim: SweepClaim, deleted: bool, now: int)
    ensures var n := FinishSweepLeased(r, lease, claim, deleted, now);
            n.invocations == r.invocations && n.invocationOrder == r.invocationOrder
  {
    hide PurgeAll, Listed;
  }

  lemma CallWears(r: Repo, call: Call)
    requires Sound(r)
    ensures Worn(r, Apply(r, call))
  {
    hide Worn, Admit, Settle, EntombAll, AbandonAll, Settles, HeartbeatCreate, Sound, Admissible, TombstoneArtifact,
         FinishSweepLeased;
    Unworn(r, r);
    if call.Begin? {
      AdmissibleIsNew(r, call.request);
      if Admissible(r, call.request) { AdmitWears(r, call.request); }
    } else if call.Heartbeat? {
      HeartbeatWears(r, call.invocationId, call.requestDigest, call.generation, call.now);
    } else if call.Commit? {
      if call.invocationId in r.invocations {
        OwnName(r, call.invocationId);
        SettleWears(r, r.invocations[call.invocationId], call.artifact);
      }
    } else if call.ExpirePage? {
      var page := ScanPage(r, call.lease, call.after, |r.artifactOrder|, call.limit);
      if page.Page? {
        var ids := r.artifactOrder[page.start..page.end];
        EntombAllWears(r, ids, call.now);
        Unworn(r, EntombAll(r, ids, call.now));
      }
    } else if call.AbandonPage? {
      var page := ScanPage(r, call.lease, call.after, |r.invocationOrder|, call.limit);
      if page.Page? { AbandonAllWears(r, r.invocationOrder[page.start..page.end], call.heartbeatBefore); }
    } else if call.Tombstone? {
      TombstoneWears(r, call.artifactId, call.tenant, call.now);
      Unworn(r, Apply(r, call));
    } else if call.Finish? {
      FinishWears(r, call.lease, call.claim, call.deleted, call.now);
      Unworn(r, Apply(r, call));
    } else {
      SparingWears(r, call);
      Unworn(r, Apply(r, call));
    }
  }

  lemma AdmissibleIsNew(r: Repo, request: Reservation)
    ensures Admissible(r, request) ==> request.invocationId !in r.invocations
  {
  }

  lemma OwnName(r: Repo, id: Name)
    requires Sound(r) && id in r.invocations
    ensures r.invocations[id].invocationId == id
  {
    hide Indexed, Unreferenced, Numbered, WithinQuota, Sum;
  }

  lemma {:induction false} RunWears(r: Repo, calls: seq<Call>)
    requires Sound(r)
    ensures Worn(r, Run(r, calls))
  {
    hide Sound, Apply;
    if calls != [] {
      RunWears(r, calls[..|calls| - 1]);
      RunKeepsSound(r, calls[..|calls| - 1]);
      CallWears(Run(r, calls[..|calls| - 1]), calls[|calls| - 1]);
    }
  }

  /** One page of the cycle, and the foreign calls that run before it. */
  datatype Segment = Segment(calls: seq<Call>, lease: Lease, heartbeatBefore: int, limit: int)

  datatype Progress = Progress(repo: Repo, cursor: Cursor, visited: seq<nat>, done: bool)

  ghost function Cycle(r: Repo, segments: seq<Segment>): Progress {
    if segments == [] then Progress(r, Fresh, [], false) else
    Advance(Cycle(r, segments[..|segments| - 1]), segments[|segments| - 1])
  }

  ghost function Advance(p: Progress, segment: Segment): Progress {
    var s := Run(p.repo, segment.calls);
    if p.done then p.(repo := s) else
    var page := ScanPage(s, segment.lease, p.cursor, |s.invocationOrder|, segment.limit);
    if page.Unreadable? then p.(repo := s)
    else Progress(AbandonInflightPage(s, segment.lease, segment.heartbeatBefore, p.cursor, segment.limit),
                  page.next, p.visited + Scans.Range(page.start, page.end), page.done)
  }

  /** No reservation at these places is inflight with a heartbeat at or before `horizon`. */
  ghost predicate Cleared(r: Repo, places: nat, horizon: int) {
    places <= |r.invocationOrder| && forall i | 0 <= i < places :: !Lapsed(r, r.invocationOrder[i], horizon)
  }

  ghost predicate Filed(r: Repo) {
    forall i | 0 <= i < |r.invocationOrder| :: r.invocationOrder[i] in r.invocations
  }

  ghost predicate OnCourse(p: Progress, least: nat, horizon: int) {
    && p.visited == Scans.Range(0, |p.visited|)
    && Cleared(p.repo, |p.visited|, horizon)
    && least <= |p.repo.invocationOrder|
    && (if p.done then least <= |p.visited|
        else if p.cursor.Fresh? then p.visited == []
        else p.cursor.Resume? && p.cursor.start == |p.visited| && least <= p.cursor.highwater)
  }

  lemma ClearedStays(before: Repo, after: Repo, places: nat, horizon: int)
    requires Worn(before, after) && Filed(before) && Cleared(before, places, horizon)
    ensures Cleared(after, places, horizon)
  {
    forall i | 0 <= i < places ensures !Lapsed(after, after.invocationOrder[i], horizon) {
      assert after.invocationOrder[i] == before.invocationOrder[i];
    }
  }

  lemma SoundFiles(r: Repo)
    requires Sound(r)
    ensures Filed(r)
  {
    hide Linked, Indexed, Unreferenced, Numbered, WithinQuota, Sum;
    forall i | 0 <= i < |r.invocationOrder| ensures r.invocationOrder[i] in r.invocations {
      assert r.invocationOrder[i] in HeldByInvocations(r.invocations);
    }
  }

  lemma LapsedEarlier(r: Repo, id: Name, horizon: int, later: int)
    requires horizon <= later && !Lapsed(r, id, later)
    ensures !Lapsed(r, id, horizon)
  {
  }

  lemma AdvanceOnCourse(p: Progress, segment: Segment, least: nat, horizon: int)
    requires Sound(p.repo) && OnCourse(p, least, horizon) && horizon <= segment.heartbeatBefore
    requires Filed(p.repo) && Filed(Run(p.repo, segment.calls))
    ensures OnCourse(Advance(p, segment), least, horizon)
  {
    hide Run, AbandonAll, Sound, Lapsed;
    var s := Run(p.repo, segment.calls);
    RunWears(p.repo, segment.calls);
    ClearedStays(p.repo, s, |p.visited|, horizon);
    var page := ScanPage(s, segment.lease, p.cursor, |s.invocationOrder|, segment.limit);
    if !p.done && page.Page? {
      var ids := s.invocationOrder[page.start..page.end];
      assert p.visited + Scans.Range(page.start, page.end) == Scans.Range(0, page.end);
      AbandonAllWears(s, ids, segment.heartbeatBefore);
      var n := AbandonAll(s, ids, segment.heartbeatBefore);
      ClearedStays(s, n, |p.visited|, horizon);
      forall i | page.start <= i < page.end ensures !Lapsed(n, n.invocationOrder[i], horizon) {
        assert ids[i - page.start] == s.invocationOrder[i];
        LapsedEarlier(n, s.invocationOrder[i], horizon, segment.heartbeatBefore);
      }
    }
  }

  lemma AdvanceKeepsSound(p: Progress, segment: Segment)
    requires Sound(p.repo)
    ensures Sound(Advance(p, segment).repo)
  {
    hide Sound, Run, AbandonInflightPage;
    var s := Run(p.repo, segment.calls);
    RunKeepsSound(p.repo, segment.calls);
    CallSound(s, AbandonPage(segment.lease, segment.heartbeatBefore, p.cursor, segment.limit));
  }

  /** Completeness of the abandonment scan: when a cycle reports done, it has visited
      every place exactly once and in order, including all that existed when it began,
      and none of those is still inflight with a heartbeat at or before `horizon`. */
  lemma {:induction false} CycleComplete(r: Repo, segments: seq<Segment>, horizon: int)
    requires Sound(r)
    requires forall i | 0 <= i < |segments| :: horizon <= segments[i].heartbeatBefore
    ensures var p := Cycle(r, segments);
            && Sound(p.repo)
            && OnCourse(p, |r.invocationOrder|, horizon)
            && (p.done ==> |r.invocationOrder| <= |p.visited| && Cleared(p.repo, |r.invocationOrder|, horizon))
  {
    hide Sound, Run, Advance, Lapsed;
    if segments != [] {
      var prefix, segment := segments[..|segments| - 1], segments[|segments| - 1];
      CycleComplete(r, prefix, horizon);
      var p := Cycle(r, prefix);
      RunKeepsSound(p.repo, segment.calls);
      SoundFiles(p.repo);
      SoundFiles(Run(p.repo, segment.calls));
      AdvanceOnCourse(p, segment, |r.invocationOrder|, horizon);
      AdvanceKeepsSound(p, segment);
    }
  }
}
