/** What every repository call answers: each answer with the exact condition under which it is given, in
    every reachable state, and what the call then leaves behind. */
module ArtifactDecisions {
  import opened Common
  import opened ArtifactRepository
  import opened ArtifactConservation
  import opened ArtifactHistory
  import Collection = ArtifactCollection
  import Ledger = ArtifactLedger

  // ----- reservations of artifact identifiers -----

  /** An identifier is reserved by the invocation that named it. */
  ghost predicate Spoken(reservations: map<Name, Name>, invocations: map<Name, Invocation>) {
    forall a | a in reservations ::
      reservations[a] in invocations && invocations[reservations[a]].artifactId == a
  }

  lemma {:induction false} EntombAllReserves(r: Repo, ids: seq<Name>, now: int)
    ensures EntombAll(r, ids, now).artifactReservations == r.artifactReservations
  {
    if ids != [] {
      EntombAllReserves(r, ids[..|ids| - 1], now);
    }
  }

  lemma {:induction false} AbandonAllReserves(r: Repo, ids: seq<Name>, before: int)
    ensures AbandonAll(r, ids, before).artifactReservations == r.artifactReservations
  {
    if ids != [] {
      AbandonAllReserves(r, ids[..|ids| - 1], before);
    }
  }

  lemma ScansReserve(r: Repo, call: Call)
    requires call.ExpirePage? || call.AbandonPage?
    ensures Apply(r, call).artifactReservations == r.artifactReservations
  {
    hide EntombAll, AbandonAll;
    if call.ExpirePage? {
      var page := ScanPage(r, call.lease, call.after, |r.artifactOrder|, call.limit);
      if page.Page? { EntombAllReserves(r, r.artifactOrder[page.start..page.end], call.now); }
    } else {
      var page := ScanPage(r, call.lease, call.after, |r.invocationOrder|, call.limit);
      if page.Page? { AbandonAllReserves(r, r.invocationOrder[page.start..page.end], call.heartbeatBefore); }
    }
  }

  lemma OthersReserve(r: Repo, call: Call)
    requires !call.Begin? && !call.ExpirePage? && !call.AbandonPage?
    ensures Apply(r, call).artifactReservations == r.artifactReservations
  {
    hide Settles, Bump, RecordTombstone, PurgeAll, Oldest, Offer, Listed;
  }

  lemma CallSpoken(r: Repo, call: Call)
    requires Spoken(r.artifactReservations, r.invocations) && AllAging(r.invocations)
    requires Linked(r.invocations, r.artifacts, r.artifactReservations)
    ensures Spoken(Apply(r, call).artifactReservations, Apply(r, call).invocations)
  {
    hide Linked, Aging;
    if call.Begin? {
      BeginSpoken(r, call.request);
    } else {
      hide Apply;
      CallGrows(r, call);
      if call.ExpirePage? || call.AbandonPage? { ScansReserve(r, call); } else { OthersReserve(r, call); }
      GrownSpoken(r.artifactReservations, r.invocations, Apply(r, call).invocations, AddedBy(r, call));
    }
  }

  lemma BeginSpoken(r: Repo, request: Reservation)
    requires Spoken(r.artifactReservations, r.invocations)
    ensures Spoken(BeginCreate(r, request).artifactReservations, BeginCreate(r, request).invocations)
  {
    hide Affordable, Bump;
  }

  lemma GrownSpoken(reservations: map<Name, Name>, before: map<Name, Invocation>, after: map<Name, Invocation>,
                    added: Option<Invocation>)
    requires Spoken(reservations, before) && Grows(before, after, added)
    ensures Spoken(reservations, after)
  {
    hide FixedOf;
    forall a | a in reservations ensures reservations[a] in after && after[reservations[a]].artifactId == a {
      FixedFields(after[reservations[a]], before[reservations[a]]);
    }
  }

  lemma {:induction false} RunSpoken(quotas: map<Name, int>, calls: seq<Call>)
    ensures Spoken(Run(Initial(quotas), calls).artifactReservations, Run(Initial(quotas), calls).invocations)
  {
    hide Apply, Spoken;
    if calls == [] {
      NothingSpoken();
    } else {
      var front := calls[..|calls| - 1];
      RunSpoken(quotas, front);
      RunAging(quotas, front);
      RunSound(quotas, front);
      CallSpoken(Run(Initial(quotas), front), calls[|calls| - 1]);
    }
  }

  lemma NothingSpoken()
    ensures Spoken(map[], map[])
  {
  }

  // ----- BeginCreate -----

  /** The request fits into what its tenant's quota leaves. */
  predicate Fits(r: Repo, request: Reservation) {
    && request.tenant in r.quotas && 0 <= request.size
    && At(r.used, request.tenant) + At(r.reserved, request.tenant) + request.size <= r.quotas[request.tenant]
  }

  /** Some invocation has named this artifact identifier already. */
  ghost predicate Named(r: Repo, artifactId: Name) {
    exists id :: id in r.invocations && r.invocations[id].artifactId == artifactId
  }

  /** The record of a new reservation: all the request says, inflight at its first generation. */
  predicate Repeats(request: Reservation, invocation: Invocation) {
    && invocation.tenant == request.tenant && invocation.invocationId == request.invocationId
    && invocation.requestDigest == request.requestDigest && invocation.artifactId == request.artifactId
    && invocation.objectKey == request.objectKey && invocation.contentDigest == request.contentDigest
    && invocation.size == request.size && invocation.details == request.details
    && invocation.startedAt == request.startedAt == invocation.heartbeatAt
    && invocation.generation == 1 && invocation.state == Inflight
  }

  /** In every reachable state a reservation is answered in exactly one of these ways. */
  lemma BeginDecided(quotas: map<Name, int>, calls: seq<Call>, request: Reservation)
    ensures var r := Run(Initial(quotas), calls);
            var reply := BeginReply(r, request);
            var known := request.invocationId in r.invocations;
            var same := known && r.invocations[request.invocationId].tenant == request.tenant
                        && r.invocations[request.invocationId].requestDigest == request.requestDigest;
            var swept, fits := request.objectKey in r.sweeps, Fits(r, request);
            && (reply == Refused(InvocationConflict) <==> known && !same)
            && (reply.Invoked? && reply.replayed <==> same)
            && (same ==> reply.invocation == r.invocations[request.invocationId])
            && (reply == Refused(GCInProgress) <==> !known && swept)
            && (reply == Refused(QuotaExceeded) <==> !known && !swept && !fits)
            && (reply == Refused(RepositoryConflict)
                <==> !known && !swept && fits && Named(r, request.artifactId))
            && (reply.Invoked? && !reply.replayed
                <==> !known && !swept && fits && !Named(r, request.artifactId))
            && (reply.Invoked? && !reply.replayed ==> Repeats(request, reply.invocation))
  {
    hide Run, PledgesBalance, UsageBalances, WithinQuota, Indexed, Unreferenced, Numbered;
    var r := Run(Initial(quotas), calls);
    RunSound(quotas, calls);
    RunSpoken(quotas, calls);
    NamedIsReserved(r, request.artifactId);
    AffordableFits(quotas, calls, request);
  }

  lemma NamedIsReserved(r: Repo, artifactId: Name)
    requires Spoken(r.artifactReservations, r.invocations) && Linked(r.invocations, r.artifacts, r.artifactReservations)
    ensures Named(r, artifactId) <==> artifactId in r.artifactReservations
    ensures artifactId in r.artifacts ==> Named(r, artifactId)
  {
  }

  lemma AffordableFits(quotas: map<Name, int>, calls: seq<Call>, request: Reservation)
    ensures var r := Run(Initial(quotas), calls); Affordable(r, request) <==> Fits(r, request)
  {
    hide Run, PledgesBalance, UsageBalances, Linked, Indexed, Unreferenced, Numbered;
    AdmittedWithin(quotas, calls, request.tenant);
  }

  lemma AdmittedWithin(quotas: map<Name, int>, calls: seq<Call>, tenant: Name)
    ensures var r := Run(Initial(quotas), calls); 0 <= At(r.used, tenant) && 0 <= At(r.reserved, tenant)
  {
    hide Run, Initial;
    Collection.AdmissionWithinQuota(quotas, calls, tenant);
  }

  /** What a reservation leaves: a new record with its bytes and its reference, or nothing at all. */
  lemma BeginLeaves(quotas: map<Name, int>, calls: seq<Call>, request: Reservation)
    ensures var r := Run(Initial(quotas), calls);
            var reply, n := BeginReply(r, request), Apply(r, Begin(request));
            if reply.Invoked? && !reply.replayed
            then && n.invocations == r.invocations[request.invocationId := reply.invocation]
                 && n.invocationOrder == r.invocationOrder + [request.invocationId]
                 && n.artifacts == r.artifacts && n.artifactOrder == r.artifactOrder && n.sweeps == r.sweeps
                 && n.used == r.used && At(n.reserved, request.tenant) == At(r.reserved, request.tenant) + request.size
                 && At(n.inflightByObject, request.objectKey) == At(r.inflightByObject, request.objectKey) + 1
            else n == r
  {
    hide Run;
  }

  // ----- HeartbeatCreate and CommitCreate -----

  /** The invocation is on record under this digest. */
  predicate Recognised(r: Repo, id: Name, digest: Name) {
    id in r.invocations && r.invocations[id].requestDigest == digest
  }

  function Later(left: int, right: int): int {
    if left < right then right else left
  }

  /** A heartbeat is answered with the record it leaves; it moves an inflight invocation's heartbeat forward and
      nothing else, and is refused for exactly these reasons. */
  lemma HeartbeatDecided(quotas: map<Name, int>, calls: seq<Call>, id: Name, digest: Name, generation: nat, now: int)
    ensures var r := Run(Initial(quotas), calls);
            var reply := HeartbeatReply(r, id, digest, generation, now);
            var n := Apply(r, Heartbeat(id, digest, generation, now));
            if !Recognised(r, id, digest)
            then n == r && reply == Refused(if id in r.invocations then InvocationConflict else RepositoryConflict)
            else if r.invocations[id].state == Abandoned then n == r && reply == Refused(InvocationAbandoned)
            else if generation != 1 then n == r && reply == Refused(RepositoryConflict)
            else
              var beat := if r.invocations[id].state == Inflight then Later(r.invocations[id].heartbeatAt, now)
                          else r.invocations[id].heartbeatAt;
              && reply == Invoked(r.invocations[id].(heartbeatAt := beat), false)
              && n == r.(invocations := r.invocations[id := reply.invocation])
  {
    hide Run;
    var r := Run(Initial(quotas), calls);
    RunAging(quotas, calls);
    if id in r.invocations {
      assert r.invocations == r.invocations[id := r.invocations[id]];
      assert r == r.(invocations := r.invocations);
    }
  }

  /** The artifact says what the reservation said. */
  predicate Agrees(invocation: Invocation, artifact: Artifact) {
    && artifact.artifactId == invocation.artifactId && artifact.tenant == invocation.tenant
    && artifact.invocationId == invocation.invocationId && artifact.requestDigest == invocation.requestDigest
    && artifact.objectKey == invocation.objectKey && artifact.size == invocation.size && artifact.state == Active
  }

  /** A commit stores its artifact, repeats the stored one, or is refused, for exactly these reasons. */
  lemma CommitAnswered(quotas: map<Name, int>, calls: seq<Call>, id: Name, digest: Name, generation: nat,
                       artifact: Artifact)
    ensures var r := Run(Initial(quotas), calls);
            var reply, n := CommitReply(r, id, digest, generation, artifact),
                            Apply(r, Commit(id, digest, generation, artifact));
            if !Recognised(r, id, digest)
            then n == r && reply == Refused(if id in r.invocations then InvocationConflict else RepositoryConflict)
            else if r.invocations[id].state == Abandoned then n == r && reply == Refused(InvocationAbandoned)
            else if r.invocations[id].state == Committed
            then n == r && r.invocations[id].artifactId in r.artifacts
                 && reply == Stored(r.artifacts[r.invocations[id].artifactId], false)
            else if generation != 1 || !Agrees(r.invocations[id], artifact)
            then n == r && reply == Refused(RepositoryConflict)
            else && reply == Stored(artifact, true) && artifact.artifactId !in r.artifacts
                 && n.artifacts == r.artifacts[artifact.artifactId := artifact]
                 && n.artifactOrder == r.artifactOrder + [artifact.artifactId]
                 && n.invocations == r.invocations[id := r.invocations[id].(state := Committed)]
                 && n.sweeps == r.sweeps && n.invocationOrder == r.invocationOrder
                 && n.latestTombstone == r.latestTombstone && n.artifactReservations == r.artifactReservations
  {
    hide Run, PledgesBalance, UsageBalances, WithinQuota, Indexed, Unreferenced, Numbered, Bump, Listed;
    RunAging(quotas, calls);
    RunSound(quotas, calls);
  }

  // ----- TombstoneArtifact -----

  function Buried(artifact: Artifact, now: int): Artifact {
    artifact.(state := Tombstoned, tombstonedAt := When(now))
  }

  /** Only the artifact's own tenant retires it, once. */
  lemma TombstoneDecided(quotas: map<Name, int>, calls: seq<Call>, id: Name, tenant: Name, now: int)
    ensures var r := Run(Initial(quotas), calls);
            var reply, n := TombstoneReply(r, id, tenant, now), Apply(r, Tombstone(id, tenant, now));
            if id !in r.artifacts then n == r && reply == Refused(ArtifactNotFound)
            else if r.artifacts[id].tenant != tenant then n == r && reply == Refused(AccessDenied)
            else if r.artifacts[id].state != Active then n == r && reply == Stored(r.artifacts[id], false)
            else && reply == Stored(Buried(r.artifacts[id], now), true)
                 && n.artifacts == r.artifacts[id := Buried(r.artifacts[id], now)]
                 && n.invocations == r.invocations && n.sweeps == r.sweeps && n.artifactOrder == r.artifactOrder
                 && r.artifacts[id].objectKey in n.latestTombstone
                 && now <= n.latestTombstone[r.artifacts[id].objectKey]
  {
    hide Run, Bump;
  }

  // ----- scans -----

  /** Where a readable cursor begins and how far the scan it belongs to reaches. */
  predicate Reads(cursor: Cursor, total: nat, start: nat, highwater: nat) {
    match cursor
    case Malformed => false
    case Fresh => start == 0 && highwater == total
    case Resume(from, to) => 0 <= from && from <= to && to <= total && start == from && highwater == to
  }

  /** The page from this cursor: at most `limit` places, and where the next one begins. */
  ghost predicate PageIs(cursor: Cursor, total: nat, limit: int, start: nat, end: nat, next: Cursor, done: bool) {
    exists highwater: nat ::
      && Reads(cursor, total, start, highwater) && start <= end && end <= highwater && end <= start + limit
      && (end == highwater || end == start + limit)
      && (done <==> end == highwater) && next == (if done then Fresh else Resume(end, highwater))
  }

  predicate Readable(cursor: Cursor, total: nat) {
    match cursor
    case Malformed => false
    case Fresh => true
    case Resume(from, to) => 0 <= from && from <= to && to <= total
  }

  lemma PageDecided(r: Repo, lease: Lease, after: Cursor, total: nat, limit: int)
    ensures var page := ScanPage(r, lease, after, total, limit);
            && (page.Page? <==> 0 < limit && limit <= 4096 && Leased(r, lease) && Readable(after, total))
            && (page.Page? ==> PageIs(after, total, limit, page.start, page.end, page.next, page.done))
  {
    var page := ScanPage(r, lease, after, total, limit);
    if page.Page? {
      var highwater := if after.Fresh? then total else after.highwater;
      assert Reads(after, total, page.start, highwater);
    }
  }

  /** The places of the stretch whose artifact has expired. */
  ghost function Overdue(r: Repo, ids: seq<Name>, now: int): set<Name> {
    set id | id in ids && id in r.artifacts && r.artifacts[id].state == Active && r.artifacts[id].retainUntil <= now
  }

  lemma OverdueMore(r: Repo, ids: seq<Name>, now: int)
    requires ids != []
    ensures var front, last := ids[..|ids| - 1], ids[|ids| - 1];
            Overdue(r, ids, now) == if Expired(r, last, now) then Overdue(r, front, now) + {last}
                                    else Overdue(r, front, now)
  {
    assert ids == ids[..|ids| - 1] + [ids[|ids| - 1]];
  }

  lemma OneMore(members: set<Name>, last: Name)
    ensures |members + {last}| == |members| + (if last in members then 0 else 1)
  {
    if last in members {
      assert members + {last} == members;
    }
  }

  /** Exactly the artifacts in the set have been buried. */
  ghost predicate BuriedExactly(before: map<Name, Artifact>, after: map<Name, Artifact>, overdue: set<Name>, now: int) {
    && after.Keys == before.Keys
    && (forall id | id in before ::
          after[id] == if id in overdue then Buried(before[id], now) else before[id])
  }

  lemma BuryOne(before: map<Name, Artifact>, after: map<Name, Artifact>, overdue: set<Name>, now: int, id: Name)
    requires BuriedExactly(before, after, overdue, now) && id in before && id !in overdue
    ensures id in after && after[id] == before[id]
    ensures BuriedExactly(before, after[id := Buried(after[id], now)], overdue + {id}, now)
  {
    assert id in after.Keys;
  }

  lemma BuryNone(artifacts: map<Name, Artifact>, now: int)
    ensures BuriedExactly(artifacts, artifacts, {}, now)
  {
  }

  lemma {:induction false} EntombAllEffect(r: Repo, ids: seq<Name>, now: int)
    ensures EntombCount(r, ids, now) == |Overdue(r, ids, now)|
    ensures BuriedExactly(r.artifacts, EntombAll(r, ids, now).artifacts, Overdue(r, ids, now), now)
  {
    hide Overdue, BuriedExactly, Bump, RecordTombstone;
    if ids == [] {
      assert Overdue(r, ids, now) == {} by { NoneOverdue(r, now); }
      BuryNone(r.artifacts, now);
    } else {
      var front, last := ids[..|ids| - 1], ids[|ids| - 1];
      var before, overdue := EntombAll(r, front, now), Overdue(r, front, now);
      EntombAllEffect(r, front, now);
      OverdueMore(r, ids, now);
      OneMore(overdue, last);
      StillOverdue(r.artifacts, before.artifacts, overdue, now, last);
      if last in overdue { OverdueAre(r, front, now, last); }
      if Expired(r, last, now) && last !in overdue {
        BuryOne(r.artifacts, before.artifacts, overdue, now, last);
      } else if last in overdue {
        assert overdue + {last} == overdue;
      }
    }
  }

  lemma NoneOverdue(r: Repo, now: int)
    ensures Overdue(r, [], now) == {}
  {
  }

  lemma OverdueAre(r: Repo, ids: seq<Name>, now: int, id: Name)
    requires id in Overdue(r, ids, now)
    ensures Expired(r, id, now)
  {
  }

  /** An artifact is still active exactly if it was and has not been buried. */
  lemma StillOverdue(before: map<Name, Artifact>, after: map<Name, Artifact>, overdue: set<Name>, now: int, id: Name)
    requires BuriedExactly(before, after, overdue, now)
    ensures id in after <==> id in before
    ensures id in before ==>
              && after[id].retainUntil == before[id].retainUntil
              && (after[id].state == Active <==> before[id].state == Active && id !in overdue)
  {
    assert id in after.Keys <==> id in before.Keys;
  }

  /** The expiry scan retires exactly the expired artifacts of its page and counts them. */
  lemma ExpireDecided(quotas: map<Name, int>, calls: seq<Call>, lease: Lease, now: int, after: Cursor, limit: int)
    ensures var r := Run(Initial(quotas), calls);
            var reply, n := ExpiredReply(r, lease, now, after, limit), Apply(r, ExpirePage(lease, now, after, limit));
            if limit <= 0 || 4096 < limit then n == r && reply == Refused(InvalidRequest)
            else if !Leased(r, lease) || !Readable(after, |r.artifactOrder|)
            then n == r && reply == Refused(RepositoryConflict)
            else
              && reply.Scanned?
              && exists start: nat, end: nat ::
                   && end <= |r.artifactOrder|
                   && PageIs(after, |r.artifactOrder|, limit, start, end, reply.next, reply.done)
                   && var overdue := Overdue(r, r.artifactOrder[start..end], now);
                      reply.count == |overdue| && BuriedExactly(r.artifacts, n.artifacts, overdue, now)
  {
    hide Run, EntombAll, EntombCount, Overdue, BuriedExactly, PageIs, PageBounds;
    var r := Run(Initial(quotas), calls);
    var page := ScanPage(r, lease, after, |r.artifactOrder|, limit);
    PageDecided(r, lease, after, |r.artifactOrder|, limit);
    if page.Page? {
      EntombAllEffect(r, r.artifactOrder[page.start..page.end], now);
    }
  }

  function Dropped(invocation: Invocation): Invocation {
    invocation.(state := Abandoned, generation := 2)
  }

  /** The places of the stretch whose heartbeat has lapsed. */
  ghost function Silent(r: Repo, ids: seq<Name>, before: int): set<Name> {
    set id | id in ids && id in r.invocations && r.invocations[id].state == Inflight
             && r.invocations[id].heartbeatAt <= before
  }

  lemma SilentMore(r: Repo, ids: seq<Name>, before: int)
    requires ids != []
    ensures var front, last := ids[..|ids| - 1], ids[|ids| - 1];
            Silent(r, ids, before) == if Lapsed(r, last, before) then Silent(r, front, before) + {last}
                                      else Silent(r, front, before)
  {
    assert ids == ids[..|ids| - 1] + [ids[|ids| - 1]];
  }

  /** Exactly the reservations in the set have been dropped. */
  ghost predicate DroppedExactly(before: map<Name, Invocation>, after: map<Name, Invocation>, silent: set<Name>) {
    && after.Keys == before.Keys
    && (forall id | id in before :: after[id] == if id in silent then Dropped(before[id]) else before[id])
  }

  lemma DropOne(before: map<Name, Invocation>, after: map<Name, Invocation>, silent: set<Name>, id: Name)
    requires DroppedExactly(before, after, silent) && id in before && id !in silent
    ensures id in after && after[id] == before[id]
    ensures DroppedExactly(before, after[id := Dropped(after[id])], silent + {id})
  {
    assert id in after.Keys;
  }

  lemma DropNone(invocations: map<Name, Invocation>)
    ensures DroppedExactly(invocations, invocations, {})
  {
  }

  lemma {:induction false} AbandonAllEffect(r: Repo, ids: seq<Name>, before: int)
    requires AllAging(r.invocations)
    ensures AbandonCount(r, ids, before) == |Silent(r, ids, before)|
    ensures DroppedExactly(r.invocations, AbandonAll(r, ids, before).invocations, Silent(r, ids, before))
  {
    hide Silent, DroppedExactly, Bump;
    if ids == [] {
      assert Silent(r, ids, before) == {} by { NoneSilent(r, before); }
      DropNone(r.invocations);
    } else {
      var front, last := ids[..|ids| - 1], ids[|ids| - 1];
      var now, silent := AbandonAll(r, front, before), Silent(r, front, before);
      AbandonAllEffect(r, front, before);
      SilentMore(r, ids, before);
      OneMore(silent, last);
      StillSilent(r.invocations, now.invocations, silent, last);
      if last in silent { SilentAre(r, front, before, last); }
      if Lapsed(r, last, before) && last !in silent {
        DropOne(r.invocations, now.invocations, silent, last);
      } else if last in silent {
        assert silent + {last} == silent;
      }
    }
  }

  lemma NoneSilent(r: Repo, before: int)
    ensures Silent(r, [], before) == {}
  {
  }

  lemma SilentAre(r: Repo, ids: seq<Name>, before: int, id: Name)
    requires id in Silent(r, ids, before)
    ensures Lapsed(r, id, before)
  {
  }

  lemma StillSilent(before: map<Name, Invocation>, after: map<Name, Invocation>, silent: set<Name>, id: Name)
    requires DroppedExactly(before, after, silent)
    ensures id in after <==> id in before
    ensures id in before ==>
              && after[id].heartbeatAt == before[id].heartbeatAt
              && (after[id].state == Inflight <==> before[id].state == Inflight && id !in silent)
  {
    assert id in after.Keys <==> id in before.Keys;
  }

  /** The abandonment scan drops exactly the silent reservations of its page and counts them. */
  lemma AbandonDecided(quotas: map<Name, int>, calls: seq<Call>, lease: Lease, before: int, after: Cursor, limit: int)
    ensures var r := Run(Initial(quotas), calls);
            var reply := AbandonReply(r, lease, before, after, limit);
            var n := Apply(r, AbandonPage(lease, before, after, limit));
            if limit <= 0 || 4096 < limit then n == r && reply == Refused(InvalidRequest)
            else if !Leased(r, lease) || !Readable(after, |r.invocationOrder|)
            then n == r && reply == Refused(RepositoryConflict)
            else
              && reply.Scanned?
              && exists start: nat, end: nat ::
                   && end <= |r.invocationOrder|
                   && PageIs(after, |r.invocationOrder|, limit, start, end, reply.next, reply.done)
                   && var silent := Silent(r, r.invocationOrder[start..end], before);
                      reply.count == |silent| && DroppedExactly(r.invocations, n.invocations, silent)
  {
    hide Run, AbandonAll, AbandonCount, Silent, DroppedExactly, PageIs, PageBounds;
    var r := Run(Initial(quotas), calls);
    RunAging(quotas, calls);
    var page := ScanPage(r, lease, after, |r.invocationOrder|, limit);
    PageDecided(r, lease, after, |r.invocationOrder|, limit);
    if page.Page? {
      AbandonAllEffect(r, r.invocationOrder[page.start..page.end], before);
    }
  }

  // ----- the collector's lease -----

  /** The lease is the one that is held. */
  predicate Holder(r: Repo, lease: Lease) {
    r.leaseHeld && r.lease.token == lease.token
  }

  /** A lease is granted exactly while none is running, with a token above all before it and the checkpoint kept. */
  lemma AcquireDecided(quotas: map<Name, int>, calls: seq<Call>, now: int, duration: int)
    ensures var r := Run(Initial(quotas), calls);
            var reply, n := AcquireReply(r, now, duration), Apply(r, Acquire(now, duration));
            if duration <= 0 then n == r && reply == Refused(InvalidRequest)
            else if r.leaseHeld && now < r.lease.expiresAt then n == r && reply == Busy
            else && reply.Granted? && Holder(n, reply.lease) && n.lease == reply.lease
                 && r.nextLeaseToken < reply.lease.token && reply.lease.token <= n.nextLeaseToken
                 && reply.lease.expiresAt == now + duration && reply.lease.checkpoint == r.checkpoint
                 && n == r.(lease := n.lease, leaseHeld := true, nextLeaseToken := n.nextLeaseToken)
  {
    hide Run;
  }

  /** A lease is renewed exactly for its holder, before it runs out, and only its end moves. */
  lemma RenewDecided(quotas: map<Name, int>, calls: seq<Call>, lease: Lease, now: int, duration: int)
    ensures var r := Run(Initial(quotas), calls);
            var reply, n := RenewReply(r, lease, now, duration), Apply(r, Renew(lease, now, duration));
            if duration <= 0 then n == r && reply == Refused(InvalidRequest)
            else if !Holder(r, lease) || r.lease.expiresAt <= now then n == r && reply == Refused(RepositoryConflict)
            else && reply.Granted? && reply.lease == r.lease.(expiresAt := now + duration)
                 && n == r.(lease := reply.lease)
  {
    hide Run;
  }

  /** A lease is released exactly by its holder, who leaves the checkpoint for the next one. */
  lemma ReleaseDecided(quotas: map<Name, int>, calls: seq<Call>, lease: Lease, checkpoint: Checkpoint)
    ensures var r := Run(Initial(quotas), calls);
            var reply, n := ReleaseReply(r, lease), Apply(r, Release(lease, checkpoint));
            if Holder(r, lease) then
              && reply == Done(0) && n.checkpoint == checkpoint
              && n == r.(checkpoint := checkpoint, lease := n.lease, leaseHeld := false)
              && (forall other :: !Holder(n, other))
            else n == r && reply == Refused(RepositoryConflict)
  {
    hide Run;
  }

  // ----- sweep claims -----

  /** The claim is on record as it is, under the lease that is held. */
  predicate Owns(r: Repo, lease: Lease, claim: SweepClaim) {
    && Holder(r, lease) && claim.leaseToken == lease.token
    && claim.objectKey in r.sweeps && r.sweeps[claim.objectKey].claim == claim
  }

  /** No invocation in flight and no active artifact refers to the object. */
  ghost predicate Idle(r: Repo, key: Name) {
    && (forall id | id in r.invocations && r.invocations[id].objectKey == key :: r.invocations[id].state != Inflight)
    && (forall id | id in r.artifacts && r.artifacts[id].objectKey == key :: r.artifacts[id].state != Active)
  }

  lemma {:induction false} NobodyRefers(order: seq<Name>, held: map<Name, Ledger.Holding>, key: Name)
    requires forall id | id in held && held[id].key == key :: !held[id].live
    ensures Ledger.Sum(order, held, Ledger.References(key)) == 0
  {
    if order != [] {
      NobodyRefers(order[..|order| - 1], held, key);
    }
  }

  /** The counters are zero exactly when nothing refers to the object. */
  lemma IdleIsCounted(r: Repo, key: Name)
    requires PledgesBalance(r) && UsageBalances(r)
    ensures Idle(r, key) <==> At(r.inflightByObject, key) == 0 && At(r.activeByObject, key) == 0
  {
    hide Ledger.Sum;
    var pledged, stored := HeldByInvocations(r.invocations), HeldByArtifacts(r.artifacts);
    Ledger.Counted(r.invocationOrder, pledged, r.reserved, r.inflightByObject);
    Ledger.Counted(r.artifactOrder, stored, r.used, r.activeByObject);
    if Idle(r, key) {
      NobodyRefers(r.invocationOrder, pledged, key);
      NobodyRefers(r.artifactOrder, stored, key);
    } else if id :| id in r.invocations && r.invocations[id].objectKey == key && r.invocations[id].state == Inflight {
      assert pledged[id].live && pledged[id].key == key;
    } else {
      var id :| id in r.artifacts && r.artifacts[id].objectKey == key && r.artifacts[id].state == Active;
      assert stored[id].live && stored[id].key == key;
    }
  }

  /** An object is claimed exactly by the lease holder, while nobody else has claimed it, nothing refers to it and
      its last tombstone is old enough; the claim is new and goes to the end of the order. */
  lemma ClaimDecided(quotas: map<Name, int>, calls: seq<Call>, lease: Lease, key: Name, version: nat, before: int)
    ensures var r := Run(Initial(quotas), calls);
            var reply, n := ClaimReply(r, lease, key, version, before), Apply(r, Claim(lease, key, version, before));
            if !Holder(r, lease) || key == NO_NAME || version == 0 then n == r && reply == Refused(RepositoryConflict)
            else if key in r.sweeps || !Idle(r, key) || (key in r.latestTombstone && before < r.latestTombstone[key])
            then n == r && reply == Skipped
            else && reply.Claimed? && reply.claim.objectKey == key && reply.claim.objectVersion == version
                 && reply.claim.leaseToken == lease.token && FiledLast(r.sweeps, n.sweeps, reply.claim)
                 && n.invocations == r.invocations && n.artifacts == r.artifacts
                 && n.latestTombstone == r.latestTombstone
  {
    hide Run, Numbered, Idle, FiledLast, ClaimSweepLeased, PledgesBalance, UsageBalances;
    var r := Run(Initial(quotas), calls);
    BookkeepingSound(quotas, calls);
    IdleIsCounted(r, key);
    ClaimLeaves(r, lease, key, version, before);
  }

  lemma ClaimLeaves(r: Repo, lease: Lease, key: Name, version: nat, before: int)
    requires Numbered(r.sweeps, r.nextSweepToken, r.nextSweepOrder, r.nextLeaseToken)
    ensures var n := ClaimSweepLeased(r, lease, key, version, before);
            if Claimable(r, lease, key, version, before)
            then && FiledLast(r.sweeps, n.sweeps, NextClaim(r, lease, key, version))
                 && n.invocations == r.invocations && n.artifacts == r.artifacts
                 && n.latestTombstone == r.latestTombstone
            else n == r
  {
    hide Numbered, FiledLast;
    if Claimable(r, lease, key, version, before) {
      FilesLast(r.sweeps, r.nextSweepToken, r.nextSweepOrder, r.nextLeaseToken, NextClaim(r, lease, key, version));
    }
  }

  lemma BookkeepingSound(quotas: map<Name, int>, calls: seq<Call>)
    ensures var r := Run(Initial(quotas), calls);
            && PledgesBalance(r) && UsageBalances(r)
            && Numbered(r.sweeps, r.nextSweepToken, r.nextSweepOrder, r.nextLeaseToken)
  {
    hide Run, PledgesBalance, UsageBalances, WithinQuota, Linked, Indexed, Unreferenced, Numbered;
    RunSound(quotas, calls);
  }

  /** One claim more, with a token and an order above all the others. */
  ghost predicate FiledLast(before: map<Name, Sweep>, after: map<Name, Sweep>, claim: SweepClaim) {
    && after.Keys == before.Keys + {claim.objectKey} && after[claim.objectKey].claim == claim
    && (forall k | k in before && k != claim.objectKey ::
          && after[k] == before[k] && before[k].claim.token < claim.token
          && before[k].order < after[claim.objectKey].order)
  }

  lemma FilesLast(sweeps: map<Name, Sweep>, token: nat, order: nat, lease: nat, claim: SweepClaim)
    requires Numbered(sweeps, token, order, lease) && token < claim.token && claim.objectKey !in sweeps
    ensures FiledLast(sweeps, sweeps[claim.objectKey := Sweep(claim, order + 1)], claim)
  {
  }

  // ----- PendingSweepsPage -----

  lemma {:induction false} ClaimsListed(sweeps: map<Name, Sweep>, keys: seq<Name>)
    requires forall key | key in keys :: key in sweeps
    ensures |ClaimsOn(sweeps, keys)| == |keys|
    ensures forall i | 0 <= i < |keys| :: ClaimsOn(sweeps, keys)[i] == sweeps[keys[i]].claim
  {
    if keys != [] {
      ClaimsListed(sweeps, keys[..|keys| - 1]);
    }
  }

  /** Taking the least again and again takes them in ascending order. */
  lemma {:induction false} OldestAscend(sweeps: map<Name, Sweep>, count: nat, i: nat, j: nat)
    requires i < j < |Oldest(sweeps, count)|
    requires forall key | key in Oldest(sweeps, count) :: key in sweeps
    ensures sweeps[Oldest(sweeps, count)[i]].order <= sweeps[Oldest(sweeps, count)[j]].order
  {
    var least := Least(sweeps);
    var rest := sweeps - {least};
    assert Oldest(sweeps, count) == [least] + Oldest(rest, count - 1);
    if i != 0 {
      OldestListsClaims(rest, count - 1);
      OldestAscend(rest, count - 1, i - 1, j - 1);
    }
  }

  /** Each claim offered is the one on record, now under this lease and behind all that were filed. */
  ghost predicate Theirs(before: map<Name, Sweep>, after: map<Name, Sweep>, claims: seq<SweepClaim>, token: nat,
                         order: nat) {
    forall i | 0 <= i < |claims| ::
      var key := claims[i].objectKey;
      && key in before && key in after && claims[i] == before[key].claim.(leaseToken := token)
      && after[key].claim == claims[i] && after[key].order == order + i + 1
  }

  /** They are different claims, oldest first. */
  ghost predicate OldestFirst(sweeps: map<Name, Sweep>, claims: seq<SweepClaim>) {
    forall i, j | 0 <= i < j < |claims| ::
      var left, right := claims[i].objectKey, claims[j].objectKey;
      left != right && left in sweeps && right in sweeps && sweeps[left].order <= sweeps[right].order
  }

  predicate IsOffered(claims: seq<SweepClaim>, key: Name) {
    exists i :: 0 <= i < |claims| && claims[i].objectKey == key
  }

  /** A claim is passed over only once as many as asked have been offered, none of them younger, and stays as it is. */
  ghost predicate RestStays(before: map<Name, Sweep>, after: map<Name, Sweep>, claims: seq<SweepClaim>, limit: int) {
    forall key | key in before && !IsOffered(claims, key) ::
      && key in after && after[key] == before[key] && |claims| == limit
      && (forall i | 0 <= i < |claims| ::
            claims[i].objectKey in before && before[claims[i].objectKey].order <= before[key].order)
  }

  ghost predicate OffersOldest(r: Repo, n: Repo, lease: Lease, limit: int, claims: seq<SweepClaim>) {
    && |claims| <= limit && n.sweeps.Keys == r.sweeps.Keys
    && Theirs(r.sweeps, n.sweeps, claims, lease.token, r.nextSweepOrder)
    && OldestFirst(r.sweeps, claims) && RestStays(r.sweeps, n.sweeps, claims, limit)
  }

  lemma OfferedTheirs(sweeps: map<Name, Sweep>, keys: seq<Name>, order: nat, token: nat)
    requires Ledger.Distinct(keys) && (forall key | key in keys :: key in sweeps && sweeps[key].claim.objectKey == key)
    ensures var after := Offer(sweeps, keys, order, token);
            var claims := ClaimsOn(after, keys);
            && |claims| == |keys| && (forall i | 0 <= i < |keys| :: claims[i].objectKey == keys[i])
            && Theirs(sweeps, after, claims, token, order) && after.Keys == sweeps.Keys
            && (forall key | key in sweeps && key !in keys :: key in after && after[key] == sweeps[key])
  {
    hide Offer, ClaimsOn;
    var after := Offer(sweeps, keys, order, token);
    OfferEffect(sweeps, keys, order, token);
    forall key | key in sweeps ensures key in after {
      assert key in after.Keys;
    }
    ClaimsListed(after, keys);
    forall i | 0 <= i < |keys| ensures ClaimsOn(after, keys)[i].objectKey == keys[i] {
      assert keys[i] in keys;
    }
  }

  lemma OfferedInOrder(sweeps: map<Name, Sweep>, limit: nat, claims: seq<SweepClaim>)
    requires |claims| == |Oldest(sweeps, limit)|
    requires forall i | 0 <= i < |claims| :: claims[i].objectKey == Oldest(sweeps, limit)[i]
    ensures OldestFirst(sweeps, claims)
  {
    hide Oldest;
    OldestListsClaims(sweeps, limit);
    forall i, j | 0 <= i < j < |claims|
      ensures claims[i].objectKey in sweeps && claims[j].objectKey in sweeps
      ensures sweeps[claims[i].objectKey].order <= sweeps[claims[j].objectKey].order {
      assert claims[i].objectKey in Oldest(sweeps, limit) && claims[j].objectKey in Oldest(sweeps, limit);
      OldestAscend(sweeps, limit, i, j);
    }
  }

  lemma PassedOver(sweeps: map<Name, Sweep>, after: map<Name, Sweep>, limit: nat, claims: seq<SweepClaim>)
    requires |claims| == |Oldest(sweeps, limit)|
    requires forall i | 0 <= i < |claims| :: claims[i].objectKey == Oldest(sweeps, limit)[i]
    requires forall key | key in sweeps && key !in Oldest(sweeps, limit) :: key in after && after[key] == sweeps[key]
    ensures RestStays(sweeps, after, claims, limit)
  {
    hide Oldest;
    var keys := Oldest(sweeps, limit);
    forall key | key in sweeps && !IsOffered(claims, key)
      ensures key in after && after[key] == sweeps[key] && |claims| == limit
      ensures forall i | 0 <= i < |claims| ::
                claims[i].objectKey in sweeps && sweeps[claims[i].objectKey].order <= sweeps[key].order {
      assert key !in keys;
      Collection.OldestComeFirst(sweeps, limit, key);
    }
  }

  lemma OfferedOldest(r: Repo, lease: Lease, limit: int)
    requires Holder(r, lease) && 0 < limit && limit <= 4096
    requires Numbered(r.sweeps, r.nextSweepToken, r.nextSweepOrder, r.nextLeaseToken)
    ensures var keys, n := Oldest(r.sweeps, limit), PendingSweepsPage(r, lease, limit);
            OffersOldest(r, n, lease, limit, ClaimsOn(n.sweeps, keys))
  {
    hide Oldest, Offer, ClaimsOn, Theirs, OldestFirst, RestStays;
    var keys, n := Oldest(r.sweeps, limit), PendingSweepsPage(r, lease, limit);
    OldestListsClaims(r.sweeps, limit);
    OfferedTheirs(r.sweeps, keys, r.nextSweepOrder, lease.token);
    OfferedInOrder(r.sweeps, limit, ClaimsOn(n.sweeps, keys));
    PassedOver(r.sweeps, n.sweeps, limit, ClaimsOn(n.sweeps, keys));
  }

  /** The lease holder is offered the claims that have waited longest, as many as asked or all; each is now theirs
      and behind all the others, and nothing else changes. */
  lemma PendingDecided(quotas: map<Name, int>, calls: seq<Call>, lease: Lease, limit: int)
    ensures var r := Run(Initial(quotas), calls);
            var reply, n := PendingReply(r, lease, limit), Apply(r, Pending(lease, limit));
            if limit <= 0 || 4096 < limit then n == r && reply == Refused(InvalidRequest)
            else if !Holder(r, lease) then n == r && reply == Refused(RepositoryConflict)
            else && reply.Offered? && OffersOldest(r, n, lease, limit, reply.claims)
                 && n == r.(sweeps := n.sweeps, nextSweepOrder := n.nextSweepOrder)
  {
    hide Run, Oldest, Offer, ClaimsOn, Numbered, OffersOldest;
    var r := Run(Initial(quotas), calls);
    BookkeepingSound(quotas, calls);
    if Holder(r, lease) && 0 < limit && limit <= 4096 {
      OfferedOldest(r, lease, limit);
    }
  }

  /** A claim is given up exactly by its owner. */
  lemma RetireDecided(quotas: map<Name, int>, calls: seq<Call>, lease: Lease, claim: SweepClaim)
    ensures var r := Run(Initial(quotas), calls);
            var reply, n := RetireReply(r, lease, claim), Apply(r, Retire(lease, claim));
            if Owns(r, lease, claim)
            then reply == Done(0) && n == r.(sweeps := n.sweeps) && n.sweeps == r.sweeps - {claim.objectKey}
            else n == r && reply == Refused(RepositoryConflict)
  {
    hide Run;
  }

  /** The artifacts of an object that are waiting to be purged. */
  ghost function Purgeable(artifacts: map<Name, Artifact>, key: Name): set<Name> {
    set id | id in artifacts && artifacts[id].objectKey == key && artifacts[id].state == Tombstoned
  }

  function Purge(artifact: Artifact, now: int): Artifact {
    artifact.(state := Purged, purgedAt := When(now))
  }

  /** The tombstoned artifacts among the listed ones. */
  ghost function Waiting(artifacts: map<Name, Artifact>, ids: seq<Name>): set<Name> {
    set id | id in ids && id in artifacts && artifacts[id].state == Tombstoned
  }

  lemma WaitingMore(artifacts: map<Name, Artifact>, ids: seq<Name>)
    requires ids != []
    ensures var front, last := ids[..|ids| - 1], ids[|ids| - 1];
            Waiting(artifacts, ids)
            == if last in artifacts && artifacts[last].state == Tombstoned then Waiting(artifacts, front) + {last}
               else Waiting(artifacts, front)
  {
    assert ids == ids[..|ids| - 1] + [ids[|ids| - 1]];
  }

  lemma {:induction false} PurgeCounts(artifacts: map<Name, Artifact>, ids: seq<Name>, now: int)
    ensures PurgeCount(artifacts, ids, now) == |Waiting(artifacts, ids)|
  {
    hide Waiting, PurgeAll;
    if ids == [] {
      assert Waiting(artifacts, ids) == {} by { NoneWaiting(artifacts); }
    } else {
      var front, last := ids[..|ids| - 1], ids[|ids| - 1];
      PurgeCounts(artifacts, front, now);
      WaitingMore(artifacts, ids);
      OneMore(Waiting(artifacts, front), last);
      PurgeEffect(artifacts, front, now);
      InWaiting(artifacts, front, last);
      assert last in PurgeAll(artifacts, front, now).Keys <==> last in artifacts.Keys;
    }
  }

  lemma NoneWaiting(artifacts: map<Name, Artifact>)
    ensures Waiting(artifacts, []) == {}
  {
  }

  lemma InWaiting(artifacts: map<Name, Artifact>, ids: seq<Name>, id: Name)
    ensures id in Waiting(artifacts, ids) <==> id in ids && id in artifacts && artifacts[id].state == Tombstoned
  {
  }

  /** A claim is finished exactly by its owner: the object's tombstoned artifacts are purged and counted, no others
      change, and the claim is gone; without a deletion nothing changes. */
  lemma FinishDecided(quotas: map<Name, int>, calls: seq<Call>, lease: Lease, claim: SweepClaim, deleted: bool,
                      now: int)
    ensures var r := Run(Initial(quotas), calls);
            var reply, n := FinishReply(r, lease, claim, deleted, now), Apply(r, Finish(lease, claim, deleted, now));
            if !Owns(r, lease, claim) then n == r && reply == Refused(RepositoryConflict)
            else if !deleted then n == r && reply == Done(0)
            else
              var purgeable := Purgeable(r.artifacts, claim.objectKey);
              && reply == Done(|purgeable|) && n.sweeps == r.sweeps - {claim.objectKey}
              && n.artifacts.Keys == r.artifacts.Keys && n.invocations == r.invocations
              && (forall id | id in r.artifacts ::
                    n.artifacts[id] == if id in purgeable then Purge(r.artifacts[id], now) else r.artifacts[id])
              && n.latestTombstone == r.latestTombstone - {claim.objectKey}
  {
    hide Run, PledgesBalance, UsageBalances, WithinQuota, Linked, Unreferenced, Numbered, PurgeAll, PurgeCount;
    var r := Run(Initial(quotas), calls);
    RunSound(quotas, calls);
    var ids := Listed(r.artifactsByObject, claim.objectKey);
    PurgeCounts(r.artifacts, ids, now);
    PurgeEffect(r.artifacts, ids, now);
    assert Waiting(r.artifacts, ids) == Purgeable(r.artifacts, claim.objectKey);
  }
}
