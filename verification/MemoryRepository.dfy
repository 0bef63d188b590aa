/** The repository as it runs: maps, counters and order lists updated in place,
    and sweep claims kept in the indexed heap. */
module MemoryRepository {
  import opened Common
  import opened ArtifactLedger
  import opened ArtifactRepository
  import opened SweepQueue
  import Conservation = ArtifactConservation

  lemma AllQueued(sweeps: map<Name, Sweep>, index: map<Name, int>)
    requires index.Keys == sweeps.Keys && forall key | key in index :: index[key] != -1
    ensures Queued(sweeps, index) == sweeps
  {
  }

  lemma NoneQueued(queue: seq<Name>, sweeps: map<Name, Sweep>, index: map<Name, int>)
    requires Placed(queue, index) && queue == []
    ensures Queued(sweeps, index) == map[]
  {
  }

  lemma OrdersDistinct(r: Repo)
    requires Conservation.Sound(r)
    ensures Conservation.Numbered(r.sweeps, r.nextSweepToken, r.nextSweepOrder, r.nextLeaseToken)
  {
  }

  /** Orders are distinct, so the claim on top of the heap is the oldest one. */
  lemma OldestUnrolls(sweeps: map<Name, Sweep>, queued: map<Name, Sweep>, key: Name, count: nat)
    requires exists token, order, lease :: Conservation.Numbered(sweeps, token, order, lease)
    requires count != 0 && IsLeast(queued, key)
    requires exists index :: queued == Queued(sweeps, index)
    ensures Oldest(queued, count) == [key] + Oldest(queued - {key}, count - 1)
  {
    var token, order, lease :| Conservation.Numbered(sweeps, token, order, lease);
    assert Least(queued) == key;
  }

  lemma OldestEnds(sweeps: map<Name, Sweep>, count: nat)
    requires count == 0 || sweeps == map[]
    ensures Oldest(sweeps, count) == []
  {
  }

  /** Exactly the listed claims are off the heap. */
  ghost predicate Taken(index: map<Name, int>, keys: seq<Name>) {
    && (forall key | key in keys :: key in index)
    && (forall key | key in index :: index[key] == -1 <==> key in keys)
  }

  /** One claim went back on the heap and no other moved on or off it. */
  ghost predicate Replaced(before: map<Name, int>, after: map<Name, int>, key: Name) {
    && after.Keys == before.Keys && key in after && after[key] != -1
    && (forall other | other in after && other != key :: after[other] == -1 <==> before[other] == -1)
  }

  lemma TopTaken(index: map<Name, int>, keys: seq<Name>, i: nat)
    requires i < |keys| && Taken(index, keys[i..])
    ensures keys[i] in index && index[keys[i]] == -1
  {
    assert keys[i] == keys[i..][0];
  }

  lemma Returned(before: map<Name, int>, after: map<Name, int>, keys: seq<Name>, i: nat)
    requires i < |keys| && Distinct(keys) && Taken(before, keys[i..]) && Replaced(before, after, keys[i])
    ensures Taken(after, keys[i + 1..])
  {
    assert keys[i..] == [keys[i]] + keys[i + 1..];
  }

  lemma AllBack(index: map<Name, int>)
    requires Taken(index, [])
    ensures forall key | key in index :: index[key] != -1
  {
  }

  lemma OfferNone(sweeps: map<Name, Sweep>, order: nat, token: nat)
    ensures Offer(sweeps, [], order, token) == sweeps
  {
  }

  lemma ClaimsOffered(sweeps: map<Name, Sweep>, keys: seq<Name>, order: nat, token: nat, claims: seq<SweepClaim>)
    requires Distinct(keys) && forall key | key in keys :: key in sweeps
    requires |claims| == |keys|
    requires forall j | 0 <= j < |keys| :: claims[j] == sweeps[keys[j]].claim.(leaseToken := token)
    ensures ClaimsOn(Offer(sweeps, keys, order, token), keys) == claims
  {
    hide ClaimsOn, Offer, Distinct;
    Conservation.OfferEffect(sweeps, keys, order, token);
    ClaimsListed(Offer(sweeps, keys, order, token), keys, claims);
  }

  lemma OfferNext(sweeps: map<Name, Sweep>, keys: seq<Name>, i: nat, order: nat, token: nat)
    requires Distinct(keys) && i < |keys| && forall key | key in keys :: key in sweeps
    ensures Offer(sweeps, keys[..i], order, token).Keys == sweeps.Keys
    ensures Offer(sweeps, keys[..i], order, token)[keys[i]] == sweeps[keys[i]]
    ensures Offer(sweeps, keys[..i + 1], order, token)
         == Offer(sweeps, keys[..i], order, token)
              [keys[i] := Sweep(sweeps[keys[i]].claim.(leaseToken := token), order + i + 1)]
  {
    Conservation.OfferEffect(sweeps, keys[..i], order, token);
    assert keys[..i + 1][..i] == keys[..i];
  }

  lemma {:induction false} ClaimsListed(sweeps: map<Name, Sweep>, keys: seq<Name>, claims: seq<SweepClaim>)
    requires |claims| == |keys|
    requires forall i | 0 <= i < |keys| :: keys[i] in sweeps && sweeps[keys[i]].claim == claims[i]
    ensures ClaimsOn(sweeps, keys) == claims
  {
    if keys != [] {
      ClaimsListed(sweeps, keys[..|keys| - 1], claims[..|keys| - 1]);
    }
  }

  class Repository {
    /** Maps, counters and order lists. */
    var state: Repo
    /** The heap over the entries of the claim map. */
    const sweepQueue: SweepHeap

    /** The heap is in order, complete, and holds the entries of the map; the books are sound. */
    ghost predicate Valid()
      reads this, sweepQueue
    {
      sweepQueue.Valid() && sweepQueue.Full() && sweepQueue.sweeps == state.sweeps && Conservation.Sound(state)
    }

    constructor (tenantQuotas: map<Name, int>)
      ensures Valid() && state == Initial(tenantQuotas) && fresh(sweepQueue)
    {
      state := Initial(tenantQuotas);
      sweepQueue := new SweepHeap();
      new;
      Conservation.InitialSound(tenantQuotas);
    }

    method BeginCreate(request: Reservation) returns (reply: Reply)
      requires Valid()
      modifies this
      ensures Valid() && state == ArtifactRepository.BeginCreate(old(state), request)
      ensures reply == BeginReply(old(state), request)
      ensures var known := request.invocationId in old(state.invocations);
              var same := known && old(state.invocations)[request.invocationId].tenant == request.tenant
                          && old(state.invocations)[request.invocationId].requestDigest == request.requestDigest;
              && (reply == Refused(InvocationConflict) <==> known && !same)
              && (same <==> reply.Invoked? && reply.replayed)
              && (same ==> reply.invocation == old(state.invocations)[request.invocationId])
              && (reply.Invoked? && !reply.replayed ==>
                    state.invocations == old(state.invocations)[request.invocationId := reply.invocation])
              && (known || reply.Refused? ==> state == old(state))
    {
      hide Conservation.Sound;
      Conservation.BeginSound(state, request);
      if request.invocationId in state.invocations {
        var existing := state.invocations[request.invocationId];
        if existing.tenant != request.tenant || existing.requestDigest != request.requestDigest {
          return Refused(InvocationConflict);
        }
        return Invoked(existing, true);
      }
      if request.objectKey in state.sweeps {
        return Refused(GCInProgress);
      }
      if request.tenant !in state.quotas || state.quotas[request.tenant] < 0 || request.size < 0
         || request.size > state.quotas[request.tenant] - At(state.used, request.tenant)
            - At(state.reserved, request.tenant) {
        return Refused(QuotaExceeded);
      }
      if request.artifactId in state.artifacts || request.artifactId in state.artifactReservations {
        return Refused(RepositoryConflict);
      }
      var record := Reserved(request);
      state := state.(invocations := state.invocations[request.invocationId := record]);
      state := state.(invocationOrder := state.invocationOrder + [request.invocationId]);
      state := state.(artifactReservations := state.artifactReservations[request.artifactId := request.invocationId]);
      state := state.(inflightByObject := Bump(state.inflightByObject, request.objectKey, 1));
      state := state.(reserved := Bump(state.reserved, request.tenant, request.size));
      return Invoked(record, false);
    }

    method HeartbeatCreate(invocationId: Name, requestDigest: Name, generation: nat, now: int) returns (reply: Reply)
      requires Valid()
      modifies this
      ensures Valid()
              && state == ArtifactRepository.HeartbeatCreate(old(state), invocationId, requestDigest, generation, now)
      ensures reply == HeartbeatReply(old(state), invocationId, requestDigest, generation, now)
    {
      hide Conservation.Sound;
      Conservation.HeartbeatSound(state, invocationId, requestDigest, generation, now);
      if invocationId !in state.invocations {
        return Refused(RepositoryConflict);
      }
      var record := state.invocations[invocationId];
      if record.requestDigest != requestDigest {
        return Refused(InvocationConflict);
      }
      if record.state.Abandoned? {
        return Refused(InvocationAbandoned);
      }
      if record.generation != generation {
        return Refused(RepositoryConflict);
      }
      if record.state.Committed? {
        return Invoked(record, false);
      }
      if record.heartbeatAt < now {
        record := record.(heartbeatAt := now);
        state := state.(invocations := state.invocations[invocationId := record]);
      }
      return Invoked(record, false);
    }

    /** Moves an invocation's reservation to the committed artifact. */
    method Record(invocation: Invocation, artifact: Artifact)
      modifies this
      ensures state == Settle(old(state), invocation, artifact)
    {
      state := state.(artifacts := state.artifacts[artifact.artifactId := artifact]);
      state := state.(artifactOrder := state.artifactOrder + [artifact.artifactId]);
      state := state.(artifactsByObject :=
                      state.artifactsByObject[artifact.objectKey := Listed(state.artifactsByObject, artifact.objectKey)
                                              + [artifact.artifactId]]);
      state := state.(inflightByObject := Bump(state.inflightByObject, artifact.objectKey, -1));
      state := state.(activeByObject := Bump(state.activeByObject, artifact.objectKey, 1));
      state := state.(reserved := Bump(state.reserved, artifact.tenant, -artifact.size));
      state := state.(used := Bump(state.used, artifact.tenant, artifact.size));
      state := state.(invocations := state.invocations[invocation.invocationId := invocation.(state := Committed)]);
    }

    method CommitCreate(invocationId: Name, requestDigest: Name, generation: nat, artifact: Artifact)
      returns (reply: Reply)
      requires Valid()
      modifies this
      ensures Valid()
              && state == ArtifactRepository.CommitCreate(old(state), invocationId, requestDigest, generation, artifact)
      ensures reply == CommitReply(old(state), invocationId, requestDigest, generation, artifact)
    {
      Conservation.CommitSound(state, invocationId, requestDigest, generation, artifact);
      assert invocationId in state.invocations ==> state.invocations[invocationId].invocationId == invocationId by {
        assert Conservation.Linked(state.invocations, state.artifacts, state.artifactReservations);
      }
      hide Conservation.Sound, Settle;
      if invocationId !in state.invocations {
        return Refused(RepositoryConflict);
      }
      var invocation := state.invocations[invocationId];
      if invocation.requestDigest != requestDigest {
        return Refused(InvocationConflict);
      }
      if invocation.state.Abandoned? {
        return Refused(InvocationAbandoned);
      }
      if invocation.state.Committed? {
        if invocation.artifactId !in state.artifacts {
          return Refused(StorageCorruption);
        }
        return Stored(state.artifacts[invocation.artifactId], false);
      }
      if invocation.generation != generation || !Settles(invocation, artifact)
         || artifact.artifactId in state.artifacts {
        return Refused(RepositoryConflict);
      }
      Record(invocation, artifact);
      return Stored(artifact, true);
    }

    /** Marks one active artifact tombstoned and gives its bytes and reference back. */
    method Bury(id: Name, now: int) returns (record: Artifact)
      requires id in state.artifacts
      modifies this
      ensures state == Entomb(old(state), id, now) && state.sweeps == old(state.sweeps)
      ensures record == old(state.artifacts[id]).(state := Tombstoned, tombstonedAt := When(now))
    {
      record := state.artifacts[id].(state := Tombstoned, tombstonedAt := When(now));
      state := state.(artifacts := state.artifacts[id := record]);
      state := state.(used := Bump(state.used, record.tenant, -record.size));
      state := state.(activeByObject := Bump(state.activeByObject, record.objectKey, -1));
      if record.objectKey !in state.latestTombstone || state.latestTombstone[record.objectKey] < now {
        state := state.(latestTombstone := state.latestTombstone[record.objectKey := now]);
      }
    }

    method TombstoneArtifact(id: Name, tenant: Name, now: int) returns (reply: Reply)
      requires Valid()
      modifies this
      ensures Valid() && state == ArtifactRepository.TombstoneArtifact(old(state), id, tenant, now)
      ensures reply == TombstoneReply(old(state), id, tenant, now)
    {
      hide Conservation.Sound, Entomb;
      if id !in state.artifacts {
        return Refused(ArtifactNotFound);
      }
      if state.artifacts[id].tenant != tenant {
        return Refused(AccessDenied);
      }
      if !state.artifacts[id].state.Active? {
        return Stored(state.artifacts[id], false);
      }
      Conservation.EntombSound(state, id, now);
      var record := Bury(id, now);
      return Stored(record, true);
    }

    /** Tombstones every listed active artifact whose retention has ended. */
    method Expire(ids: seq<Name>, now: int) returns (count: nat)
      modifies this
      ensures state == EntombAll(old(state), ids, now) && count == EntombCount(old(state), ids, now)
      ensures state.sweeps == old(state.sweeps)
    {
      hide Entomb;
      count := 0;
      for i := 0 to |ids|
        invariant state == EntombAll(old(state), ids[..i], now) && state.sweeps == old(state.sweeps)
        invariant count == EntombCount(old(state), ids[..i], now)
      {
        assert ids[..i + 1][..i] == ids[..i];
        var id := ids[i];
        if id in state.artifacts && state.artifacts[id].state.Active? && state.artifacts[id].retainUntil <= now {
          var _ := Bury(id, now);
          count := count + 1;
        }
      }
      assert ids[..|ids|] == ids;
    }

    method TombstoneExpiredPage(lease: Lease, now: int, after: Cursor, limit: int) returns (reply: Reply)
      requires Valid()
      modifies this
      ensures Valid() && state == ArtifactRepository.TombstoneExpiredPage(old(state), lease, now, after, limit)
      ensures reply == ExpiredReply(old(state), lease, now, after, limit)
    {
      hide Conservation.Sound, EntombAll, EntombCount;
      ghost var before := state;
      Conservation.CallSound(before, ExpirePage(lease, now, after, limit));
      if limit <= 0 || limit > MAXIMUM_GC_BATCH {
        return Refused(InvalidRequest);
      }
      if !state.leaseHeld || state.lease.token != lease.token {
        return Refused(RepositoryConflict);
      }
      var page := PageBounds(after, |state.artifactOrder|, limit);
      if page.Unreadable? {
        return Refused(RepositoryConflict);
      }
      var ids := state.artifactOrder[page.start..page.end];
      var count := Expire(ids, now);
      return Scanned(count, page.next, page.done);
    }

    /** Ends one reservation: its bytes and reference go back, and its generation moves on. */
    method Drop(id: Name)
      requires id in state.invocations
      modifies this
      ensures state == Abandon(old(state), id) && state.sweeps == old(state.sweeps)
    {
      var record := state.invocations[id];
      state := state.(invocations :=
                      state.invocations[id := record.(state := Abandoned, generation := record.generation + 1)]);
      state := state.(reserved := Bump(state.reserved, record.tenant, -record.size));
      state := state.(inflightByObject := Bump(state.inflightByObject, record.objectKey, -1));
    }

    /** Abandons every listed reservation whose heartbeat has stopped. */
    method Lapse(ids: seq<Name>, heartbeatBefore: int) returns (count: nat)
      modifies this
      ensures state == AbandonAll(old(state), ids, heartbeatBefore) && state.sweeps == old(state.sweeps)
      ensures count == AbandonCount(old(state), ids, heartbeatBefore)
    {
      hide Abandon;
      count := 0;
      for i := 0 to |ids|
        invariant state == AbandonAll(old(state), ids[..i], heartbeatBefore) && state.sweeps == old(state.sweeps)
        invariant count == AbandonCount(old(state), ids[..i], heartbeatBefore)
      {
        assert ids[..i + 1][..i] == ids[..i];
        var id := ids[i];
        if id in state.invocations && state.invocations[id].state.Inflight?
           && state.invocations[id].heartbeatAt <= heartbeatBefore {
          Drop(id);
          count := count + 1;
        }
      }
      assert ids[..|ids|] == ids;
    }

    method AbandonInflightPage(lease: Lease, heartbeatBefore: int, after: Cursor, limit: int) returns (reply: Reply)
      requires Valid()
      modifies this
      ensures Valid()
              && state == ArtifactRepository.AbandonInflightPage(old(state), lease, heartbeatBefore, after, limit)
      ensures reply == AbandonReply(old(state), lease, heartbeatBefore, after, limit)
    {
      hide Conservation.Sound, AbandonAll, AbandonCount;
      ghost var before := state;
      Conservation.CallSound(before, AbandonPage(lease, heartbeatBefore, after, limit));
      if limit <= 0 || limit > MAXIMUM_GC_BATCH {
        return Refused(InvalidRequest);
      }
      if !state.leaseHeld || state.lease.token != lease.token {
        return Refused(RepositoryConflict);
      }
      var page := PageBounds(after, |state.invocationOrder|, limit);
      if page.Unreadable? {
        return Refused(RepositoryConflict);
      }
      var ids := state.invocationOrder[page.start..page.end];
      var count := Lapse(ids, heartbeatBefore);
      return Scanned(count, page.next, page.done);
    }

    method AcquireGC(now: int, duration: int) returns (reply: Reply)
      requires Valid()
      modifies this
      ensures Valid() && state == ArtifactRepository.AcquireGC(old(state), now, duration)
      ensures reply == AcquireReply(old(state), now, duration)
    {
      hide Conservation.Sound;
      Conservation.AcquireSound(state, now, duration);
      if duration <= 0 {
        return Refused(InvalidRequest);
      }
      if state.leaseHeld && now < state.lease.expiresAt {
        return Busy;
      }
      state := state.(nextLeaseToken := state.nextLeaseToken + 1);
      state := state.(lease := Lease(state.nextLeaseToken, now + duration, state.checkpoint));
      state := state.(leaseHeld := true);
      return Granted(state.lease);
    }

    method RenewGC(lease: Lease, now: int, duration: int) returns (reply: Reply)
      requires Valid()
      modifies this
      ensures Valid() && state == ArtifactRepository.RenewGC(old(state), lease, now, duration)
      ensures reply == RenewReply(old(state), lease, now, duration)
    {
      hide Conservation.Sound;
      Conservation.CallSound(state, Renew(lease, now, duration));
      if duration <= 0 {
        return Refused(InvalidRequest);
      }
      if !state.leaseHeld || state.lease.token != lease.token || state.lease.expiresAt <= now {
        return Refused(RepositoryConflict);
      }
      state := state.(lease := state.lease.(expiresAt := now + duration));
      return Granted(state.lease);
    }

    method ReleaseGC(lease: Lease, next: Checkpoint) returns (reply: Reply)
      requires Valid()
      modifies this
      ensures Valid() && state == ArtifactRepository.ReleaseGC(old(state), lease, next)
      ensures reply == ReleaseReply(old(state), lease)
    {
      hide Conservation.Sound;
      Conservation.CallSound(state, Release(lease, next));
      if !state.leaseHeld || state.lease.token != lease.token {
        return Refused(RepositoryConflict);
      }
      state := state.(checkpoint := next);
      state := state.(leaseHeld := false);
      state := state.(lease := NO_LEASE);
      return Done(0);
    }

    /** Takes up to `limit` claims off the heap, least recently offered first. */
    method TakeOldest(limit: nat) returns (keys: seq<Name>)
      requires sweepQueue.Valid() && sweepQueue.Full()
      requires exists token, order, lease :: Conservation.Numbered(sweepQueue.sweeps, token, order, lease)
      modifies sweepQueue
      ensures sweepQueue.Valid() && sweepQueue.sweeps == old(sweepQueue.sweeps)
      ensures keys == Oldest(sweepQueue.sweeps, limit)
      ensures Taken(sweepQueue.index, keys)
    {
      hide Known, Placed, Ordered, Queued, IsLeast, Oldest, Conservation.Numbered;
      ghost var sweeps := sweepQueue.sweeps;
      var count := if limit < |sweepQueue.queue| then limit else |sweepQueue.queue|;
      keys := [];
      AllQueued(sweeps, sweepQueue.index);
      for i := 0 to count
        invariant sweepQueue.Valid() && sweepQueue.sweeps == sweeps
        invariant |sweepQueue.queue| == |old(sweepQueue.queue)| - i && |keys| == i
        invariant Taken(sweepQueue.index, keys)
        invariant keys + Oldest(Queued(sweeps, sweepQueue.index), limit - i) == Oldest(sweeps, limit)
      {
        ghost var queued := Queued(sweeps, sweepQueue.index);
        var key := sweepQueue.Pop();
        OldestUnrolls(sweeps, queued, key, limit - i);
        keys := keys + [key];
      }
      if count < limit {
        NoneQueued(sweepQueue.queue, sweeps, sweepQueue.index);
      }
      OldestEnds(Queued(sweeps, sweepQueue.index), limit - count);
    }

    /** Hands one taken claim to the lease and pushes it back behind every other. */
    method Reoffer(key: Name, token: nat) returns (claim: SweepClaim)
      requires sweepQueue.Valid() && key in sweepQueue.sweeps && sweepQueue.index[key] == -1
      modifies this, sweepQueue
      ensures state == old(state).(nextSweepOrder := old(state.nextSweepOrder) + 1)
      ensures claim == old(sweepQueue.sweeps[key].claim).(leaseToken := token)
      ensures sweepQueue.Valid()
              && sweepQueue.sweeps == old(sweepQueue.sweeps)[key := Sweep(claim, state.nextSweepOrder)]
      ensures Replaced(old(sweepQueue.index), sweepQueue.index, key)
    {
      hide Known, Placed, Ordered;
      state := state.(nextSweepOrder := state.nextSweepOrder + 1);
      claim := sweepQueue.sweeps[key].claim.(leaseToken := token);
      sweepQueue.Requeue(key, Sweep(claim, state.nextSweepOrder));
    }

    method GiveBack(keys: seq<Name>, token: nat) returns (claims: seq<SweepClaim>)
      requires sweepQueue.Valid() && sweepQueue.sweeps == state.sweeps && Distinct(keys)
      requires forall key | key in keys :: key in state.sweeps
      requires Taken(sweepQueue.index, keys)
      modifies this, sweepQueue
      ensures sweepQueue.Valid() && sweepQueue.Full()
      ensures sweepQueue.sweeps == Offer(old(state.sweeps), keys, old(state.nextSweepOrder), token)
      ensures state == old(state).(sweeps := sweepQueue.sweeps, nextSweepOrder := old(state.nextSweepOrder) + |keys|)
      ensures claims == ClaimsOn(state.sweeps, keys)
    {
      hide Known, Placed, Ordered, ClaimsOn, Offer, Taken, Replaced, Distinct;
      ghost var sweeps, order := state.sweeps, state.nextSweepOrder;
      claims := [];
      OfferNone(sweeps, order, token);
      for i := 0 to |keys|
        invariant sweepQueue.Valid() && sweepQueue.sweeps == Offer(sweeps, keys[..i], order, token)
        invariant state == old(state).(nextSweepOrder := order + i)
        invariant Taken(sweepQueue.index, keys[i..])
        invariant |claims| == i && forall j | 0 <= j < i :: claims[j] == sweeps[keys[j]].claim.(leaseToken := token)
      {
        OfferNext(sweeps, keys, i, order, token);
        TopTaken(sweepQueue.index, keys, i);
        ghost var index := sweepQueue.index;
        var claim := Reoffer(keys[i], token);
        claims := claims + [claim];
        Returned(index, sweepQueue.index, keys, i);
      }
      assert keys[..|keys|] == keys && keys[|keys|..] == [];
      state := state.(sweeps := sweepQueue.sweeps);
      AllBack(sweepQueue.index);
      ClaimsOffered(sweeps, keys, order, token, claims);
    }

    method PendingSweepsPage(lease: Lease, limit: int) returns (reply: Reply)
      requires Valid()
      modifies this, sweepQueue
      ensures Valid() && state == ArtifactRepository.PendingSweepsPage(old(state), lease, limit)
      ensures reply == PendingReply(old(state), lease, limit)
    {
      hide Conservation.Sound, Conservation.Numbered, Known, Placed, Ordered, Oldest, Offer, ClaimsOn;
      Conservation.PendingSound(state, lease, limit);
      OrdersDistinct(state);
      if limit <= 0 || limit > MAXIMUM_GC_BATCH {
        return Refused(InvalidRequest);
      }
      if !state.leaseHeld || state.lease.token != lease.token {
        return Refused(RepositoryConflict);
      }
      Conservation.OldestListsClaims(state.sweeps, limit);
      var keys := TakeOldest(limit);
      var claims := GiveBack(keys, lease.token);
      return Offered(claims);
    }

    method ClaimSweepLeased(lease: Lease, key: Name, version: nat, tombstonedBefore: int) returns (reply: Reply)
      requires Valid()
      modifies this, sweepQueue
      ensures Valid() && state == ArtifactRepository.ClaimSweepLeased(old(state), lease, key, version, tombstonedBefore)
      ensures reply == ClaimReply(old(state), lease, key, version, tombstonedBefore)
    {
      hide Conservation.Sound, Known, Placed, Ordered;
      Conservation.ClaimSound(state, lease, key, version, tombstonedBefore);
      if !state.leaseHeld || state.lease.token != lease.token || key == NO_NAME || version == 0 {
        return Refused(RepositoryConflict);
      }
      if key in state.sweeps {
        return Skipped;
      }
      if At(state.inflightByObject, key) != 0 || At(state.activeByObject, key) != 0 {
        return Skipped;
      }
      if key in state.latestTombstone && tombstonedBefore < state.latestTombstone[key] {
        return Skipped;
      }
      state := state.(nextSweepToken := state.nextSweepToken + 1);
      var claim := SweepClaim(key, version, state.nextSweepToken, lease.token);
      state := state.(nextSweepOrder := state.nextSweepOrder + 1);
      sweepQueue.Insert(key, Sweep(claim, state.nextSweepOrder));
      state := state.(sweeps := state.sweeps[key := Sweep(claim, state.nextSweepOrder)]);
      return Claimed(claim);
    }

    method RetireSweepLeased(lease: Lease, claim: SweepClaim) returns (reply: Reply)
      requires Valid()
      modifies this, sweepQueue
      ensures Valid() && state == ArtifactRepository.RetireSweepLeased(old(state), lease, claim)
      ensures reply == RetireReply(old(state), lease, claim)
    {
      hide Conservation.Sound, Known, Placed, Ordered;
      Conservation.UnsweepSound(state, claim.objectKey);
      if !state.leaseHeld || state.lease.token != lease.token || claim.leaseToken != lease.token {
        return Refused(RepositoryConflict);
      }
      if claim.objectKey !in state.sweeps || state.sweeps[claim.objectKey].claim != claim {
        return Refused(RepositoryConflict);
      }
      sweepQueue.Remove(claim.objectKey);
      state := state.(sweeps := state.sweeps - {claim.objectKey});
      return Done(0);
    }

    method FinishSweepLeased(lease: Lease, claim: SweepClaim, deleted: bool, now: int) returns (reply: Reply)
      requires Valid()
      modifies this, sweepQueue
      ensures Valid() && state == ArtifactRepository.FinishSweepLeased(old(state), lease, claim, deleted, now)
      ensures reply == FinishReply(old(state), lease, claim, deleted, now)
    {
      hide Conservation.Sound, Known, Placed, Ordered;
      Conservation.FinishSound(state, lease, claim, deleted, now);
      if !state.leaseHeld || state.lease.token != lease.token || claim.leaseToken != lease.token {
        return Refused(RepositoryConflict);
      }
      if claim.objectKey !in state.sweeps || state.sweeps[claim.objectKey].claim != claim {
        return Refused(RepositoryConflict);
      }
      if !deleted {
        return Done(0);
      }
      sweepQueue.Remove(claim.objectKey);
      state := state.(sweeps := state.sweeps - {claim.objectKey});
      var count := Purge(Listed(state.artifactsByObject, claim.objectKey), now);
      state := state.(latestTombstone := state.latestTombstone - {claim.objectKey});
      return Done(count);
    }

    /** Marks every listed tombstoned artifact purged. */
    method Purge(ids: seq<Name>, now: int) returns (count: nat)
      modifies this
      ensures state == old(state).(artifacts := PurgeAll(old(state.artifacts), ids, now))
      ensures count == PurgeCount(old(state.artifacts), ids, now)
    {
      count := 0;
      for i := 0 to |ids|
        invariant state == old(state).(artifacts := PurgeAll(old(state.artifacts), ids[..i], now))
        invariant count == PurgeCount(old(state.artifacts), ids[..i], now)
      {
        assert ids[..i + 1][..i] == ids[..i];
        var id := ids[i];
        if id in state.artifacts && state.artifacts[id].state.Tombstoned? {
          state := state.(artifacts :=
                          state.artifacts[id := state.artifacts[id].(state := Purged, purgedAt := When(now))]);
          count := count + 1;
        }
      }
      assert ids[..|ids|] == ids;
    }
  }
}
