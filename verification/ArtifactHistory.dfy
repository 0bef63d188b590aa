/** Where the repository's records come from: every invocation on record is the work of exactly one
    reservation in the run, and every artifact of exactly one commit; replayed answers are theirs. */
module ArtifactHistory {
  import opened Common
  import opened ArtifactRepository
  import opened ArtifactConservation
  import Scans = ArtifactScans

  /** What a reservation fixes for good. */
  function FixedOf(invocation: Invocation): Invocation {
    invocation.(heartbeatAt := 0, generation := 0, state := Inflight)
  }

  /** What a commit fixes for good. */
  function DepositOf(artifact: Artifact): Artifact {
    artifact.(state := Active, tombstonedAt := Never, purgedAt := Never)
  }

  /** Inflight and committed invocations are at their first generation, abandoned ones at their second. */
  predicate Aging(invocation: Invocation) {
    invocation.generation == if invocation.state.Abandoned? then 2 else 1
  }

  /** Nothing disappears, nothing fixed changes, and a new record is `added`. */
  ghost predicate Grows(before: map<Name, Invocation>, after: map<Name, Invocation>, added: Option<Invocation>) {
    && (forall id | id in before :: id in after && FixedOf(after[id]) == FixedOf(before[id]))
    && (forall id | id in after && id !in before :: added == Some(after[id]))
    && (forall id | id in after :: Aging(after[id]))
  }

  ghost predicate AllAging(invocations: map<Name, Invocation>) {
    forall id | id in invocations :: Aging(invocations[id])
  }

  function AddedBy(r: Repo, call: Call): Option<Invocation> {
    if call.Begin? && BeginReply(r, call.request) == Invoked(Reserved(call.request), false)
    then Some(Reserved(call.request)) else None
  }

  lemma {:induction false} AbandonAllGrows(r: Repo, ids: seq<Name>, before: int)
    requires AllAging(r.invocations)
    ensures Grows(r.invocations, AbandonAll(r, ids, before).invocations, None)
  {
    if ids != [] {
      AbandonAllGrows(r, ids[..|ids| - 1], before);
    }
  }

  lemma {:induction false} EntombAllSpares(r: Repo, ids: seq<Name>, now: int)
    ensures EntombAll(r, ids, now).invocations == r.invocations
  {
    if ids != [] {
      EntombAllSpares(r, ids[..|ids| - 1], now);
    }
  }

  /** The calls that create, renew, commit or abandon. */
  predicate Moves(call: Call) {
    call.Begin? || call.Heartbeat? || call.Commit? || call.AbandonPage?
  }

  lemma OthersSpare(r: Repo, call: Call)
    requires !Moves(call)
    ensures Apply(r, call).invocations == r.invocations
  {
    hide EntombAll, PurgeAll, Oldest, Offer;
    if call.ExpirePage? {
      var page := ScanPage(r, call.lease, call.after, |r.artifactOrder|, call.limit);
      if page.Page? { EntombAllSpares(r, r.artifactOrder[page.start..page.end], call.now); }
    }
  }

  /** One record is replaced by one with the same fixed part. */
  lemma UpdateGrows(invocations: map<Name, Invocation>, id: Name, next: Invocation)
    requires AllAging(invocations) && id in invocations && FixedOf(next) == FixedOf(invocations[id]) && Aging(next)
    ensures Grows(invocations, invocations[id := next], None)
  {
    hide FixedOf;
  }

  lemma SameGrows(invocations: map<Name, Invocation>)
    requires AllAging(invocations)
    ensures Grows(invocations, invocations, None)
  {
    hide FixedOf;
  }

  lemma BeginGrows(r: Repo, request: Reservation)
    requires AllAging(r.invocations)
    ensures Grows(r.invocations, BeginCreate(r, request).invocations, AddedBy(r, Begin(request)))
  {
    hide Affordable;
  }

  lemma HeartbeatGrows(r: Repo, id: Name, digest: Name, generation: nat, now: int)
    requires AllAging(r.invocations)
    ensures Grows(r.invocations, HeartbeatCreate(r, id, digest, generation, now).invocations, None)
  {
    hide Grows, AllAging;
    SameGrows(r.invocations);
    if Live(r, id, digest, generation) {
      AgingAt(r.invocations, id);
      UpdateGrows(r.invocations, id, r.invocations[id].(heartbeatAt := now));
    }
  }

  lemma AgingAt(invocations: map<Name, Invocation>, id: Name)
    requires AllAging(invocations) && id in invocations
    ensures Aging(invocations[id])
  {
  }

  lemma CommitGrows(r: Repo, id: Name, digest: Name, generation: nat, artifact: Artifact)
    requires AllAging(r.invocations) && (id in r.invocations ==> r.invocations[id].invocationId == id)
    ensures Grows(r.invocations, CommitCreate(r, id, digest, generation, artifact).invocations, None)
  {
    hide Grows, AllAging, Settles;
    SameGrows(r.invocations);
    if Live(r, id, digest, generation) {
      AgingAt(r.invocations, id);
      UpdateGrows(r.invocations, id, r.invocations[id].(state := Committed));
    }
  }

  lemma AbandonGrows(r: Repo, lease: Lease, before: int, after: Cursor, limit: int)
    requires AllAging(r.invocations)
    ensures Grows(r.invocations, AbandonInflightPage(r, lease, before, after, limit).invocations, None)
  {
    hide Grows, AllAging, AbandonAll;
    SameGrows(r.invocations);
    var page := ScanPage(r, lease, after, |r.invocationOrder|, limit);
    if page.Page? {
      AbandonAllGrows(r, r.invocationOrder[page.start..page.end], before);
    }
  }

  lemma CallGrows(r: Repo, call: Call)
    requires AllAging(r.invocations) && Linked(r.invocations, r.artifacts, r.artifactReservations)
    ensures Grows(r.invocations, Apply(r, call).invocations, AddedBy(r, call))
  {
    hide Grows, BeginCreate, BeginReply, HeartbeatCreate, CommitCreate, AbandonInflightPage;
    SameGrows(r.invocations);
    match call
    case Begin(request) => BeginGrows(r, request);
    case Heartbeat(id, digest, generation, now) => HeartbeatGrows(r, id, digest, generation, now);
    case Commit(id, digest, generation, artifact) => CommitGrows(r, id, digest, generation, artifact);
    case AbandonPage(lease, before, after, limit) => AbandonGrows(r, lease, before, after, limit);
    case _ => OthersSpare(r, call);
  }

  lemma {:induction false} RunAging(quotas: map<Name, int>, calls: seq<Call>)
    ensures AllAging(Run(Initial(quotas), calls).invocations)
  {
    hide Apply;
    if calls != [] {
      var front := calls[..|calls| - 1];
      RunAging(quotas, front);
      RunSound(quotas, front);
      CallGrows(Run(Initial(quotas), front), calls[|calls| - 1]);
    }
  }

  // ----- origins -----

  /** Call `i` of the run was a reservation, answered as new, that fixed this much. */
  ghost predicate Began(quotas: map<Name, int>, calls: seq<Call>, i: nat, fixed: Invocation) {
    && i < |calls| && calls[i].Begin?
    && BeginReply(Run(Initial(quotas), calls[..i]), calls[i].request) == Invoked(Reserved(calls[i].request), false)
    && FixedOf(Reserved(calls[i].request)) == fixed
  }

  lemma BeganStays(quotas: map<Name, int>, calls: seq<Call>, more: seq<Call>, i: nat, fixed: Invocation)
    requires Began(quotas, calls, i, fixed)
    ensures Began(quotas, calls + more, i, fixed)
  {
    hide Run, BeginReply;
    assert (calls + more)[..i] == calls[..i] && (calls + more)[i] == calls[i];
  }

  /** Every invocation on record was begun by a call of the run. */
  lemma {:induction false} InvocationOrigin(quotas: map<Name, int>, calls: seq<Call>, id: Name)
    requires id in Run(Initial(quotas), calls).invocations
    ensures exists i: nat :: Began(quotas, calls, i, FixedOf(Run(Initial(quotas), calls).invocations[id]))
  {
    hide Apply, Began, BeginReply, FixedOf;
    if calls != [] {
      var front, last := calls[..|calls| - 1], calls[|calls| - 1];
      var r := Run(Initial(quotas), front);
      RunAging(quotas, front);
      RunSound(quotas, front);
      CallGrows(r, last);
      assert calls == front + [last];
      if id in r.invocations {
        InvocationOrigin(quotas, front, id);
        var i: nat :| Began(quotas, front, i, FixedOf(r.invocations[id]));
        BeganStays(quotas, front, [last], i, FixedOf(r.invocations[id]));
      } else {
        BeganLast(quotas, calls);
      }
    }
  }

  lemma BeganLast(quotas: map<Name, int>, calls: seq<Call>)
    requires calls != [] && AddedBy(Run(Initial(quotas), calls[..|calls| - 1]), calls[|calls| - 1]).Some?
    ensures Began(quotas, calls, |calls| - 1, FixedOf(Reserved(calls[|calls| - 1].request)))
  {
    hide Run, BeginReply;
  }

  lemma {:induction false} RecordsStay(quotas: map<Name, int>, calls: seq<Call>, i: nat, id: Name)
    requires i <= |calls| && id in Run(Initial(quotas), calls[..i]).invocations
    ensures id in Run(Initial(quotas), calls).invocations
    decreases |calls| - i
  {
    hide Apply;
    if i == |calls| {
      assert calls[..i] == calls;
    } else {
      var r := Run(Initial(quotas), calls[..i]);
      assert calls[..i + 1][..i] == calls[..i];
      RunAging(quotas, calls[..i]);
      RunSound(quotas, calls[..i]);
      CallGrows(r, calls[i]);
      RecordsStay(quotas, calls, i + 1, id);
    }
  }

  /** An identifier is begun once: of two reservations answered as new, the identifiers differ. */
  lemma BegunOnce(quotas: map<Name, int>, calls: seq<Call>, i: nat, j: nat, left: Invocation, right: Invocation)
    requires i < j && Began(quotas, calls, i, left) && Began(quotas, calls, j, right)
    ensures left.invocationId != right.invocationId
  {
    hide Run, Apply;
    var upTo := calls[..j];
    var r := Run(Initial(quotas), calls[..i]);
    assert upTo[..i] == calls[..i] && upTo[..i + 1][..i] == calls[..i] && upTo[..i + 1][i] == calls[i];
    RunStep(quotas, upTo[..i + 1]);
    BeganIsRecorded(r, calls[i].request);
    RecordsStay(quotas, upTo, i + 1, left.invocationId);
  }

  lemma RunStep(quotas: map<Name, int>, calls: seq<Call>)
    requires calls != []
    ensures Run(Initial(quotas), calls) == Apply(Run(Initial(quotas), calls[..|calls| - 1]), calls[|calls| - 1])
  {
    hide Apply;
  }

  lemma BeganIsRecorded(r: Repo, request: Reservation)
    requires BeginReply(r, request) == Invoked(Reserved(request), false)
    ensures request.invocationId in Apply(r, Begin(request)).invocations
  {
  }

  /** A replayed reservation answers with what one earlier reservation of the run, of the same tenant and with the
      same digest, was given: the same artifact, object, size and details. */
  lemma ReplayedFromTheFirst(quotas: map<Name, int>, calls: seq<Call>, request: Reservation)
    requires var reply := BeginReply(Run(Initial(quotas), calls), request); reply.Invoked? && reply.replayed
    ensures var reply := BeginReply(Run(Initial(quotas), calls), request);
            exists i: nat :: && Began(quotas, calls, i, FixedOf(reply.invocation))
                             && calls[i].request.invocationId == request.invocationId
                             && calls[i].request.tenant == request.tenant
                             && calls[i].request.requestDigest == request.requestDigest
  {
    hide Run, FixedOf, Affordable;
    var r := Run(Initial(quotas), calls);
    InvocationOrigin(quotas, calls, request.invocationId);
    IdentifierOf(quotas, calls, request.invocationId);
    var i: nat :| Began(quotas, calls, i, FixedOf(r.invocations[request.invocationId]));
    FixedFields(Reserved(calls[i].request), r.invocations[request.invocationId]);
  }

  lemma IdentifierOf(quotas: map<Name, int>, calls: seq<Call>, id: Name)
    requires id in Run(Initial(quotas), calls).invocations
    ensures Run(Initial(quotas), calls).invocations[id].invocationId == id
  {
    hide Run, PledgesBalance, UsageBalances, WithinQuota, Indexed, Unreferenced, Numbered;
    RunSound(quotas, calls);
  }

  lemma FixedFields(left: Invocation, right: Invocation)
    requires FixedOf(left) == FixedOf(right)
    ensures left.invocationId == right.invocationId && left.tenant == right.tenant
            && left.requestDigest == right.requestDigest && left.artifactId == right.artifactId
  {
    var l, r := FixedOf(left), FixedOf(right);
    assert l.invocationId == left.invocationId && r.invocationId == right.invocationId;
    assert l.tenant == left.tenant && r.tenant == right.tenant;
    assert l.requestDigest == left.requestDigest && r.requestDigest == right.requestDigest;
    assert l.artifactId == left.artifactId && r.artifactId == right.artifactId;
  }

  // ----- artifacts -----

  /** Nothing disappears, nothing fixed changes, and a new artifact is the one stored. */
  ghost predicate Deposits(before: map<Name, Artifact>, after: map<Name, Artifact>, stored: Option<Artifact>) {
    && (forall id | id in before :: id in after && DepositOf(after[id]) == DepositOf(before[id]))
    && (forall id | id in after && id !in before :: stored == Some(after[id]))
  }

  function StoredBy(r: Repo, call: Call): Option<Artifact> {
    if call.Commit? && CommitReply(r, call.invocationId, call.requestDigest, call.generation, call.artifact)
                       == Stored(call.artifact, true)
    then Some(call.artifact) else None
  }

  lemma EntombDeposits(artifacts: map<Name, Artifact>, id: Name, now: int)
    requires id in artifacts
    ensures Deposits(artifacts, artifacts[id := artifacts[id].(state := Tombstoned, tombstonedAt := When(now))], None)
  {
  }

  lemma DepositsTwice(first: map<Name, Artifact>, second: map<Name, Artifact>, third: map<Name, Artifact>)
    requires Deposits(first, second, None) && Deposits(second, third, None)
    ensures Deposits(first, third, None)
  {
    hide DepositOf;
  }

  lemma SameDeposits(artifacts: map<Name, Artifact>)
    ensures Deposits(artifacts, artifacts, None)
  {
    hide DepositOf;
  }

  lemma {:induction false} EntombAllDeposits(r: Repo, ids: seq<Name>, now: int)
    ensures Deposits(r.artifacts, EntombAll(r, ids, now).artifacts, None)
  {
    hide Deposits, Bump, RecordTombstone;
    SameDeposits(r.artifacts);
    if ids != [] {
      var before, id := EntombAll(r, ids[..|ids| - 1], now), ids[|ids| - 1];
      EntombAllDeposits(r, ids[..|ids| - 1], now);
      if Expired(before, id, now) {
        EntombDeposits(before.artifacts, id, now);
        DepositsTwice(r.artifacts, before.artifacts, Entomb(before, id, now).artifacts);
      }
    }
  }

  lemma {:induction false} PurgeAllDeposits(artifacts: map<Name, Artifact>, ids: seq<Name>, now: int)
    ensures Deposits(artifacts, PurgeAll(artifacts, ids, now), None)
  {
    if ids != [] {
      PurgeAllDeposits(artifacts, ids[..|ids| - 1], now);
    }
  }

  lemma TombstoneDeposits(r: Repo, id: Name, tenant: Name, now: int)
    ensures Deposits(r.artifacts, TombstoneArtifact(r, id, tenant, now).artifacts, None)
  {
    hide Deposits, Bump, RecordTombstone;
    SameDeposits(r.artifacts);
    if id in r.artifacts {
      EntombDeposits(r.artifacts, id, now);
    }
  }

  lemma ExpireDeposits(r: Repo, lease: Lease, now: int, after: Cursor, limit: int)
    ensures Deposits(r.artifacts, TombstoneExpiredPage(r, lease, now, after, limit).artifacts, None)
  {
    hide Deposits, EntombAll;
    SameDeposits(r.artifacts);
    var page := ScanPage(r, lease, after, |r.artifactOrder|, limit);
    if page.Page? {
      EntombAllDeposits(r, r.artifactOrder[page.start..page.end], now);
    }
  }

  lemma CommitDeposits(r: Repo, id: Name, digest: Name, generation: nat, artifact: Artifact)
    ensures Deposits(r.artifacts, CommitCreate(r, id, digest, generation, artifact).artifacts,
                     StoredBy(r, Commit(id, digest, generation, artifact)))
  {
    hide Settles, Bump, Listed;
  }

  lemma FinishDeposits(r: Repo, lease: Lease, claim: SweepClaim, deleted: bool, now: int)
    ensures Deposits(r.artifacts, FinishSweepLeased(r, lease, claim, deleted, now).artifacts, None)
  {
    hide Deposits, PurgeAll;
    SameDeposits(r.artifacts);
    PurgeAllDeposits(r.artifacts, Listed(r.artifactsByObject, claim.objectKey), now);
  }

  lemma AbandonDeposits(r: Repo, lease: Lease, before: int, after: Cursor, limit: int)
    ensures AbandonInflightPage(r, lease, before, after, limit).artifacts == r.artifacts
  {
    hide AbandonAll;
    var page := ScanPage(r, lease, after, |r.invocationOrder|, limit);
    if page.Page? {
      Scans.AbandonAllSame(r, r.invocationOrder[page.start..page.end], before);
    }
  }

  lemma CallDeposits(r: Repo, call: Call)
    ensures Deposits(r.artifacts, Apply(r, call).artifacts, StoredBy(r, call))
  {
    hide Deposits, CommitReply, CommitCreate, TombstoneArtifact, TombstoneExpiredPage, AbandonInflightPage,
         FinishSweepLeased;
    SameDeposits(r.artifacts);
    match call
    case Commit(id, digest, generation, artifact) => CommitDeposits(r, id, digest, generation, artifact);
    case Tombstone(id, tenant, now) => TombstoneDeposits(r, id, tenant, now);
    case ExpirePage(lease, now, after, limit) => ExpireDeposits(r, lease, now, after, limit);
    case AbandonPage(lease, before, after, limit) => AbandonDeposits(r, lease, before, after, limit);
    case Finish(lease, claim, deleted, now) => FinishDeposits(r, lease, claim, deleted, now);
    case _ => OthersDeposit(r, call);
  }

  lemma OthersDeposit(r: Repo, call: Call)
    requires Scans.Bystander(call)
    ensures Apply(r, call).artifacts == r.artifacts
  {
    hide Apply;
    Scans.BystanderSame(r, call);
  }

  /** Call `i` of the run was a commit, answered as new, of an artifact with this fixed part. */
  ghost predicate Deposited(quotas: map<Name, int>, calls: seq<Call>, i: nat, fixed: Artifact) {
    i < |calls| && var stored := StoredBy(Run(Initial(quotas), calls[..i]), calls[i]);
                   stored.Some? && DepositOf(stored.value) == fixed
  }

  lemma DepositedStays(quotas: map<Name, int>, calls: seq<Call>, more: seq<Call>, i: nat, fixed: Artifact)
    requires Deposited(quotas, calls, i, fixed)
    ensures Deposited(quotas, calls + more, i, fixed)
  {
    hide Run, StoredBy;
    assert (calls + more)[..i] == calls[..i] && (calls + more)[i] == calls[i];
  }

  /** Every artifact on record was stored by a commit of the run, and is still that artifact but for its state. */
  lemma {:induction false} ArtifactOrigin(quotas: map<Name, int>, calls: seq<Call>, id: Name)
    requires id in Run(Initial(quotas), calls).artifacts
    ensures exists i: nat :: Deposited(quotas, calls, i, DepositOf(Run(Initial(quotas), calls).artifacts[id]))
  {
    hide Apply, StoredBy, DepositOf;
    if calls != [] {
      var front, last := calls[..|calls| - 1], calls[|calls| - 1];
      var r := Run(Initial(quotas), front);
      CallDeposits(r, last);
      assert calls == front + [last];
      if id in r.artifacts {
        ArtifactOrigin(quotas, front, id);
        var i: nat :| Deposited(quotas, front, i, DepositOf(r.artifacts[id]));
        DepositedStays(quotas, front, [last], i, DepositOf(r.artifacts[id]));
      } else {
        assert Deposited(quotas, calls, |calls| - 1, DepositOf(Run(Initial(quotas), calls).artifacts[id]));
      }
    }
  }
}
