/** What a sweep claim and a lease promise beyond the counters: no object is claimed
    within the grace period of any of its tombstones, and a collector resumes at the
    checkpoint the last one released. */
module ArtifactGrace {
  import opened Common
  import opened ArtifactRepository
  import opened ArtifactConservation
  import Scans = ArtifactScans

  /** The time kept per object is no earlier than any tombstone on it. */
  ghost predicate Graced(artifacts: map<Name, Artifact>, latest: map<Name, int>) {
    forall id | id in artifacts && artifacts[id].state.Tombstoned? ::
      && artifacts[id].tombstonedAt.When? && artifacts[id].objectKey in latest
      && artifacts[id].tombstonedAt.at <= latest[artifacts[id].objectKey]
  }

  function Buried(artifact: Artifact, now: int): Artifact {
    artifact.(state := Tombstoned, tombstonedAt := When(now))
  }

  lemma BuryGraces(artifacts: map<Name, Artifact>, latest: map<Name, int>, id: Name, now: int)
    requires Graced(artifacts, latest) && id in artifacts
    ensures Graced(artifacts[id := Buried(artifacts[id], now)], RecordTombstone(latest, artifacts[id].objectKey, now))
  {
  }

  lemma EntombGraces(r: Repo, id: Name, now: int)
    requires Graced(r.artifacts, r.latestTombstone) && id in r.artifacts
    ensures Graced(Entomb(r, id, now).artifacts, Entomb(r, id, now).latestTombstone)
  {
    hide Graced, RecordTombstone, Bump;
    BuryGraces(r.artifacts, r.latestTombstone, id, now);
    assert Entomb(r, id, now).artifacts == r.artifacts[id := Buried(r.artifacts[id], now)];
  }

  lemma {:induction false} EntombAllGraces(r: Repo, ids: seq<Name>, now: int)
    requires Graced(r.artifacts, r.latestTombstone)
    ensures Graced(EntombAll(r, ids, now).artifacts, EntombAll(r, ids, now).latestTombstone)
  {
    hide Graced, Entomb;
    if ids != [] {
      EntombAllGraces(r, ids[..|ids| - 1], now);
      var before := EntombAll(r, ids[..|ids| - 1], now);
      if Expired(before, ids[|ids| - 1], now) {
        EntombGraces(before, ids[|ids| - 1], now);
      }
    }
  }

  lemma SettleGraces(r: Repo, invocation: Invocation, artifact: Artifact)
    requires Graced(r.artifacts, r.latestTombstone) && artifact.state.Active?
    ensures Graced(Settle(r, invocation, artifact).artifacts, Settle(r, invocation, artifact).latestTombstone)
  {
    hide Listed, Bump;
  }

  /** Finishing a claim forgets the object's time, after every tombstone on it has been purged. */
  lemma PurgeGraces(artifacts: map<Name, Artifact>, index: map<Name, seq<Name>>, latest: map<Name, int>, key: Name,
                    now: int)
    requires Graced(artifacts, latest) && Indexed(index, artifacts)
    ensures Graced(PurgeAll(artifacts, Listed(index, key), now), latest - {key})
  {
    hide PurgeAll, Listed;
    PurgeEffect(artifacts, Listed(index, key), now);
    var after := PurgeAll(artifacts, Listed(index, key), now);
    forall id | id in after && after[id].state.Tombstoned?
      ensures after[id].tombstonedAt.When? && after[id].objectKey in latest - {key}
              && after[id].tombstonedAt.at <= (latest - {key})[after[id].objectKey]
    {
      assert id !in Listed(index, key);
    }
  }

  lemma FinishGraces(r: Repo, lease: Lease, claim: SweepClaim, deleted: bool, now: int)
    requires Sound(r) && Graced(r.artifacts, r.latestTombstone)
    ensures var n := FinishSweepLeased(r, lease, claim, deleted, now); Graced(n.artifacts, n.latestTombstone)
  {
    hide Graced, PurgeAll, Listed, PledgesBalance, UsageBalances, WithinQuota, Linked, Unreferenced, Numbered,
         LeaseCurrent, Indexed;
    PurgeGraces(r.artifacts, r.artifactsByObject, r.latestTombstone, claim.objectKey, now);
  }

  lemma CallGraces(r: Repo, call: Call)
    requires Sound(r) && Graced(r.artifacts, r.latestTombstone)
    ensures Graced(Apply(r, call).artifacts, Apply(r, call).latestTombstone)
  {
    hide Graced, Sound, Settle, Entomb, EntombAll, AbandonAll, FinishSweepLeased;
    if call.Commit? {
      if call.invocationId in r.invocations && call.artifact.state.Active? {
        SettleGraces(r, r.invocations[call.invocationId], call.artifact);
      }
    } else if call.Tombstone? {
      if call.artifactId in r.artifacts { EntombGraces(r, call.artifactId, call.now); }
    } else if call.ExpirePage? {
      var page := ScanPage(r, call.lease, call.after, |r.artifactOrder|, call.limit);
      if page.Page? { EntombAllGraces(r, r.artifactOrder[page.start..page.end], call.now); }
    } else if call.AbandonPage? {
      var page := ScanPage(r, call.lease, call.after, |r.invocationOrder|, call.limit);
      if page.Page? { Scans.AbandonAllSame(r, r.invocationOrder[page.start..page.end], call.heartbeatBefore); }
    } else if call.Finish? {
      FinishGraces(r, call.lease, call.claim, call.deleted, call.now);
    } else {
      Scans.BystanderSame(r, call);
    }
  }

  lemma {:induction false} RunGraces(quotas: map<Name, int>, calls: seq<Call>)
    ensures var r := Run(Initial(quotas), calls); Sound(r) && Graced(r.artifacts, r.latestTombstone)
  {
    hide Sound, Apply;
    RunSound(quotas, calls);
    if calls != [] {
      RunGraces(quotas, calls[..|calls| - 1]);
      CallGraces(Run(Initial(quotas), calls[..|calls| - 1]), calls[|calls| - 1]);
    }
  }

  /** In every reachable state, an object is claimed for deletion only when no invocation and no artifact
      refers to it, and every tombstone on it is at least as old as the cutoff. */
  lemma ClaimedAfterGrace(quotas: map<Name, int>, calls: seq<Call>, lease: Lease, key: Name, version: nat, cutoff: int)
    requires ClaimReply(Run(Initial(quotas), calls), lease, key, version, cutoff).Claimed?
    ensures var r := Run(Initial(quotas), calls);
            && (forall id | id in r.invocations && r.invocations[id].objectKey == key ::
                !r.invocations[id].state.Inflight?)
            && (forall id | id in r.artifacts && r.artifacts[id].objectKey == key ::
                  && !r.artifacts[id].state.Active?
                  && (r.artifacts[id].state.Tombstoned?
                      ==> r.artifacts[id].tombstonedAt.When? && r.artifacts[id].tombstonedAt.at <= cutoff))
  {
    hide Run, Sound, Initial;
    var r := Run(Initial(quotas), calls);
    RunGraces(quotas, calls);
    CallSound(r, Claim(lease, key, version, cutoff));
    ReferencedIsUnclaimed(ClaimSweepLeased(r, lease, key, version, cutoff));
  }

  // ----- the checkpoint -----

  predicate KeepsCheckpoint(r: Repo, call: Call) {
    !call.Release? || !Leased(r, call.lease)
  }

  lemma {:induction false} EntombAllKeeps(r: Repo, ids: seq<Name>, now: int)
    ensures EntombAll(r, ids, now).checkpoint == r.checkpoint
  {
    if ids != [] {
      EntombAllKeeps(r, ids[..|ids| - 1], now);
    }
  }

  lemma {:induction false} AbandonAllKeeps(r: Repo, ids: seq<Name>, horizon: int)
    ensures AbandonAll(r, ids, horizon).checkpoint == r.checkpoint
  {
    if ids != [] {
      AbandonAllKeeps(r, ids[..|ids| - 1], horizon);
    }
  }

  lemma CheckpointKept(r: Repo, call: Call)
    requires KeepsCheckpoint(r, call)
    ensures Apply(r, call).checkpoint == r.checkpoint
  {
    hide EntombAll, AbandonAll, Oldest, Offer, PurgeAll, Listed, Bump, Settles, Admissible, RecordTombstone;
    if call.ExpirePage? {
      var page := ScanPage(r, call.lease, call.after, |r.artifactOrder|, call.limit);
      if page.Page? { EntombAllKeeps(r, r.artifactOrder[page.start..page.end], call.now); }
    } else if call.AbandonPage? {
      var page := ScanPage(r, call.lease, call.after, |r.invocationOrder|, call.limit);
      if page.Page? { AbandonAllKeeps(r, r.invocationOrder[page.start..page.end], call.heartbeatBefore); }
    }
  }

  ghost predicate NoRelease(r: Repo, calls: seq<Call>) {
    forall i | 0 <= i < |calls| :: KeepsCheckpoint(Run(r, calls[..i]), calls[i])
  }

  lemma {:induction false} RunKeepsCheckpoint(r: Repo, calls: seq<Call>)
    requires NoRelease(r, calls)
    ensures Run(r, calls).checkpoint == r.checkpoint
  {
    hide Apply, KeepsCheckpoint;
    if calls != [] {
      var front := calls[..|calls| - 1];
      assert forall i | 0 <= i < |front| :: front[..i] == calls[..i];
      RunKeepsCheckpoint(r, front);
      CheckpointKept(Run(r, front), calls[|calls| - 1]);
    }
  }

  /** Whatever happens in between, the next collector is granted its lease with the
      checkpoint of the last effective release. */
  lemma CheckpointSurvives(r: Repo, lease: Lease, checkpoint: Checkpoint, calls: seq<Call>, now: int, duration: int)
    requires Leased(r, lease) && NoRelease(ReleaseGC(r, lease, checkpoint), calls)
    requires AcquireReply(Run(ReleaseGC(r, lease, checkpoint), calls), now, duration).Granted?
    ensures AcquireReply(Run(ReleaseGC(r, lease, checkpoint), calls), now, duration).lease.checkpoint == checkpoint
  {
    hide Run, NoRelease;
    RunKeepsCheckpoint(ReleaseGC(r, lease, checkpoint), calls);
  }
}
