/** Consequences of conservation for one repository: commits cannot find their
    artifact missing, a superseded lease is inert for ever, and sweep claims are
    offered fairly. */
module ArtifactCollection {
  import opened Common
  import opened ArtifactLedger
  import opened ArtifactRepository
  import opened ArtifactConservation

  // ----- commits and quotas -----

  /** In every reachable state a commit creates its artifact exactly when the
      invocation is inflight at the given generation and the artifact repeats
      the reservation; the "artifact already exists" and "committed without
      artifact" branches are never taken. */
  lemma CommitDecided(quotas: map<Name, int>, calls: seq<Call>, id: Name, digest: Name, generation: nat,
                      artifact: Artifact)
    ensures var r := Run(Initial(quotas), calls);
            var reply := CommitReply(r, id, digest, generation, artifact);
            && (reply == Stored(artifact, true)
                <==> Live(r, id, digest, generation) && Settles(r.invocations[id], artifact))
            && (CommitCreate(r, id, digest, generation, artifact) != r ==> reply == Stored(artifact, true))
            && reply != Refused(StorageCorruption)
            && (id in r.invocations && r.invocations[id].requestDigest == digest && r.invocations[id].state.Committed?
                ==> reply.Stored? && !reply.changed && Matches(r.invocations[id], reply.artifact))
  {
    hide Run, Balanced, WithinQuota, Indexed, Unreferenced, Numbered, Settle;
    RunSound(quotas, calls);
  }

  /** Admission arithmetic stays within the quota, so it cannot wrap around. */
  lemma AdmissionWithinQuota(quotas: map<Name, int>, calls: seq<Call>, tenant: Name)
    ensures var r := Run(Initial(quotas), calls);
            && 0 <= At(r.used, tenant) && 0 <= At(r.reserved, tenant)
            && At(r.used, tenant) + At(r.reserved, tenant) <= Quota(r.quotas, tenant)
            && 0 <= Quota(r.quotas, tenant) - At(r.used, tenant) - At(r.reserved, tenant) <= Quota(r.quotas, tenant)
  {
    hide Run, Balanced, Linked, Indexed, Unreferenced, Numbered;
    RunSound(quotas, calls);
    var r := Run(Initial(quotas), calls);
    Counted(r.invocationOrder, HeldByInvocations(r.invocations), r.reserved, r.inflightByObject);
    Counted(r.artifactOrder, HeldByArtifacts(r.artifacts), r.used, r.activeByObject);
  }

  // ----- lease fencing -----

  function LeaseOf(call: Call): Option<Lease> {
    match call
    case ExpirePage(lease, _, _, _) => Some(lease)
    case AbandonPage(lease, _, _, _) => Some(lease)
    case Renew(lease, _, _) => Some(lease)
    case Release(lease, _) => Some(lease)
    case Pending(lease, _) => Some(lease)
    case Claim(lease, _, _, _) => Some(lease)
    case Retire(lease, _) => Some(lease)
    case Finish(lease, _, _, _) => Some(lease)
    case _ => None
  }

  lemma {:induction false} EntombKeepsLease(r: Repo, ids: seq<Name>, now: int)
    ensures var s := EntombAll(r, ids, now);
            s.nextLeaseToken == r.nextLeaseToken && s.sweeps == r.sweeps && s.nextSweepOrder == r.nextSweepOrder
  {
    if ids != [] { EntombKeepsLease(r, ids[..|ids| - 1], now); }
  }

  lemma {:induction false} AbandonKeepsLease(r: Repo, ids: seq<Name>, before: int)
    ensures var s := AbandonAll(r, ids, before);
            s.nextLeaseToken == r.nextLeaseToken && s.sweeps == r.sweeps && s.nextSweepOrder == r.nextSweepOrder
  {
    if ids != [] { AbandonKeepsLease(r, ids[..|ids| - 1], before); }
  }

  lemma LeaseTokensGrow(r: Repo, call: Call)
    ensures r.nextLeaseToken <= Apply(r, call).nextLeaseToken
  {
    match call
    case ExpirePage(lease, now, after, limit) =>
      var page := ScanPage(r, lease, after, |r.artifactOrder|, limit);
      if page.Page? { EntombKeepsLease(r, r.artifactOrder[page.start..page.end], now); }
    case AbandonPage(lease, before, after, limit) =>
      var page := ScanPage(r, lease, after, |r.invocationOrder|, limit);
      if page.Page? { AbandonKeepsLease(r, r.invocationOrder[page.start..page.end], before); }
    case _ =>
  }

  lemma {:induction false} LeaseTokensGrowAlong(r: Repo, calls: seq<Call>)
    ensures r.nextLeaseToken <= Run(r, calls).nextLeaseToken
  {
    if calls != [] {
      LeaseTokensGrowAlong(r, calls[..|calls| - 1]);
      LeaseTokensGrow(Run(r, calls[..|calls| - 1]), calls[|calls| - 1]);
    }
  }

  lemma {:induction false} RunSplits(r: Repo, before: seq<Call>, after: seq<Call>)
    ensures Run(r, before + after) == Run(Run(r, before), after)
  {
    if after == [] {
      assert before + after == before;
    } else {
      hide Apply;
      RunSplits(r, before, after[..|after| - 1]);
      assert (before + after)[..|before + after| - 1] == before + after[..|after| - 1];
    }
  }

  /** Once a newer token has been issued, no page, claim, retirement, finish,
      renewal or release under an older token changes anything, however the run
      goes on. */
  lemma SupersededLeaseIsInert(quotas: map<Name, int>, before: seq<Call>, after: seq<Call>, call: Call)
    requires LeaseOf(call).Some? && LeaseOf(call).value.token < Run(Initial(quotas), before).nextLeaseToken
    ensures Apply(Run(Initial(quotas), before + after), call) == Run(Initial(quotas), before + after)
  {
    hide Run, Balanced, Linked, Indexed, Unreferenced, Numbered, WithinQuota;
    var r := Run(Initial(quotas), before + after);
    RunSplits(Initial(quotas), before, after);
    LeaseTokensGrowAlong(Run(Initial(quotas), before), after);
    RunSound(quotas, before + after);
    assert !Leased(r, LeaseOf(call).value);
  }

  // ----- fairness of the sweep queue -----

  /** The claims offered before the given order. */
  ghost function Ahead(sweeps: map<Name, Sweep>, order: nat): set<Name> {
    set key | key in sweeps && sweeps[key].order < order
  }

  /** The claim on the object is still the one filed at that order: not finished, not offered since. */
  ghost predicate Waiting(r: Repo, key: Name, order: nat) {
    key in r.sweeps && r.sweeps[key].order == order
  }

  /** Selection takes claims in order: what it leaves behind is younger than all it takes,
      and it leaves something behind only after taking as many as asked. */
  lemma {:induction false} OldestComeFirst(sweeps: map<Name, Sweep>, count: nat, key: Name)
    requires key in sweeps && key !in Oldest(sweeps, count)
    ensures |Oldest(sweeps, count)| == count
    ensures forall taken | taken in Oldest(sweeps, count) :: taken in sweeps && sweeps[taken].order <= sweeps[key].order
  {
    if count != 0 {
      var least := Least(sweeps);
      var rest := sweeps - {least};
      assert Oldest(sweeps, count) == [least] + Oldest(rest, count - 1);
      OldestComeFirst(rest, count - 1, key);
    }
  }

  lemma {:induction false} DistinctCount(keys: seq<Name>, within: set<Name>)
    requires Distinct(keys) && forall key | key in keys :: key in within
    ensures |within| == |within - (set key | key in keys)| + |keys|
  {
    if keys == [] {
      assert within - (set key | key in keys) == within;
    } else {
      var prefix, last := keys[..|keys| - 1], keys[|keys| - 1];
      DistinctCount(prefix, within);
      assert within - (set key | key in keys) == (within - (set key | key in prefix)) - {last};
      assert last !in prefix && last in within;
    }
  }

  /** A page that skips a waiting claim takes `limit` claims from ahead of it. */
  lemma PageAdvances(r: Repo, lease: Lease, limit: int, key: Name, order: nat)
    requires Sound(r) && Waiting(r, key, order) && Leased(r, lease) && BatchSize(limit)
    requires Waiting(PendingSweepsPage(r, lease, limit), key, order)
    ensures |Ahead(PendingSweepsPage(r, lease, limit).sweeps, order)| == |Ahead(r.sweeps, order)| - limit
  {
    hide Balanced, Linked, Indexed, Unreferenced, WithinQuota, Offer, Oldest;
    var s := PendingSweepsPage(r, lease, limit);
    var keys := Oldest(r.sweeps, limit);
    OldestListsClaims(r.sweeps, limit);
    OfferEffect(r.sweeps, keys, r.nextSweepOrder, lease.token);
    forall taken | taken in keys ensures r.nextSweepOrder < s.sweeps[taken].order {
      var i :| 0 <= i < |keys| && keys[i] == taken;
      assert s.sweeps[keys[i]].order == r.nextSweepOrder + i + 1;
    }
    assert key !in keys;
    OldestComeFirst(r.sweeps, limit, key);
    forall taken | taken in keys ensures taken in Ahead(r.sweeps, order) {
      assert taken != key;
    }
    DistinctCount(keys, Ahead(r.sweeps, order));
    forall other ensures other in Ahead(s.sweeps, order) <==> other in Ahead(r.sweeps, order) && other !in keys {}
    assert Ahead(s.sweeps, order) == Ahead(r.sweeps, order) - (set k | k in keys);
  }

  lemma SubsetNoLarger(small: set<Name>, large: set<Name>)
    requires small <= large
    ensures |small| <= |large|
  {
    assert large == small + (large - small);
  }

  /** No call lets a claim overtake one that is waiting. */
  lemma NobodyOvertakes(r: Repo, call: Call, key: Name, order: nat)
    requires Sound(r) && Waiting(r, key, order) && Waiting(Apply(r, call), key, order)
    ensures |Ahead(Apply(r, call).sweeps, order)| <= |Ahead(r.sweeps, order)|
  {
    hide Balanced, Linked, Indexed, Unreferenced, WithinQuota, Ahead;
    if call.Pending? {
      if Leased(r, call.lease) && BatchSize(call.limit) { PageAdvances(r, call.lease, call.limit, key, order); }
    } else if call.Claim? {
      ClaimGoesLast(r, call, order);
    } else {
      SweepsOnlyShrink(r, call, order);
    }
  }

  lemma ClaimGoesLast(r: Repo, call: Call, order: nat)
    requires call.Claim? && order <= r.nextSweepOrder
    ensures |Ahead(Apply(r, call).sweeps, order)| <= |Ahead(r.sweeps, order)|
  {
    SubsetNoLarger(Ahead(Apply(r, call).sweeps, order), Ahead(r.sweeps, order));
  }

  /** Apart from claims and offers, a call keeps the claims or removes one. */
  lemma SweepsOnlyShrink(r: Repo, call: Call, order: nat)
    requires !call.Pending? && !call.Claim?
    ensures |Ahead(Apply(r, call).sweeps, order)| <= |Ahead(r.sweeps, order)|
  {
    hide Ahead, EntombAll, AbandonAll, PurgeAll, Entomb, Settle, Admit, Live, Settles;
    if call.ExpirePage? {
      var page := ScanPage(r, call.lease, call.after, |r.artifactOrder|, call.limit);
      if page.Page? { EntombKeepsLease(r, r.artifactOrder[page.start..page.end], call.now); }
    } else if call.AbandonPage? {
      var page := ScanPage(r, call.lease, call.after, |r.invocationOrder|, call.limit);
      if page.Page? { AbandonKeepsLease(r, r.invocationOrder[page.start..page.end], call.heartbeatBefore); }
    } else if call.Retire? || call.Finish? {
      DroppedClaim(r.sweeps, call.claim.objectKey, order);
    } else {
      OtherCallsKeepSweeps(r, call);
    }
  }

  lemma OtherCallsKeepSweeps(r: Repo, call: Call)
    requires !call.Pending? && !call.Claim? && !call.Retire? && !call.Finish? && !call.ExpirePage? && !call.AbandonPage?
    ensures Apply(r, call).sweeps == r.sweeps
  {
    hide Live, Settles;
  }

  lemma DroppedClaim(sweeps: map<Name, Sweep>, key: Name, order: nat)
    ensures |Ahead(sweeps - {key}, order)| <= |Ahead(sweeps, order)|
  {
    SubsetNoLarger(Ahead(sweeps - {key}, order), Ahead(sweeps, order));
  }

  predicate Offers(r: Repo, call: Call, limit: nat) {
    call.Pending? && Leased(r, call.lease) && limit <= call.limit && BatchSize(call.limit)
  }

  /** How many pages of at least `limit` claims were offered along the run. */
  ghost function Pages(r: Repo, calls: seq<Call>, limit: nat): nat {
    if calls == [] then 0 else
    var prefix := calls[..|calls| - 1];
    Pages(r, prefix, limit) + (if Offers(Run(r, prefix), calls[|calls| - 1], limit) then 1 else 0)
  }

  /** The claim waited all along the run. */
  ghost predicate WaitedThrough(r: Repo, calls: seq<Call>, key: Name, order: nat) {
    forall k | 0 <= k <= |calls| :: Waiting(Run(r, calls[..k]), key, order)
  }

  /** Fairness: a claim with `rank` claims ahead of it can be passed over by at
      most rank / limit pages, whatever arrives in the meantime; so page number
      rank / limit + 1 offers it, unless it was resolved first. */
  lemma {:induction false} OfferedWithinRank(quotas: map<Name, int>, before: seq<Call>, calls: seq<Call>, key: Name,
                                             order: nat, limit: nat)
    requires 0 < limit
    requires WaitedThrough(Run(Initial(quotas), before), calls, key, order)
    ensures var r := Run(Initial(quotas), before);
            Pages(r, calls, limit) * limit + |Ahead(Run(r, calls).sweeps, order)| <= |Ahead(r.sweeps, order)|
  {
    hide Run, Apply, Sound, Pages, Ahead;
    var r := Run(Initial(quotas), before);
    if calls == [] {
      NoPages(r, limit);
      assert calls[..0] == calls;
    } else {
      var prefix, call := calls[..|calls| - 1], calls[|calls| - 1];
      forall k | 0 <= k <= |prefix| ensures Waiting(Run(r, prefix[..k]), key, order) {
        assert prefix[..k] == calls[..k];
      }
      OfferedWithinRank(quotas, before, prefix, key, order, limit);
      var s := Run(r, prefix);
      assert Sound(s) by { RunSplits(Initial(quotas), before, prefix); RunSound(quotas, before + prefix); }
      assert prefix == calls[..|prefix|] && calls == calls[..|calls|];
      assert Waiting(s, key, order) && Waiting(Run(r, calls), key, order);
      RunStep(r, prefix, call);
      assert prefix + [call] == calls;
      PagesStep(r, prefix, call, key, order, limit);
    }
  }

  lemma NoPages(r: Repo, limit: nat)
    ensures Pages(r, [], limit) == 0 && Run(r, []) == r
  {
  }

  lemma RunStep(r: Repo, prefix: seq<Call>, call: Call)
    ensures Run(r, prefix + [call]) == Apply(Run(r, prefix), call)
  {
    assert (prefix + [call])[..|prefix|] == prefix;
  }

  lemma PendingIsPage(r: Repo, call: Call)
    requires call.Pending?
    ensures Apply(r, call) == PendingSweepsPage(r, call.lease, call.limit)
  {
    hide PendingSweepsPage;
  }

  lemma PagesStep(r: Repo, prefix: seq<Call>, call: Call, key: Name, order: nat, limit: nat)
    requires 0 < limit
    requires Sound(Run(r, prefix)) && Waiting(Run(r, prefix), key, order)
             && Waiting(Apply(Run(r, prefix), call), key, order)
    requires Pages(r, prefix, limit) * limit + |Ahead(Run(r, prefix).sweeps, order)| <= |Ahead(r.sweeps, order)|
    ensures Pages(r, prefix + [call], limit) * limit + |Ahead(Apply(Run(r, prefix), call).sweeps, order)|
            <= |Ahead(r.sweeps, order)|
  {
    hide Sound, Apply, Ahead, Run;
    var calls := prefix + [call];
    assert calls[..|calls| - 1] == prefix;
    var s := Run(r, prefix);
    if Offers(s, call, limit) {
      PendingIsPage(s, call);
      PageAdvances(s, call.lease, call.limit, key, order);
      assert Pages(r, calls, limit) == Pages(r, prefix, limit) + 1;
      assert (Pages(r, prefix, limit) + 1) * limit == Pages(r, prefix, limit) * limit + limit;
    } else {
      NobodyOvertakes(s, call, key, order);
    }
  }

  lemma RankBound(pages: nat, limit: nat, rank: nat)
    requires 0 < limit && pages * limit <= rank
    ensures pages <= rank / limit
  {
    var excess := pages - rank / limit;
    assert excess * limit == pages * limit - rank / limit * limit;
    assert excess * limit < limit;
  }

  /** The counted form of the fairness bound. */
  lemma OfferedWithinCalls(quotas: map<Name, int>, before: seq<Call>, calls: seq<Call>, key: Name, order: nat,
                           limit: nat)
    requires 0 < limit
    requires WaitedThrough(Run(Initial(quotas), before), calls, key, order)
    ensures Pages(Run(Initial(quotas), before), calls, limit)
            <= |Ahead(Run(Initial(quotas), before).sweeps, order)| / limit
  {
    OfferedWithinRank(quotas, before, calls, key, order, limit);
    RankBound(Pages(Run(Initial(quotas), before), calls, limit), limit,
              |Ahead(Run(Initial(quotas), before).sweeps, order)|);
  }
}
