/** Processes end with their sessions: over every run no live shard is both draining and empty, and a
    session's own process is never without its session. */
module AgentOccupancy {
  import opened Common
  import opened AgentManager
  import Admission = AgentAdmission

  /** The process serves somebody, or may still be given sessions. */
  predicate Inhabited(shard: Shard) {
    shard.sessions != map[] || (!shard.draining && shard.spec.scope.profile.scope != SessionScope)
  }

  ghost predicate Occupied(shards: map<Name, Shard>) {
    forall id | id in shards :: Inhabited(shards[id])
  }

  // ----- shards that change -----

  lemma WithOccupied(shards: map<Name, Shard>, id: Name, shard: Shard)
    requires Occupied(shards) && (Inhabited(shard) || Emptied(shard))
    ensures Occupied(ShardsWith(shards, id, shard))
  {
  }

  lemma RehouseOccupied(m: Manager, id: Name, shard: Shard)
    requires Occupied(m.shards) && (Inhabited(shard) || Emptied(shard))
    ensures Occupied(Rehouse(m, id, shard).shards)
  {
    hide Occupied, ShardsWith, EpochsWith, LedgerWith, Inhabited;
    WithOccupied(m.shards, id, shard);
  }

  /** A session leaves the shard it is seated in. */
  lemma LeaveOccupied(m: Manager, session: Name, memory: nat)
    requires Occupied(m.shards) && session in m.placements && m.placements[session].shardId in m.shards
    requires m.shards[m.placements[session].shardId].spec.scope.profile == m.placements[session].profile
    ensures Occupied(Leave(m, session, memory).shards)
  {
    hide Occupied, Rehouse, Minus;
    var placement := m.placements[session];
    assert Unplace(m, session).shards == m.shards;
    OccupiedAt(m.shards, placement.shardId);
    RehouseOccupied(Unplace(m, session), placement.shardId,
                    Without(m.shards[placement.shardId], session, memory, placement.profile));
  }

  lemma OccupiedAt(shards: map<Name, Shard>, id: Name)
    requires Occupied(shards) && id in shards
    ensures Inhabited(shards[id])
  {
  }

  /** In a reachable state the shard of a placement serves the placement's profile. */
  lemma SeatOf(m: Manager, session: Name)
    requires Admission.Booked(m) && session in m.placements
    ensures var placement := m.placements[session];
            && placement.shardId in m.shards && session in m.shards[placement.shardId].sessions
            && m.shards[placement.shardId].spec.scope == ScopeFor(placement.profile, placement.tenant, session)
  {
    hide Admission.AllLoaded, Admission.AllTimely, Admission.Claimed;
  }

  lemma {:induction false} ExpireAllOccupied(m: Manager, order: seq<Name>, now: int)
    requires Occupied(m.shards)
    ensures Occupied(ExpireAll(m, order, now).shards)
  {
    hide Occupied, Rehouse;
    if order != [] {
      var before, id := ExpireAll(m, order[..|order| - 1], now), order[|order| - 1];
      ExpireAllOccupied(m, order[..|order| - 1], now);
      if id in before.shards {
        OccupiedAt(before.shards, id);
        RehouseOccupied(before, id, Drained(before.shards[id]));
      }
    }
  }

  lemma PlaceOccupied(m: Manager, id: Name, request: Request)
    requires Occupied(m.shards) && id in m.shards
    ensures Occupied(Place(m, id, request).shards)
  {
  }

  lemma {:induction false} RetireAllOccupied(m: Manager, ids: seq<Name>)
    requires Occupied(m.shards)
    ensures Occupied(RetireAll(m, ids).shards)
  {
    if ids != [] {
      RetireAllOccupied(m, ids[..|ids| - 1]);
    }
  }

  // ----- steps that leave the shards alone -----

  lemma LaunchesKeepShards(m: Manager, g: nat, request: Request)
    ensures BeginLaunch(m, request).shards == m.shards
    ensures g in m.launches ==> Join(m, g, request).shards == m.shards
  {
    hide WithTicket, FirstLaunch, NewSpec, After, SequenceAfter, ScopeOf;
  }

  lemma UnbarKeepsShards(m: Manager, g: nat, launch: Launch)
    ensures Unbar(m, g, launch).shards == m.shards
  {
    hide ScopesWithout, SessionsWithout;
  }

  lemma TransferKeepsShards(m: Manager, g: nat)
    requires g in m.launches
    ensures Transfer(m, g).shards == m.shards && Fail(m, g).shards == m.shards
  {
    hide Unbar, GiveOnce, TrackOnce, FileOnce, InPhase;
    UnbarKeepsShards(m, g, GiveOnce(m.launches[g], |m.epochs|));
    UnbarKeepsShards(m, g, InPhase(m.launches[g], Errored));
  }

  lemma GiveUpKeepsShards(m: Manager, g: nat)
    requires g in m.launches
    ensures GiveUp(m, g).shards == m.shards
  {
    hide Transfer, AbandonUnfinished;
    TransferKeepsShards(m, g);
  }

  lemma ReturnsKeepShards(m: Manager, g: nat, present: bool, valid: bool)
    ensures LaunchReturns(m, g, present, valid).shards == m.shards && LaunchEnds(m, g).shards == m.shards
  {
    hide Fail, Keep, Reject, Wanted;
    if g in m.launches {
      TransferKeepsShards(m, g);
      KeepKeepsShards(m, g);
    }
  }

  lemma KeepKeepsShards(m: Manager, g: nat)
    requires g in m.launches
    ensures Keep(m, g).shards == m.shards && Reject(m, g).shards == m.shards
  {
    hide InPhase;
  }

  lemma ReselectKeepsShards(m: Manager, key: Key)
    ensures Reselect(m, key).shards == m.shards
  {
    hide ReopenedEpochs, ReopenedLedger;
  }

  lemma {:induction false} ReselectAllKeepsShards(m: Manager, keys: seq<Key>)
    ensures ReselectAll(m, keys).shards == m.shards
  {
    hide Reselect;
    if keys != [] {
      ReselectAllKeepsShards(m, keys[..|keys| - 1]);
      ReselectKeepsShards(ReselectAll(m, keys[..|keys| - 1]), keys[|keys| - 1]);
    }
  }

  lemma {:induction false} TransferAllKeepsShards(m: Manager, finished: seq<nat>)
    ensures TransferAll(m, finished).shards == m.shards
  {
    hide Transfer;
    if finished != [] {
      var before, g := TransferAll(m, finished[..|finished| - 1]), finished[|finished| - 1];
      TransferAllKeepsShards(m, finished[..|finished| - 1]);
      if Barred(before, g) {
        TransferKeepsShards(before, g);
      }
    }
  }

  lemma CloseKeepsShards(m: Manager, finished: seq<nat>)
    ensures Close(m, finished).shards == m.shards
  {
    hide TransferAll, Barred;
    TransferAllKeepsShards(Closed(m), finished);
  }

  // ----- every step -----

  lemma SupersedeOccupied(m: Manager, request: Request)
    requires Occupied(m.shards) && Admission.Booked(m)
    ensures Occupied(Supersede(m, request).shards)
  {
    hide Occupied, Admission.Booked, Leave;
    if request.session in m.placements {
      SeatOf(m, request.session);
      LeaveOccupied(Fence(m, request), request.session, MemoryOf(m, request.session));
    }
  }

  lemma SettleOccupied(m: Manager, request: Request, choice: Choice)
    requires Occupied(m.shards)
    ensures Occupied(Settle(m, request, choice).shards)
  {
    hide Occupied, ExpireAll, Place, Join, BeginLaunch, Candidate;
    var scanned := ExpireAll(m, choice.order, request.now);
    ExpireAllOccupied(m, choice.order, request.now);
    if choice.candidate in scanned.shards {
      PlaceOccupied(scanned, choice.candidate, request);
    }
    LaunchesKeepShards(scanned, 0, request);
    if ScopeOf(request) in scanned.pendingScopes {
      LaunchesKeepShards(scanned, scanned.pendingScopes[ScopeOf(request)], request);
    }
    if Best(scanned, choice.candidate, request) {
      CandidateIsLive(scanned, choice.candidate, request);
    }
  }

  lemma CandidateIsLive(m: Manager, id: Name, request: Request)
    requires Candidate(m, id, request)
    ensures id in m.shards
  {
  }

  lemma AcquireOccupied(m: Manager, request: Request, choice: Choice)
    requires Occupied(m.shards) && Admission.Booked(m)
    ensures Occupied(Acquire(m, request, choice).shards)
  {
    hide Occupied, Admission.Booked, Supersede, Settle, Reselect, Join;
    if request.session in m.pendingSessions {
      LaunchesKeepShards(m, m.pendingSessions[request.session], request);
    } else {
      var fenced := Supersede(m, request);
      SupersedeOccupied(m, request);
      SettleOccupied(fenced, request, choice);
      ReselectKeepsShards(fenced, choice.prior);
    }
  }

  lemma AdoptOccupied(m: Manager, claim: Claim)
    requires Occupied(m.shards) && claim.launch in m.launches
    ensures Occupied(Adopt(m, claim).shards)
  {
    hide Forget, ScopesWithout, SessionsWithout;
    var spec := m.launches[claim.launch].spec;
    assert claim.request.session in NewShard(spec, claim.request).sessions;
    assert Adopt(m, claim).shards == m.shards[spec.shardId := NewShard(spec, claim.request)];
  }

  lemma LeavesOccupied(m: Manager, ticket: nat, cancelled: bool)
    requires Occupied(m.shards)
    ensures Occupied(Leaves(m, ticket, cancelled).shards)
  {
    hide Occupied, GiveUp, Transfer, Adopt, WithoutTicket;
    if MayLeave(m, ticket, cancelled) {
      var punched, claim := PunchTicket(m, ticket), m.claims[ticket];
      GiveUpKeepsShards(punched, claim.launch);
      TransferKeepsShards(punched, claim.launch);
      AdoptOccupied(punched, claim);
    }
  }

  lemma ReleaseOccupied(m: Manager, session: Name, generation: nat)
    requires Occupied(m.shards) && Admission.Booked(m)
    ensures Occupied(Release(m, session, generation).shards)
  {
    hide Occupied, Admission.Booked, MarkReleased, ReleasePlaced, Reselect;
    MarkedShards(m, session, generation);
    if session in m.placements {
      SeatOf(m, session);
      var fenced := MarkReleased(m, session, generation);
      LeaveOccupied(fenced, session, MemoryOf(fenced, session));
      RememberedShards(fenced, session, generation);
    } else if AwaitsCleanup(m, session, generation) {
      ReselectKeepsShards(MarkReleased(m, session, generation), m.cleanups[session].key);
    }
  }

  lemma MarkedShards(m: Manager, session: Name, generation: nat)
    ensures var n := MarkReleased(m, session, generation);
            && n.shards == m.shards && n.placements == m.placements && n.epochs == m.epochs && n.ledger == m.ledger
            && n.identities == m.identities && n.cleanups == m.cleanups
  {
  }

  lemma RememberedShards(m: Manager, session: Name, generation: nat)
    requires session in m.placements
    ensures var left, n := Leave(m, session, MemoryOf(m, session)), ReleasePlaced(m, session, generation);
            && n.shards == left.shards && n.placements == left.placements && n.epochs == left.epochs
            && n.ledger == left.ledger
            && n.cleanups == Remember(m.cleanups, m.epochs, left.epochs, session, generation)
  {
    hide Leave, Remember;
  }

  lemma ObserveOccupied(m: Manager, sample: Sample)
    requires Occupied(m.shards)
    ensures Occupied(Observe(m, sample).shards)
  {
    hide Occupied, Rehouse;
    if Fresh(m, sample) {
      OccupiedAt(m.shards, sample.shardId);
      RehouseOccupied(m, sample.shardId, Seen(m.shards[sample.shardId], sample, m.limits.watermark));
    }
  }

  lemma DrainOccupied(m: Manager, ids: seq<Name>, keys: seq<Key>)
    requires Occupied(m.shards)
    ensures Occupied(Drain(m, ids, keys).shards)
  {
    hide Occupied, RetireAll, ReselectAll;
    RetireAllOccupied(m, ids);
    ReselectAllKeepsShards(RetireAll(m, ids), keys);
  }

  lemma NextOccupied(m: Manager, step: Step)
    requires Occupied(m.shards) && Admission.Booked(m)
    ensures Occupied(Next(m, step).shards)
  {
    hide Occupied, Admission.Booked, Acquire, Leaves, LaunchReturns, LaunchEnds, StartedAt, ResolvedAt, LedgerAfter,
         GoneAfter, Release, Observe, Close, Drain;
    match step
    case AcquireStep(request, choice) => AcquireOccupied(m, request, choice);
    case LeavesStep(ticket, cancelled) => LeavesOccupied(m, ticket, cancelled);
    case LaunchReturnsStep(g, present, valid) => ReturnsKeepShards(m, g, present, valid);
    case LaunchEndsStep(g) => ReturnsKeepShards(m, g, true, true);
    case StartStopStep(_) =>
    case StopReturnsStep(_, _) =>
    case ReleaseStep(session, generation) => ReleaseOccupied(m, session, generation);
    case ObserveStep(sample) => ObserveOccupied(m, sample);
    case CloseStep(finished) => CloseKeepsShards(m, finished);
    case DrainStep(ids, keys) => DrainOccupied(m, ids, keys);
    case ShutdownReturnsStep =>
  }

  /** Over every run no live shard is draining without sessions, and each session-scoped one holds its session. */
  lemma {:induction false} RunOccupied(limits: Limits, steps: seq<Step>)
    requires ValidLimits(limits)
    ensures Occupied(Run(Initial(limits), steps).shards)
  {
    hide Next, Admission.Booked, Inhabited;
    if steps != [] {
      var front := steps[..|steps| - 1];
      RunOccupied(limits, front);
      Admission.RunBooked(limits, front);
      NextOccupied(Run(Initial(limits), front), steps[|steps| - 1]);
    }
  }

  // ----- what it means -----

  /** In every reachable state a session-scoped process holds exactly the session it was started for. */
  lemma OwnProcessServes(limits: Limits, steps: seq<Step>, id: Name)
    requires ValidLimits(limits) && id in Run(Initial(limits), steps).shards
    requires Run(Initial(limits), steps).shards[id].spec.scope.profile.scope == SessionScope
    ensures var shard := Run(Initial(limits), steps).shards[id]; shard.sessions.Keys == {shard.spec.scope.owner}
  {
    hide Run, Admission.Booked;
    var m := Run(Initial(limits), steps);
    RunOccupied(limits, steps);
    Admission.RunBooked(limits, steps);
    OccupiedAt(m.shards, id);
    forall s | s in m.shards[id].sessions ensures s == m.shards[id].spec.scope.owner {
      Admission.ScopesIsolated(limits, steps, id, s, s);
    }
    var s :| s in m.shards[id].sessions;
  }

  /** What a leaving session does to its shard: the process goes to the ledger, to be stopped, exactly when it was
      the session's own or was draining and nobody else is left; otherwise only the session is gone from it. */
  ghost predicate Vacates(m: Manager, n: Manager, session: Name)
    requires session in m.placements && m.placements[session].shardId in m.shards
  {
    var id := m.placements[session].shardId;
    var shard := m.shards[id];
    && n.placements == m.placements - {session}
    && (forall other | other in m.shards && other != id :: other in n.shards && n.shards[other] == m.shards[other])
    && (forall other | other in n.shards :: other in m.shards)
    && if shard.sessions.Keys == {session} && (shard.draining || shard.spec.scope.profile.scope == SessionScope)
       then && id !in n.shards && |n.epochs| == |m.epochs| + 1 && n.epochs[..|m.epochs|] == m.epochs
            && n.epochs[|m.epochs|] == Epoch(shard.spec, false, Unresolved)
            && n.ledger == m.ledger[KeyOf(shard.spec) := |m.epochs|]
       else && id in n.shards && n.shards[id].sessions == shard.sessions - {session}
            && n.shards[id].spec == shard.spec && n.shards[id].rss == shard.rss
            && n.shards[id].draining == shard.draining
            && n.epochs == m.epochs && n.ledger == m.ledger
  }

  lemma LastOne(sessions: map<Name, Placement>, session: Name)
    requires session in sessions
    ensures sessions - {session} == map[] <==> sessions.Keys == {session}
  {
    if sessions.Keys == {session} {
      assert forall s | s in sessions - {session} :: s in sessions.Keys && s != session;
    } else if sessions - {session} == map[] {
      forall s | s in sessions ensures s == session {
        assert s == session || s in sessions - {session};
      }
    }
  }

  lemma LeaveVacates(m: Manager, session: Name, memory: nat)
    requires session in m.placements && m.placements[session].shardId in m.shards
    requires var shard := m.shards[m.placements[session].shardId];
             && session in shard.sessions && shard.spec.scope.profile == m.placements[session].profile
             && (shard.spec.scope.profile.scope == SessionScope ==> shard.sessions.Keys == {session})
    ensures Vacates(m, Leave(m, session, memory), session)
  {
    hide Minus;
    var id := m.placements[session].shardId;
    var shard := m.shards[id];
    LastOne(shard.sessions, session);
    assert m.epochs + [Epoch(shard.spec, false, Unresolved)] != m.epochs;
  }

  /** A release of the latest generation, over every run: the session leaves its process as `Vacates` says, the
      generation is released, and the stop that this starts is the one a repeated release waits for. */
  lemma ReleaseDecided(limits: Limits, steps: seq<Step>, session: Name, generation: nat)
    requires ValidLimits(limits)
    ensures var m := Run(Initial(limits), steps);
            var n := Release(m, session, generation);
            if m.closed || generation == 0 || generation != Count(m.latest, session) then n == m
            else && Count(n.released, session) == generation && session !in n.placements
                 && n.latest == m.latest && n.identities == m.identities && n.launches == m.launches
                 && (session in m.placements ==>
                       && m.placements[session].shardId in m.shards && Vacates(m, n, session)
                       && (if |m.epochs| < |n.epochs|
                           then n.cleanups
                                == m.cleanups[session := Released(generation, KeyOf(n.epochs[|m.epochs|].spec))]
                           else n.cleanups == m.cleanups))
                 && (session !in m.placements ==>
                       && n.shards == m.shards && n.placements == m.placements && n.cleanups == m.cleanups
                       && (session in m.cleanups && m.cleanups[session].generation == generation
                           ==> n.ledger == Reselect(m, m.cleanups[session].key).ledger
                               && n.epochs == Reselect(m, m.cleanups[session].key).epochs)
                       && (!(session in m.cleanups && m.cleanups[session].generation == generation)
                           ==> n.ledger == m.ledger && n.epochs == m.epochs))
  {
    hide Run, Initial, Admission.Booked, Vacates, Leave;
    var m := Run(Initial(limits), steps);
    Admission.RunBooked(limits, steps);
    if !(m.closed || generation == 0 || generation != Count(m.latest, session)) {
      var fenced := MarkReleased(m, session, generation);
      MarkedShards(m, session, generation);
      MarkedRest(m, session, generation);
      if session in m.placements {
        SeatOf(m, session);
        OwnSeat(limits, steps, session);
        LeaveVacates(fenced, session, MemoryOf(fenced, session));
        SameVacates(m, fenced, Leave(fenced, session, MemoryOf(fenced, session)), session);
        RememberedShards(fenced, session, generation);
        Admission.LeaveFields(fenced, session, MemoryOf(fenced, session));
        RememberKeepsRest(fenced, session, generation);
        VacatesAlike(m, Leave(fenced, session, MemoryOf(fenced, session)), ReleasePlaced(fenced, session, generation),
                     session);
      } else {
        ReselectFields(fenced, m, if session in m.cleanups then m.cleanups[session].key else Key(NO_NAME, 0));
      }
    }
  }

  lemma OwnSeat(limits: Limits, steps: seq<Step>, session: Name)
    requires ValidLimits(limits) && session in Run(Initial(limits), steps).placements
    requires var m := Run(Initial(limits), steps);
             var placement := m.placements[session];
             && placement.shardId in m.shards && session in m.shards[placement.shardId].sessions
             && m.shards[placement.shardId].spec.scope == ScopeFor(placement.profile, placement.tenant, session)
    ensures var m := Run(Initial(limits), steps);
            var shard := m.shards[m.placements[session].shardId];
            shard.spec.scope.profile.scope == SessionScope ==> shard.sessions.Keys == {session}
  {
    hide Run, Initial;
    var m := Run(Initial(limits), steps);
    if m.shards[m.placements[session].shardId].spec.scope.profile.scope == SessionScope {
      OwnProcessServes(limits, steps, m.placements[session].shardId);
    }
  }

  /** Only the fields `Vacates` speaks about matter. */
  lemma SameVacates(m: Manager, k: Manager, n: Manager, session: Name)
    requires session in m.placements && m.placements[session].shardId in m.shards
    requires k.shards == m.shards && k.placements == m.placements && k.epochs == m.epochs && k.ledger == m.ledger
    requires Vacates(k, n, session)
    ensures Vacates(m, n, session)
  {
  }

  lemma VacatesAlike(m: Manager, k: Manager, n: Manager, session: Name)
    requires session in m.placements && m.placements[session].shardId in m.shards
    requires k.shards == n.shards && k.placements == n.placements && k.epochs == n.epochs && k.ledger == n.ledger
    requires Vacates(m, k, session)
    ensures Vacates(m, n, session)
  {
  }

  lemma MarkedRest(m: Manager, session: Name, generation: nat)
    ensures var n := MarkReleased(m, session, generation);
            && Count(n.released, session) == generation && n.latest == m.latest && n.launches == m.launches
  {
  }

  lemma RememberKeepsRest(m: Manager, session: Name, generation: nat)
    requires session in m.placements
    ensures var left, n := Leave(m, session, MemoryOf(m, session)), ReleasePlaced(m, session, generation);
            && n.latest == left.latest && n.identities == left.identities && n.launches == left.launches
            && n.released == left.released
  {
    hide Leave, Remember;
  }

  lemma ReselectFields(m: Manager, k: Manager, key: Key)
    requires k.ledger == m.ledger && k.epochs == m.epochs
    ensures var n := Reselect(m, key);
            && n.shards == m.shards && n.placements == m.placements && n.cleanups == m.cleanups
            && n.released == m.released && n.latest == m.latest && n.identities == m.identities
            && n.launches == m.launches
            && n.ledger == Reselect(k, key).ledger && n.epochs == Reselect(k, key).epochs
  {
    hide ReopenedEpochs, ReopenedLedger;
  }

  /** A newer generation, over every run: the session's fences move, and if it was placed it leaves its process as
      `Vacates` says. */
  lemma SupersedeDecided(limits: Limits, steps: seq<Step>, request: Request)
    requires ValidLimits(limits) && Advances(Run(Initial(limits), steps), request)
    ensures var m := Run(Initial(limits), steps);
            var n := Supersede(m, request);
            && n.latest == m.latest[request.session := request.generation]
            && n.identities == m.identities[request.session := FingerprintOf(request)]
            && n.released == m.released && n.launches == m.launches && n.claims == m.claims
            && (request.session in m.placements ==>
                  m.placements[request.session].shardId in m.shards && Vacates(m, n, request.session))
            && (request.session !in m.placements ==>
                  && n.shards == m.shards && n.placements == m.placements && n.ledger == m.ledger
                  && n.epochs == m.epochs)
  {
    hide Run, Initial, Admission.Booked, Vacates, Leave, FingerprintOf;
    var m := Run(Initial(limits), steps);
    Admission.RunBooked(limits, steps);
    var fenced, session := Fence(m, request), request.session;
    if session in m.placements {
      SeatOf(m, session);
      OwnSeat(limits, steps, session);
      LeaveVacates(fenced, session, MemoryOf(m, session));
      SameVacates(m, fenced, Leave(fenced, session, MemoryOf(m, session)), session);
      Admission.LeaveFields(fenced, session, MemoryOf(m, session));
    }
  }
}
