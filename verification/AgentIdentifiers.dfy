/** Shard identifiers over every run: which launches take the identifier of a shard
    that is still live, and which cancellations make that possible. */
module AgentIdentifiers {
  import opened Common
  import opened AgentManager
  import opened AgentOwnership
  import Safety = AgentSafety

  // ----- invariant -----

  /** The launch may still hold, or hand over, a process under its identifier. */
  predicate Hopeful(launch: Launch) {
    Active(launch) || (launch.phase == Ran && !launch.adopted && launch.tickets != {})
  }

  /** Identifiers in use are below the next sequence number. */
  ghost predicate Sequenced(launches: map<nat, Launch>, retryIds: map<ScopeKey, Name>, next: nat) {
    && (forall g | g in launches :: launches[g].spec.shardId < next)
    && (forall scope | scope in retryIds :: retryIds[scope] < next)
  }

  /** An identifier belongs to one scope. */
  ghost predicate Dedicated(launches: map<nat, Launch>, retryIds: map<ScopeKey, Name>) {
    && (forall g, h | g in launches && h in launches && launches[g].spec.shardId == launches[h].spec.shardId ::
          launches[g].spec.scope == launches[h].spec.scope)
    && (forall scope, g | scope in retryIds && g in launches && launches[g].spec.shardId == retryIds[scope] ::
          launches[g].spec.scope == scope)
    && (forall scope, other | scope in retryIds && other in retryIds && retryIds[scope] == retryIds[other] ::
        scope == other)
  }

  /** No identifier to be tried again, and none of a hopeful launch, is that of a live shard. */
  ghost predicate Clean(launches: map<nat, Launch>, retryIds: map<ScopeKey, Name>, shards: map<Name, Shard>) {
    && (forall scope | scope in retryIds :: retryIds[scope] !in shards)
    && (forall g | g in launches && Hopeful(launches[g]) :: launches[g].spec.shardId !in shards)
  }

  ghost predicate Tidy(m: Manager, clean: bool) {
    && Sequenced(m.launches, m.retryIds, m.nextSequence) && Dedicated(m.launches, m.retryIds)
    && (clean ==> Clean(m.launches, m.retryIds, m.shards))
  }

  // ----- steps that leave launches and identifiers alone -----

  /** Placements and shards only go, and each shard that goes opens a stop epoch. */
  ghost predicate Elsewhere(m: Manager, n: Manager) {
    && n.launches == m.launches && n.retryIds == m.retryIds && n.nextSequence == m.nextSequence && n.claims == m.claims
    && n.shards.Keys <= m.shards.Keys && |m.epochs| <= |n.epochs|
    && (|m.epochs| == |n.epochs| ==> n.shards.Keys == m.shards.Keys)
    && Fewer(m.placements, n.placements)
  }

  ghost predicate Fewer(before: map<Name, Placement>, after: map<Name, Placement>) {
    forall s | s in after :: s in before && after[s] == before[s]
  }

  lemma ElsewhereTidy(m: Manager, n: Manager, clean: bool)
    requires Tidy(m, clean) && Elsewhere(m, n)
    ensures Tidy(n, clean)
  {
    hide Sequenced, Dedicated, Hopeful;
  }

  lemma ElsewhereTwice(m: Manager, n: Manager, k: Manager)
    requires Elsewhere(m, n) && Elsewhere(n, k)
    ensures Elsewhere(m, k)
  {
  }

  lemma RehouseElsewhere(m: Manager, id: Name, shard: Shard)
    requires id in m.shards
    ensures Elsewhere(m, Rehouse(m, id, shard))
  {
    hide LedgerWith;
    assert Emptied(shard) ==> ShardsWith(m.shards, id, shard).Keys <= m.shards.Keys;
    assert !Emptied(shard) ==> ShardsWith(m.shards, id, shard).Keys == m.shards.Keys;
  }

  lemma UnplaceElsewhere(m: Manager, session: Name)
    ensures Elsewhere(m, Unplace(m, session))
  {
  }

  lemma LeaveElsewhere(m: Manager, session: Name, memory: nat)
    requires session in m.placements
    ensures Elsewhere(m, Leave(m, session, memory))
  {
    hide Rehouse, Elsewhere, Without;
    var placement := m.placements[session];
    UnplaceElsewhere(m, session);
    UnplaceShards(m, session);
    if placement.shardId in m.shards {
      var shard := Without(m.shards[placement.shardId], session, memory, placement.profile);
      RehouseElsewhere(Unplace(m, session), placement.shardId, shard);
      ElsewhereTwice(m, Unplace(m, session), Rehouse(Unplace(m, session), placement.shardId, shard));
    }
  }

  lemma UnplaceShards(m: Manager, session: Name)
    ensures Unplace(m, session).shards == m.shards
  {
  }

  lemma FenceElsewhere(m: Manager, request: Request)
    ensures Elsewhere(m, Fence(m, request)) && Fence(m, request).placements == m.placements
  {
  }

  lemma StillElsewhere(m: Manager)
    ensures Elsewhere(m, m)
  {
  }

  lemma SupersedeElsewhere(m: Manager, request: Request)
    ensures Elsewhere(m, Supersede(m, request))
  {
    hide Elsewhere, Leave, Fence;
    StillElsewhere(m);
    FenceElsewhere(m, request);
    if Advances(m, request) && request.session in m.placements {
      var memory := MemoryOf(m, request.session);
      LeaveElsewhere(Fence(m, request), request.session, memory);
      ElsewhereTwice(m, Fence(m, request), Leave(Fence(m, request), request.session, memory));
    }
  }

  lemma {:induction false} ExpireAllElsewhere(m: Manager, order: seq<Name>, now: int)
    ensures Elsewhere(m, ExpireAll(m, order, now))
  {
    hide Elsewhere, Rehouse, Drained;
    StillElsewhere(m);
    if order != [] {
      var before, id := ExpireAll(m, order[..|order| - 1], now), order[|order| - 1];
      ExpireAllElsewhere(m, order[..|order| - 1], now);
      if id in before.shards && Expired(before, before.shards[id], now) {
        RehouseElsewhere(before, id, Drained(before.shards[id]));
        ElsewhereTwice(m, before, Rehouse(before, id, Drained(before.shards[id])));
      }
    }
  }

  lemma PlaceTidy(m: Manager, id: Name, request: Request, clean: bool)
    requires Tidy(m, clean) && id in m.shards
    ensures Tidy(Place(m, id, request), clean)
  {
    hide Sequenced, Dedicated, Hopeful;
    assert Place(m, id, request).shards.Keys == m.shards.Keys;
  }

  lemma ReselectElsewhere(m: Manager, key: Key)
    ensures Elsewhere(m, Reselect(m, key))
  {
  }

  lemma ReleaseElsewhere(m: Manager, session: Name, generation: nat)
    ensures Elsewhere(m, Release(m, session, generation))
  {
    hide Elsewhere, Leave, Reselect, MarkReleased;
    StillElsewhere(m);
    var marked := MarkReleased(m, session, generation);
    MarkElsewhere(m, session, generation);
    if session in m.placements {
      ReleasePlacedElsewhere(marked, session, generation);
      ElsewhereTwice(m, marked, ReleasePlaced(marked, session, generation));
    } else if AwaitsCleanup(m, session, generation) {
      ReselectElsewhere(marked, m.cleanups[session].key);
      ElsewhereTwice(m, marked, Reselect(marked, m.cleanups[session].key));
    }
  }

  lemma MarkElsewhere(m: Manager, session: Name, generation: nat)
    ensures Elsewhere(m, MarkReleased(m, session, generation))
            && MarkReleased(m, session, generation).placements == m.placements
  {
  }

  lemma ReleasePlacedElsewhere(m: Manager, session: Name, generation: nat)
    requires session in m.placements
    ensures Elsewhere(m, ReleasePlaced(m, session, generation))
  {
    hide Leave, Remember;
    LeaveElsewhere(m, session, MemoryOf(m, session));
  }

  lemma ObserveElsewhere(m: Manager, sample: Sample)
    ensures Elsewhere(m, Observe(m, sample))
  {
    hide Elsewhere, Rehouse, Seen;
    StillElsewhere(m);
    if sample.shardId in m.shards {
      RehouseElsewhere(m, sample.shardId, Seen(m.shards[sample.shardId], sample, m.limits.watermark));
    }
  }

  lemma StopsElsewhere(m: Manager, e: nat, outcome: StopOutcome)
    ensures Elsewhere(m, StartStop(m, e)) && Elsewhere(m, StopReturns(m, e, outcome)) && Elsewhere(m, m.(gate := Free))
  {
    hide LedgerAfter, GoneAfter;
  }

  lemma {:induction false} RetireAllElsewhere(m: Manager, ids: seq<Name>)
    ensures Elsewhere(m, RetireAll(m, ids))
  {
    hide Elsewhere, RetireShard;
    StillElsewhere(m);
    if ids != [] {
      var before, id := RetireAll(m, ids[..|ids| - 1]), ids[|ids| - 1];
      RetireAllElsewhere(m, ids[..|ids| - 1]);
      if id in before.shards {
        RetireElsewhere(before, id);
        ElsewhereTwice(m, before, RetireShard(before, id));
      }
    }
  }

  lemma RetireElsewhere(m: Manager, id: Name)
    requires id in m.shards
    ensures Elsewhere(m, RetireShard(m, id))
  {
  }

  lemma {:induction false} ReselectAllElsewhere(m: Manager, keys: seq<Key>)
    ensures Elsewhere(m, ReselectAll(m, keys))
  {
    hide Elsewhere, Reselect;
    StillElsewhere(m);
    if keys != [] {
      var before := ReselectAll(m, keys[..|keys| - 1]);
      ReselectAllElsewhere(m, keys[..|keys| - 1]);
      ReselectElsewhere(before, keys[|keys| - 1]);
      ElsewhereTwice(m, before, Reselect(before, keys[|keys| - 1]));
    }
  }

  lemma DrainElsewhere(m: Manager, ids: seq<Name>, keys: seq<Key>)
    ensures Elsewhere(m, Drain(m, ids, keys))
  {
    hide RetireAll, ReselectAll;
    RetireAllElsewhere(m, ids);
    ReselectAllElsewhere(RetireAll(m, ids), keys);
  }

  // ----- moves of one launch -----

  /** One launch changes, and no more than before hangs on it. */
  ghost predicate Recast(m: Manager, n: Manager, g: nat, launch: Launch) {
    && g in m.launches && n.launches == m.launches[g := launch] && launch.spec == m.launches[g].spec
    && (Hopeful(launch) ==> Hopeful(m.launches[g])) && n.nextSequence == m.nextSequence && n.shards == m.shards
  }

  lemma RecastTidy(m: Manager, n: Manager, g: nat, launch: Launch, clean: bool)
    requires Tidy(m, clean) && Recast(m, n, g, launch) && n.retryIds == m.retryIds
    ensures Tidy(n, clean)
  {
    hide Hopeful;
  }

  /** The launch's identifier may be tried again. */
  lemma RetryTidy(m: Manager, n: Manager, g: nat, launch: Launch, clean: bool)
    requires Tidy(m, clean) && Recast(m, n, g, launch)
    requires n.retryIds == m.retryIds[launch.spec.scope := launch.spec.shardId]
    requires clean ==> launch.spec.shardId !in m.shards
    ensures Tidy(n, clean)
  {
    hide Hopeful, Dedicated, Sequenced;
    RetryNames(m.launches, m.retryIds, m.nextSequence, g, launch);
  }

  lemma RetryNames(launches: map<nat, Launch>, retryIds: map<ScopeKey, Name>, next: nat, g: nat, launch: Launch)
    requires Sequenced(launches, retryIds, next) && Dedicated(launches, retryIds)
    requires g in launches && launch.spec == launches[g].spec
    ensures var after := retryIds[launch.spec.scope := launch.spec.shardId];
            Sequenced(launches[g := launch], after, next) && Dedicated(launches[g := launch], after)
  {
  }

  lemma FailTidy(m: Manager, g: nat, clean: bool)
    requires Tidy(m, clean) && g in m.launches && Active(m.launches[g])
    ensures Tidy(Fail(m, g), clean)
  {
    hide Tidy, ScopesWithout, SessionsWithout;
    HopefulApart(m, g, clean);
    RetryTidy(m, Fail(m, g), g, InPhase(m.launches[g], Errored), clean);
  }

  lemma HopefulApart(m: Manager, g: nat, clean: bool)
    requires Tidy(m, clean) && g in m.launches && Hopeful(m.launches[g])
    ensures clean ==> m.launches[g].spec.shardId !in m.shards
  {
    hide Sequenced, Dedicated, Hopeful;
  }

  lemma TransferTidy(m: Manager, g: nat, clean: bool)
    requires Tidy(m, clean) && g in m.launches && m.launches[g].phase == Ran
    requires clean ==> m.launches[g].spec.shardId !in m.shards
    ensures Tidy(Transfer(m, g), clean)
  {
    hide Tidy, ScopesWithout, SessionsWithout, TrackOnce, FileOnce;
    RetryTidy(m, Transfer(m, g), g, GiveOnce(m.launches[g], |m.epochs|), clean);
  }

  lemma MarkTidy(m: Manager, g: nat, clean: bool)
    requires Tidy(m, clean) && g in m.launches && (clean ==> m.launches[g].spec.shardId !in m.shards)
    ensures Tidy(MarkAbandoned(m, g), clean)
  {
    hide Tidy;
    RetryTidy(m, MarkAbandoned(m, g), g, AbandonUnfinished(m.launches[g]), clean);
  }

  lemma PunchTidy(m: Manager, ticket: nat, clean: bool)
    requires Tidy(m, clean) && ticket in m.claims && m.claims[ticket].launch in m.launches
    ensures Tidy(PunchTicket(m, ticket), clean)
  {
    hide Tidy;
    var g := m.claims[ticket].launch;
    RecastTidy(m, PunchTicket(m, ticket), g, WithoutTicket(m.launches[g], ticket), clean);
  }

  lemma JoinTidy(m: Manager, g: nat, request: Request, clean: bool)
    requires Tidy(m, clean) && g in m.launches && Active(m.launches[g])
    ensures Tidy(Join(m, g, request), clean)
  {
    hide Tidy;
    RecastTidy(m, Join(m, g, request), g, WithTicket(m.launches[g], request.session, m.nextTicket), clean);
  }

  lemma ReturnsTidy(m: Manager, g: nat, present: bool, valid: bool, clean: bool)
    requires Tidy(m, clean)
    ensures Tidy(LaunchReturns(m, g, present, valid), clean) && Tidy(LaunchEnds(m, g), clean)
  {
    hide Tidy, Fail;
    if g in m.launches {
      if m.launches[g].phase == Starting {
        FailTidy(m, g, clean);
        RecastTidy(m, Keep(m, g), g, InPhase(m.launches[g], Ran), clean);
        RecastTidy(m, Reject(m, g), g, InPhase(m.launches[g], Rejecting(|m.epochs|)), clean);
      } else if m.launches[g].phase.Rejecting? {
        FailTidy(m, g, clean);
      }
    }
  }

  // ----- Acquire -----

  /** A new launch takes the identifier to be tried again, or the next sequence number. */
  lemma BeginTidy(m: Manager, request: Request, clean: bool)
    requires Tidy(m, clean) && m.nextGeneration !in m.launches && Housed(m.shards, m.launches)
    ensures Tidy(BeginLaunch(m, request), clean)
  {
    hide Hopeful, ScopeOf, After, Sequenced, Dedicated, Clean, Housed;
    var n, spec := BeginLaunch(m, request), NewSpec(m, request);
    var launch := FirstLaunch(spec, request.session, m.nextTicket);
    assert n.launches == m.launches[m.nextGeneration := launch];
    NamesOneMore(m, request, launch);
    if clean {
      NewIdentifier(m, request);
      CleanRetry(m, ScopeOf(request));
      CleanOneMore(m.launches, m.retryIds, m.shards, m.nextGeneration, launch);
    }
  }

  lemma CleanRetry(m: Manager, scope: ScopeKey)
    requires Clean(m.launches, m.retryIds, m.shards)
    ensures !LiveRetry(m, scope)
  {
  }

  lemma CleanOneMore(launches: map<nat, Launch>, retryIds: map<ScopeKey, Name>, shards: map<Name, Shard>, g: nat,
                     launch: Launch)
    requires Clean(launches, retryIds, shards) && launch.spec.shardId !in shards
    ensures Clean(launches[g := launch], retryIds, shards)
  {
    hide Hopeful;
  }

  lemma NamesOneMore(m: Manager, request: Request, launch: Launch)
    requires Sequenced(m.launches, m.retryIds, m.nextSequence) && Dedicated(m.launches, m.retryIds)
    requires m.nextGeneration !in m.launches && launch.spec == NewSpec(m, request)
    ensures var n := BeginLaunch(m, request);
            && Sequenced(m.launches[m.nextGeneration := launch], m.retryIds, n.nextSequence) && n.retryIds == m.retryIds
            && Dedicated(m.launches[m.nextGeneration := launch], m.retryIds) && n.shards == m.shards
  {
    hide ScopeOf, After, FirstLaunch, Sequenced, Dedicated;
    var n, scope := BeginLaunch(m, request), ScopeOf(request);
    MoreSequenced(m.launches, m.retryIds, m.nextSequence, n.nextSequence, m.nextGeneration, launch);
    MoreDedicated(m.launches, m.retryIds, m.nextSequence, m.nextGeneration, launch);
  }

  lemma MoreSequenced(launches: map<nat, Launch>, retryIds: map<ScopeKey, Name>, next: nat, later: nat, g: nat,
                      launch: Launch)
    requires Sequenced(launches, retryIds, next) && next <= later
    requires if launch.spec.scope in retryIds then launch.spec.shardId == retryIds[launch.spec.scope]
             else launch.spec.shardId == next < later
    ensures Sequenced(launches[g := launch], retryIds, later)
  {
  }

  lemma MoreDedicated(launches: map<nat, Launch>, retryIds: map<ScopeKey, Name>, next: nat, g: nat, launch: Launch)
    requires Sequenced(launches, retryIds, next) && Dedicated(launches, retryIds) && g !in launches
    requires if launch.spec.scope in retryIds then launch.spec.shardId == retryIds[launch.spec.scope]
             else launch.spec.shardId == next
    ensures Dedicated(launches[g := launch], retryIds)
  {
  }

  /** The exact condition under which a launch begins under the identifier of a live shard. */
  lemma NewIdentifier(m: Manager, request: Request)
    requires Sequenced(m.launches, m.retryIds, m.nextSequence) && Housed(m.shards, m.launches)
    ensures NewSpec(m, request).shardId in m.shards <==> LiveRetry(m, ScopeOf(request))
  {
    hide ScopeOf;
    assert m.nextSequence !in m.shards;
  }

  /** The scope's next launch would take the identifier of a live shard. */
  predicate LiveRetry(m: Manager, scope: ScopeKey) {
    scope in m.retryIds && m.retryIds[scope] in m.shards
  }

  lemma NewGeneration(m: Manager)
    requires Sound(m) && m.nextGeneration != 0
    ensures m.nextGeneration !in m.launches && Housed(m.shards, m.launches)
  {
    hide Phased, Owned, Filed, Chained, Traced, Callers, Gated;
  }

  lemma SettleTidy(m: Manager, request: Request, choice: Choice, clean: bool)
    requires Sound(m) && !m.closed && Tidy(m, clean)
    ensures Tidy(Settle(m, request, choice), clean)
  {
    hide Sound, Tidy, ExpireAll, Place, Join, BeginLaunch, Best, Candidate;
    var scanned := ExpireAll(m, choice.order, request.now);
    Safety.ExpireAllSound(m, choice.order, request.now);
    ExpireAllElsewhere(m, choice.order, request.now);
    ElsewhereTidy(m, scanned, clean);
    if exists id :: Candidate(scanned, id, request) {
      if Best(scanned, choice.candidate, request) {
        Safety.BestPlaced(scanned, choice.candidate, request);
        PlaceTidy(scanned, choice.candidate, request, clean);
      }
    } else if ScopeOf(request) in scanned.pendingScopes {
      Safety.ScopeActive(scanned, ScopeOf(request));
      JoinTidy(scanned, scanned.pendingScopes[ScopeOf(request)], request, clean);
    } else if scanned.nextGeneration != 0 {
      NewGeneration(scanned);
      BeginTidy(scanned, request, clean);
    }
  }

  lemma AcquireTidy(m: Manager, request: Request, choice: Choice, clean: bool)
    requires Sound(m) && Tidy(m, clean)
    ensures Tidy(Acquire(m, request, choice), clean)
  {
    hide Sound, Tidy, Supersede, Settle, Reselect, Join;
    if !m.closed && Admissible(m, request) {
      if request.session in m.pendingSessions {
        Safety.SessionActive(m, request.session);
        JoinTidy(m, m.pendingSessions[request.session], request, clean);
      } else if Current(m, request) {
        var fenced := Supersede(m, request);
        Safety.SupersedeSound(m, request);
        SupersedeElsewhere(m, request);
        ElsewhereTidy(m, fenced, clean);
        if exists key :: Prior(fenced, ScopeOf(request), key) {
          ReselectElsewhere(fenced, choice.prior);
          ElsewhereTidy(fenced, Reselect(fenced, choice.prior), clean);
        } else {
          SettleTidy(fenced, request, choice, clean);
        }
      }
    }
  }

  // ----- callers leave -----

  /** The last caller of a failed launch is cancelled while a live shard has the launch's identifier. */
  predicate Revives(m: Manager, step: Step) {
    && step.LeavesStep? && step.cancelled && step.ticket in m.claims && m.claims[step.ticket].launch in m.launches
    && var launch := m.launches[m.claims[step.ticket].launch];
       launch.phase == Errored && launch.waiters == 1 && launch.spec.shardId in m.shards
  }

  /** A caller's own launch is failed, or hopeful. */
  lemma TicketHopeful(m: Manager, ticket: nat)
    requires Sound(m) && ticket in m.claims
    ensures m.claims[ticket].launch in m.launches
    ensures var launch := m.launches[m.claims[ticket].launch];
            ticket in launch.tickets && (launch.phase == Errored || launch.adopted || Hopeful(launch))
  {
    hide Numbered, Housed, Owned, Filed, Chained, Traced, Barriers, Waiting, Renounced, Gated;
  }

  lemma GiveUpTidy(m: Manager, g: nat, clean: bool)
    requires Tidy(m, clean) && g in m.launches
    requires clean && m.launches[g].waiters == 0 && !m.launches[g].adopted ==> m.launches[g].spec.shardId !in m.shards
    ensures Tidy(GiveUp(m, g), clean)
  {
    hide Tidy, Transfer, MarkAbandoned;
    if m.launches[g].waiters == 0 && !m.launches[g].adopted {
      if m.launches[g].phase == Ran {
        TransferTidy(m, g, clean);
      } else {
        MarkTidy(m, g, clean);
      }
    }
  }

  /** The only hopeful launch under an identifier is the one that is adopted. */
  lemma AdoptTidy(m: Manager, claim: Claim, clean: bool)
    requires Sound(m) && !m.closed && Tidy(m, clean) && claim.launch in m.launches && Holds(m.launches[claim.launch])
    ensures Tidy(Adopt(m, claim), clean)
  {
    hide Tidy, RemovePending;
    AdmitTidy(m, claim, clean);
    var admitted := Admit(m, claim);
    RemoveElsewhere(admitted, claim.launch);
    ElsewhereTidy(admitted, RemovePending(admitted, claim.launch), clean);
  }

  lemma RemoveElsewhere(m: Manager, g: nat)
    requires g in m.launches
    ensures Elsewhere(m, RemovePending(m, g))
  {
    hide ScopesWithout, SessionsWithout;
  }

  lemma AdmitTidy(m: Manager, claim: Claim, clean: bool)
    requires Sound(m) && !m.closed && Tidy(m, clean) && claim.launch in m.launches && Holds(m.launches[claim.launch])
    ensures Tidy(Admit(m, claim), clean)
  {
    hide Sound, NewShard, PlacementOf, Sequenced, Dedicated, Clean, Forget;
    var g := claim.launch;
    var launch := Adopted(m.launches[g]);
    ForgetNames(m.launches, m.retryIds, m.nextSequence, g, launch);
    if clean {
      OnlyHopeful(m, g);
      AdmitClean(m.launches, m.retryIds, m.shards, g, launch, NewShard(m.launches[g].spec, claim.request));
    }
  }

  lemma ForgetNames(launches: map<nat, Launch>, retryIds: map<ScopeKey, Name>, next: nat, g: nat, launch: Launch)
    requires Sequenced(launches, retryIds, next) && Dedicated(launches, retryIds) && g in launches
             && launch.spec == launches[g].spec
    ensures Sequenced(launches[g := launch], Forget(retryIds, launch.spec), next)
    ensures Dedicated(launches[g := launch], Forget(retryIds, launch.spec))
  {
  }

  ghost predicate Alone(launches: map<nat, Launch>, g: nat)
    requires g in launches
  {
    forall h | h in launches && Hopeful(launches[h]) && launches[h].spec.shardId == launches[g].spec.shardId :: h == g
  }

  lemma OnlyHopeful(m: Manager, g: nat)
    requires Sound(m) && !m.closed && Dedicated(m.launches, m.retryIds) && g in m.launches && Holds(m.launches[g])
    ensures Alone(m.launches, g)
  {
    hide Processes, Waiting, Ticketed, Gated;
    forall h | h in m.launches && Hopeful(m.launches[h]) && m.launches[h].spec.shardId == m.launches[g].spec.shardId
      ensures h == g {
      assert Active(m.launches[h]) && Active(m.launches[g]);
    }
  }

  lemma AdmitClean(launches: map<nat, Launch>, retryIds: map<ScopeKey, Name>, shards: map<Name, Shard>, g: nat,
                   launch: Launch, shard: Shard)
    requires Clean(launches, retryIds, shards) && Dedicated(launches, retryIds) && g in launches && Alone(launches, g)
    requires launch.spec == launches[g].spec && !Hopeful(launch)
    ensures Clean(launches[g := launch], Forget(retryIds, launch.spec), shards[launch.spec.shardId := shard])
  {
    hide Hopeful;
  }

  lemma ConcludesTidy(m: Manager, claim: Claim, clean: bool)
    requires Sound(m) && Tidy(m, clean) && claim.launch in m.launches
    requires m.launches[claim.launch].phase == Ran || m.launches[claim.launch].phase == Errored
    requires m.closed || m.launches[claim.launch].cleanup.Kept?
    requires clean && m.launches[claim.launch].phase == Ran && !m.launches[claim.launch].adopted ==>
               m.launches[claim.launch].spec.shardId !in m.shards
    ensures Tidy(Concludes(m, claim), clean)
  {
    hide Sound, Tidy, Transfer, Adopt, Adoptable;
    if m.launches[claim.launch].phase == Ran && !m.launches[claim.launch].adopted {
      TransferTidy(m, claim.launch, clean);
      if !m.closed {
        AdoptTidy(m, claim, clean);
      }
    }
  }

  lemma PunchSame(m: Manager, ticket: nat)
    requires ticket in m.claims && m.claims[ticket].launch in m.launches
    ensures var n, g := PunchTicket(m, ticket), m.claims[ticket].launch;
            && g in n.launches && n.shards == m.shards && n.closed == m.closed
            && n.launches[g] == WithoutTicket(m.launches[g], ticket)
  {
  }

  lemma LeavesTidy(m: Manager, ticket: nat, cancelled: bool, clean: bool)
    requires Sound(m) && Tidy(m, clean) && (clean ==> !Revives(m, LeavesStep(ticket, cancelled)))
    ensures Tidy(Leaves(m, ticket, cancelled), clean)
  {
    hide Sound, Tidy, Concludes, GiveUp, PunchTicket, Hopeful;
    if MayLeave(m, ticket, cancelled) {
      var g := m.claims[ticket].launch;
      TicketHopeful(m, ticket);
      Safety.PunchKeeps(m, ticket);
      PunchTidy(m, ticket, clean);
      PunchSame(m, ticket);
      if Hopeful(m.launches[g]) {
        HopefulApart(m, g, clean);
      }
      if cancelled {
        GiveUpTidy(PunchTicket(m, ticket), g, clean);
      } else {
        TicketKept(m, ticket);
        ConcludesTidy(PunchTicket(m, ticket), m.claims[ticket], clean);
      }
    }
  }

  lemma TicketKept(m: Manager, ticket: nat)
    requires Sound(m) && ticket in m.claims && m.claims[ticket].launch in m.launches
    ensures m.closed || m.launches[m.claims[ticket].launch].cleanup.Kept?
  {
    hide Processes, Callers, Gated;
    Safety.StillHeld(m, ticket);
  }

  // ----- Shutdown -----

  lemma BarredActive(m: Manager, g: nat)
    requires Sound(m) && Barred(m, g)
    ensures Active(m.launches[g])
  {
    hide Processes, Waiting, Ticketed, Renounced, Gated, Active;
  }

  lemma {:induction false} TransferAllTidy(m: Manager, finished: seq<nat>, clean: bool)
    requires Sound(m) && m.closed && Tidy(m, clean)
    ensures Tidy(TransferAll(m, finished), clean)
  {
    hide Sound, Tidy, Transfer, Active;
    if finished != [] {
      var before, g := TransferAll(m, finished[..|finished| - 1]), finished[|finished| - 1];
      TransferAllTidy(m, finished[..|finished| - 1], clean);
      Safety.TransferAllSound(m, finished[..|finished| - 1]);
      if Barred(before, g) {
        BarredActive(before, g);
        HopefulApart(before, g, clean);
        TransferTidy(before, g, clean);
      }
    }
  }

  lemma GatesElsewhere(m: Manager)
    ensures Elsewhere(m, Closed(m)) && Elsewhere(m, Regate(m)) && Closed(m).closed
  {
  }

  lemma CloseTidy(m: Manager, finished: seq<nat>, clean: bool)
    requires Sound(m) && Tidy(m, clean)
    ensures Tidy(Close(m, finished), clean)
  {
    hide Sound, Tidy, TransferAll, Regate, Barred, Closed;
    GatesElsewhere(m);
    Safety.ClosedSound(m);
    ElsewhereTidy(m, Closed(m), clean);
    TransferAllTidy(Closed(m), finished, clean);
    var moved := TransferAll(Closed(m), finished);
    GatesElsewhere(moved);
    ElsewhereTidy(moved, Regate(moved), clean);
  }

  // ----- runs -----

  lemma NextTidy(m: Manager, step: Step, clean: bool)
    requires Sound(m) && Tidy(m, clean) && (clean ==> !Revives(m, step))
    ensures Tidy(Next(m, step), clean)
  {
    hide Sound, Tidy, Revives, Acquire, Leaves, LaunchReturns, LaunchEnds, StartStop, StopReturns, Release, Observe,
         Close, Drain, Elsewhere;
    match step
    case AcquireStep(request, choice) => AcquireTidy(m, request, choice, clean);
    case LeavesStep(ticket, cancelled) => LeavesTidy(m, ticket, cancelled, clean);
    case LaunchReturnsStep(g, present, valid) => ReturnsTidy(m, g, present, valid, clean);
    case LaunchEndsStep(g) => ReturnsTidy(m, g, true, true, clean);
    case StartStopStep(e) =>
      StopsElsewhere(m, e, Unresolved);
      ElsewhereTidy(m, StartStop(m, e), clean);
    case StopReturnsStep(e, outcome) =>
      StopsElsewhere(m, e, outcome);
      ElsewhereTidy(m, StopReturns(m, e, outcome), clean);
    case ReleaseStep(session, generation) =>
      ReleaseElsewhere(m, session, generation);
      ElsewhereTidy(m, Release(m, session, generation), clean);
    case ObserveStep(sample) =>
      ObserveElsewhere(m, sample);
      ElsewhereTidy(m, Observe(m, sample), clean);
    case CloseStep(finished) => CloseTidy(m, finished, clean);
    case DrainStep(ids, keys) =>
      DrainElsewhere(m, ids, keys);
      ElsewhereTidy(m, Drain(m, ids, keys), clean);
    case ShutdownReturnsStep =>
      StopsElsewhere(m, 0, Unresolved);
      ElsewhereTidy(m, m.(gate := Free), clean);
  }

  ghost predicate NeverRevives(limits: Limits, steps: seq<Step>) {
    forall i | 0 <= i < |steps| :: !Revives(Run(Initial(limits), steps[..i]), steps[i])
  }

  lemma {:induction false} RunTidy(limits: Limits, steps: seq<Step>, clean: bool)
    requires clean ==> NeverRevives(limits, steps)
    ensures Tidy(Run(Initial(limits), steps), clean)
  {
    hide Tidy, Next, Revives, Initial;
    if steps == [] {
      InitialTidy(limits, clean);
    } else {
      var front := steps[..|steps| - 1];
      assert forall i | 0 <= i < |front| :: front[..i] == steps[..i];
      RunTidy(limits, front, clean);
      Safety.RunSound(limits, front);
      NextTidy(Run(Initial(limits), front), steps[|steps| - 1], clean);
    }
  }

  lemma InitialTidy(limits: Limits, clean: bool)
    ensures Tidy(Initial(limits), clean)
  {
  }

  // ----- what it means -----

  /** An identifier of a live shard is to be tried again only after a cancellation put it there. */
  lemma LiveRetryWasRevived(limits: Limits, steps: seq<Step>, scope: ScopeKey)
    requires LiveRetry(Run(Initial(limits), steps), scope)
    ensures exists i :: 0 <= i < |steps| && Revives(Run(Initial(limits), steps[..i]), steps[i])
  {
    hide Revives, Run, Initial, Sequenced, Dedicated;
    if NeverRevives(limits, steps) {
      RunTidy(limits, steps, true);
      CleanRetry(Run(Initial(limits), steps), scope);
    }
  }

  /** Every such cancellation puts one there: the last caller of a failed launch is cancelled
      while a live shard has the launch's identifier. */
  lemma RevivalIsLive(limits: Limits, steps: seq<Step>, step: Step)
    requires Revives(Run(Initial(limits), steps), step)
    ensures var m := Run(Initial(limits), steps);
            var scope := m.launches[m.claims[step.ticket].launch].spec.scope;
            LiveRetry(Next(m, step), scope)
            && Next(m, step).retryIds[scope] == m.launches[m.claims[step.ticket].launch].spec.shardId
  {
    hide Run, Initial, Sound;
    var m := Run(Initial(limits), steps);
    Safety.RunSound(limits, steps);
    RevivalRetries(m, step.ticket);
  }

  lemma RevivalRetries(m: Manager, ticket: nat)
    requires Sound(m) && Revives(m, LeavesStep(ticket, true))
    ensures var launch, n := m.launches[m.claims[ticket].launch], Leaves(m, ticket, true);
            n.retryIds == m.retryIds[launch.spec.scope := launch.spec.shardId] && n.shards == m.shards
  {
    hide Callers, Gated, Numbered, Housed, Owned, Filed, Chained, Traced;
    assert !m.launches[m.claims[ticket].launch].adopted;
  }

  /** A launch takes the identifier of a live shard if and only if its scope's identifier to be tried again is one. */
  lemma LaunchTakesLiveIdentifier(limits: Limits, steps: seq<Step>, request: Request, choice: Choice)
    requires var m := Run(Initial(limits), steps);
             m.nextGeneration !in m.launches && m.nextGeneration in Acquire(m, request, choice).launches
    ensures var m := Run(Initial(limits), steps);
            var n := Acquire(m, request, choice);
            && n.shards.Keys == m.shards.Keys
            && (n.launches[m.nextGeneration].spec.shardId in n.shards <==> LiveRetry(m, ScopeOf(request)))
  {
    hide Run, Initial;
    var m := Run(Initial(limits), steps);
    Safety.RunSound(limits, steps);
    RunTidy(limits, steps, false);
    AcquireBegins(m, request, choice);
  }

  lemma AcquireBegins(m: Manager, request: Request, choice: Choice)
    requires Sound(m) && Tidy(m, false)
    requires m.nextGeneration !in m.launches && m.nextGeneration in Acquire(m, request, choice).launches
    ensures var n := Acquire(m, request, choice);
            && n.shards.Keys == m.shards.Keys
            && (n.launches[m.nextGeneration].spec.shardId in n.shards <==> LiveRetry(m, ScopeOf(request)))
  {
    hide Sound, Tidy, Supersede, Settle, Reselect, Join, ScopeOf, LiveRetry;
    assert !m.closed && Admissible(m, request);
    if request.session in m.pendingSessions {
      Safety.SessionActive(m, request.session);
      Safety.JoinLaunches(m, m.pendingSessions[request.session], request);
    } else {
      var fenced := Supersede(m, request);
      Safety.SupersedeSound(m, request);
      SupersedeElsewhere(m, request);
      ElsewhereTidy(m, fenced, false);
      if exists key :: Prior(fenced, ScopeOf(request), key) {
        Safety.ReselectLaunches(fenced, choice.prior);
      } else if |fenced.epochs| == |m.epochs| {
        SettleBegins(fenced, request, choice);
        SameLiveRetry(m, fenced, ScopeOf(request));
      }
    }
  }

  lemma SameLiveRetry(m: Manager, n: Manager, scope: ScopeKey)
    requires n.retryIds == m.retryIds && n.shards.Keys == m.shards.Keys
    ensures LiveRetry(m, scope) <==> LiveRetry(n, scope)
  {
  }

  lemma SettleBegins(m: Manager, request: Request, choice: Choice)
    requires Sound(m) && !m.closed && Tidy(m, false)
    requires m.nextGeneration !in m.launches && m.nextGeneration in Settle(m, request, choice).launches
    ensures var n := Settle(m, request, choice);
            && n.shards.Keys == m.shards.Keys
            && (n.launches[m.nextGeneration].spec.shardId in n.shards <==> LiveRetry(m, ScopeOf(request)))
  {
    hide Sound, Tidy, ExpireAll, Place, Join, BeginLaunch, Best, Candidate, ScopeOf, LiveRetry;
    var scanned := ExpireAll(m, choice.order, request.now);
    Safety.ExpireAllSound(m, choice.order, request.now);
    ExpireAllElsewhere(m, choice.order, request.now);
    ElsewhereTidy(m, scanned, false);
    if exists id :: Candidate(scanned, id, request) {
      if Best(scanned, choice.candidate, request) {
        Safety.BestPlaced(scanned, choice.candidate, request);
        Safety.PlaceLaunches(scanned, choice.candidate, request);
      }
    } else if ScopeOf(request) in scanned.pendingScopes {
      Safety.ScopeActive(scanned, ScopeOf(request));
      Safety.JoinLaunches(scanned, scanned.pendingScopes[ScopeOf(request)], request);
    } else if |scanned.epochs| == |m.epochs| && scanned.nextGeneration != 0 {
      NewGeneration(scanned);
      BeginIdentifier(scanned, request);
      SameLiveRetry(m, scanned, ScopeOf(request));
    }
  }

  lemma BeginIdentifier(m: Manager, request: Request)
    requires Tidy(m, false) && Housed(m.shards, m.launches)
    ensures var n := BeginLaunch(m, request);
            && n.shards == m.shards && n.launches.Keys == m.launches.Keys + {m.nextGeneration}
            && (n.launches[m.nextGeneration].spec.shardId in n.shards <==> LiveRetry(m, ScopeOf(request)))
  {
    hide ScopeOf, LiveRetry, Dedicated, Sequenced, Housed, NewSpec;
    NewIdentifier(m, request);
  }
}
