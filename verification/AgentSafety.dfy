/** The ownership invariant over whole runs of the manager, and what it gives:
    no leaked process, one stop at a time, and a shutdown that means what it says. */
module AgentSafety {
  import opened Common
  import opened AgentManager
  import opened AgentOwnership

  // ----- callers and barriers -----

  /** The callers' side of two launch records agrees. */
  predicate SameWaiters(before: Launch, after: Launch) {
    && after.spec == before.spec && after.sessions == before.sessions && after.tickets == before.tickets
    && after.waiters == before.waiters && after.cleanup == before.cleanup
  }

  ghost predicate SameCallers(m: Manager, n: Manager) {
    && n.launches == m.launches && n.pendingScopes == m.pendingScopes && n.pendingSessions == m.pendingSessions
    && n.claims == m.claims && n.nextTicket == m.nextTicket && n.closed == m.closed
  }

  lemma CallersKeep(m: Manager, n: Manager)
    requires Callers(m) && SameCallers(m, n)
    ensures Callers(n)
  {
  }

  /** A launch record changes without ceasing to bar its scope. */
  lemma RecordKeeps(m: Manager, n: Manager, g: nat, launch: Launch)
    requires Callers(m) && g in m.launches && SameWaiters(m.launches[g], launch)
    requires Active(m.launches[g]) <==> Active(launch)
    requires SameCallers(With(m, g, launch), n)
    ensures Callers(n)
  {
    hide Active, Barriers, Waiting, Ticketed, Renounced;
    RecordBarriers(m, g, launch);
    assert launch.cleanup.Kept? || m.closed || launch.tickets == {} by {
      assert Renounced(m.launches, m.closed);
      RenouncedAt(m.launches, m.closed, g);
    }
    TicketsSame(m, g, launch);
  }

  lemma RenouncedAt(launches: map<nat, Launch>, closed: bool, g: nat)
    requires Renounced(launches, closed) && g in launches
    ensures launches[g].cleanup.Kept? || closed || launches[g].tickets == {}
  {
  }

  lemma RecordBarriers(m: Manager, g: nat, launch: Launch)
    requires Barriers(m.pendingScopes, m.launches) && Waiting(m.pendingSessions, m.launches)
    requires g in m.launches && SameWaiters(m.launches[g], launch) && (Active(m.launches[g]) <==> Active(launch))
    ensures Barriers(m.pendingScopes, m.launches[g := launch]) && Waiting(m.pendingSessions, m.launches[g := launch])
  {
    hide Active;
  }

  predicate Retires(m: Manager, g: nat, launch: Launch) {
    && g in m.launches && !Active(launch)
    && launch.spec == m.launches[g].spec && launch.sessions == m.launches[g].sessions
    && launch.tickets == m.launches[g].tickets && launch.waiters == m.launches[g].waiters
    && (launch.cleanup.Kept? || m.closed || launch.tickets == {})
  }

  /** A launch stops barring its scope: the barrier goes, and with it its waiting sessions. */
  lemma BarrierLifted(m: Manager, n: Manager, g: nat, launch: Launch)
    requires Callers(m) && Retires(m, g, launch)
    requires SameCallers(Unbar(m, g, launch), n)
    ensures Callers(n)
    ensures StaysUnbarred(m, n)
  {
    hide Active, Ticketed, Renounced;
    ScopesLifted(m.pendingScopes, m.launches, g, launch);
    SessionsLifted(m.pendingSessions, m.launches, g, launch);
    TicketsSame(m, g, launch);
  }

  lemma ScopesLifted(scopes: map<ScopeKey, nat>, launches: map<nat, Launch>, g: nat, launch: Launch)
    requires Barriers(scopes, launches) && g in launches && launch.spec == launches[g].spec && !Active(launch)
    ensures Barriers(ScopesWithout(scopes, launch.spec.scope, g), launches[g := launch])
    ensures scopes == map[] ==> ScopesWithout(scopes, launch.spec.scope, g) == map[]
  {
    hide Active;
  }

  lemma SessionsLifted(sessions: map<Name, nat>, launches: map<nat, Launch>, g: nat, launch: Launch)
    requires Waiting(sessions, launches) && g in launches && launch.sessions == launches[g].sessions
    ensures Waiting(SessionsWithout(sessions, launch.sessions, g), launches[g := launch])
  {
    hide Active;
  }

  lemma TicketsSame(m: Manager, g: nat, launch: Launch)
    requires g in m.launches && Ticketed(m.claims, m.launches, m.nextTicket) && Renounced(m.launches, m.closed)
    requires launch.tickets == m.launches[g].tickets && launch.waiters == m.launches[g].waiters
    requires launch.cleanup.Kept? || m.closed || launch.tickets == {}
    ensures Ticketed(m.claims, m.launches[g := launch], m.nextTicket) && Renounced(m.launches[g := launch], m.closed)
  {
  }

  lemma JoinCallers(m: Manager, g: nat, request: Request)
    requires Callers(m) && g in m.launches && Active(m.launches[g]) && m.launches[g].cleanup.Kept?
    ensures Callers(Join(m, g, request))
  {
    hide Barriers, Waiting, Ticketed, Renounced, Active;
    var before := m.launches[g];
    var after := WithTicket(before, request.session, m.nextTicket);
    JoinBarriers(m, g, after, request.session);
    JoinTickets(m, g, after, request);
  }

  lemma JoinBarriers(m: Manager, g: nat, after: Launch, session: Name)
    requires Barriers(m.pendingScopes, m.launches) && Waiting(m.pendingSessions, m.launches)
             && Renounced(m.launches, m.closed)
    requires g in m.launches && Active(m.launches[g]) && after.cleanup.Kept?
    requires after.spec == m.launches[g].spec && after.phase == m.launches[g].phase
             && after.adopted == m.launches[g].adopted
    requires after.cleanup == m.launches[g].cleanup && after.sessions == m.launches[g].sessions + {session}
    ensures Barriers(m.pendingScopes, m.launches[g := after])
    ensures Waiting(m.pendingSessions[session := g], m.launches[g := after])
    ensures Renounced(m.launches[g := after], m.closed)
  {
  }

  lemma JoinTickets(m: Manager, g: nat, after: Launch, request: Request)
    requires Ticketed(m.claims, m.launches, m.nextTicket) && g in m.launches
    requires after.tickets == m.launches[g].tickets + {m.nextTicket} && after.waiters == m.launches[g].waiters + 1
    ensures Ticketed(m.claims[m.nextTicket := Claim(g, request)], m.launches[g := after], m.nextTicket + 1)
  {
    forall t | t in m.launches[g].tickets ensures t < m.nextTicket {
      assert t in m.claims;
    }
    var launches, claims := m.launches[g := after], m.claims[m.nextTicket := Claim(g, request)];
    forall h, t | h in launches && t in launches[h].tickets ensures t in claims && claims[t].launch == h {
      if t in m.launches[h].tickets {
        assert t in m.claims && m.claims[t].launch == h && t < m.nextTicket;
      }
    }
  }

  /** A ticket is given back; the count is never short. */
  lemma PunchCallers(m: Manager, ticket: nat)
    requires Callers(m) && ticket in m.claims
    ensures m.claims[ticket].launch in m.launches && 0 < m.launches[m.claims[ticket].launch].waiters
    ensures Callers(PunchTicket(m, ticket))
  {
    hide Barriers, Waiting, Ticketed, Renounced, Active;
    PunchTickets(m, ticket);
    var g := m.claims[ticket].launch;
    var before := m.launches[g];
    var after := WithoutTicket(before, ticket);
    PunchBarriers(m, g, after);
  }

  lemma PunchTickets(m: Manager, ticket: nat)
    requires Ticketed(m.claims, m.launches, m.nextTicket) && ticket in m.claims
    ensures var g := m.claims[ticket].launch;
            && g in m.launches && ticket in m.launches[g].tickets && 0 < m.launches[g].waiters
            && var after := WithoutTicket(m.launches[g], ticket);
               Ticketed(m.claims - {ticket}, m.launches[g := after], m.nextTicket)
  {
    var g := m.claims[ticket].launch;
    assert ticket in m.launches[g].tickets;
    assert 0 < |m.launches[g].tickets|;
  }

  lemma PunchBarriers(m: Manager, g: nat, after: Launch)
    requires Barriers(m.pendingScopes, m.launches) && Waiting(m.pendingSessions, m.launches)
             && Renounced(m.launches, m.closed)
    requires g in m.launches && after.spec == m.launches[g].spec && after.sessions == m.launches[g].sessions
    requires after.phase == m.launches[g].phase && after.adopted == m.launches[g].adopted
             && after.cleanup == m.launches[g].cleanup
    requires after.tickets <= m.launches[g].tickets
    ensures Barriers(m.pendingScopes, m.launches[g := after])
    ensures Waiting(m.pendingSessions, m.launches[g := after])
    ensures Renounced(m.launches[g := after], m.closed)
  {
  }

  lemma BeginCallers(m: Manager, request: Request)
    requires Callers(m) && Numbered(m.launches, m.nextGeneration)
    requires m.nextGeneration != 0 && ScopeOf(request) !in m.pendingScopes
    ensures Callers(BeginLaunch(m, request))
  {
    hide Barriers, Waiting, Ticketed, Renounced, Active;
    var launch := Launch(NewSpec(m, request), {request.session}, {m.nextTicket}, 1, false, false, Starting, Kept);
    assert m.nextGeneration !in m.launches;
    BeginBarriers(m, launch, request.session);
    BeginTickets(m, launch, request);
  }

  lemma BeginBarriers(m: Manager, launch: Launch, session: Name)
    requires Barriers(m.pendingScopes, m.launches) && Waiting(m.pendingSessions, m.launches)
             && Renounced(m.launches, m.closed)
    requires m.nextGeneration !in m.launches && launch.phase == Starting && launch.cleanup.Kept?
    requires launch.spec.scope !in m.pendingScopes && session in launch.sessions
    ensures var launches := m.launches[m.nextGeneration := launch];
            && Barriers(m.pendingScopes[launch.spec.scope := m.nextGeneration], launches)
            && Waiting(m.pendingSessions[session := m.nextGeneration], launches) && Renounced(launches, m.closed)
  {
    var launches := m.launches[m.nextGeneration := launch];
    assert forall g | g in m.launches :: g != m.nextGeneration && launches[g] == m.launches[g];
  }

  lemma BeginTickets(m: Manager, launch: Launch, request: Request)
    requires Ticketed(m.claims, m.launches, m.nextTicket) && m.nextGeneration !in m.launches
    requires launch.tickets == {m.nextTicket} && launch.waiters == 1
    ensures Ticketed(m.claims[m.nextTicket := Claim(m.nextGeneration, request)],
                     m.launches[m.nextGeneration := launch], m.nextTicket + 1)
  {
    var launches, claims := m.launches[m.nextGeneration := launch],
      m.claims[m.nextTicket := Claim(m.nextGeneration, request)];
    forall h, t | h in launches && t in launches[h].tickets ensures t in claims && claims[t].launch == h {
      if h != m.nextGeneration {
        assert t in m.launches[h].tickets;
        assert t in m.claims && m.claims[t].launch == h && t < m.nextTicket;
      }
    }
  }

  // ----- waiting for a launch -----

  lemma PunchKeeps(m: Manager, ticket: nat)
    requires Sound(m) && ticket in m.claims
    ensures m.claims[ticket].launch in m.launches && Sound(PunchTicket(m, ticket))
  {
    hide Callers, Processes;
    PunchCallers(m, ticket);
    PunchProcesses(m, ticket);
  }

  lemma PunchProcesses(m: Manager, ticket: nat)
    requires Processes(m, 0) && ticket in m.claims && m.claims[ticket].launch in m.launches
    ensures Processes(PunchTicket(m, ticket), 0)
  {
    hide Processes;
    UnmovedKeeps(m, PunchTicket(m, ticket), 0);
  }

  /** A finished process that nobody has adopted, or can adopt any more. */
  predicate Unclaimed(m: Manager, g: nat) {
    && g in m.launches && m.launches[g].phase == Ran && !m.launches[g].adopted
    && (m.closed || m.launches[g].tickets == {})
  }

  predicate StaysUnbarred(m: Manager, n: Manager) {
    m.pendingScopes == map[] ==> n.pendingScopes == map[]
  }

  lemma TransferSound(m: Manager, g: nat)
    requires Sound(m) && Unclaimed(m, g)
    ensures Sound(Transfer(m, g))
  {
    hide Callers, Processes, Gated, Transfer, StaysUnbarred;
    TransferKeeps(m, g);
    TransferCallers(m, g);
    TransferGated(m, g);
  }

  lemma TransferCallers(m: Manager, g: nat)
    requires Callers(m) && Unclaimed(m, g)
    ensures Callers(Transfer(m, g)) && StaysUnbarred(m, Transfer(m, g))
  {
    hide Callers, ScopesWithout, SessionsWithout;
    var launch := GiveOnce(m.launches[g], |m.epochs|);
    BarrierLifted(m, Unbar(m, g, launch), g, launch);
    CallersKeep(Unbar(m, g, launch), Transfer(m, g));
  }

  /** With every barrier gone, a finished launch has already been transferred. */
  lemma TransferGated(m: Manager, g: nat)
    requires Callers(m) && Gated(m) && Unclaimed(m, g) && StaysUnbarred(m, Transfer(m, g))
    ensures Gated(Transfer(m, g))
  {
    hide Callers, ScopesWithout, SessionsWithout;
    if m.gate == Cleared || m.gate.Draining? {
      NothingHeld(m, g);
    }
  }

  lemma NothingHeld(m: Manager, g: nat)
    requires Callers(m) && g in m.launches && m.pendingScopes == map[]
    ensures !Active(m.launches[g])
  {
    hide Waiting, Ticketed, Renounced, Active;
  }

  lemma GiveUpSound(m: Manager, g: nat)
    requires Sound(m) && g in m.launches
    ensures Sound(GiveUp(m, g))
  {
    hide Callers, Processes, Gated;
    var launch := m.launches[g];
    if launch.waiters == 0 && !launch.adopted {
      NoTickets(m, g);
      if launch.phase == Ran {
        TransferSound(m, g);
      } else {
        MarkSound(m, g);
      }
    }
  }

  lemma NoTickets(m: Manager, g: nat)
    requires Callers(m) && g in m.launches && m.launches[g].waiters == 0
    ensures m.launches[g].tickets == {}
  {
  }

  lemma MarkSound(m: Manager, g: nat)
    requires Sound(m) && g in m.launches && m.launches[g].phase != Ran
    ensures Sound(MarkAbandoned(m, g))
  {
    hide Callers, Processes;
    UnmovedKeeps(m, MarkAbandoned(m, g), 0);
    RecordKeeps(m, MarkAbandoned(m, g), g, AbandonUnfinished(m.launches[g]));
  }

  lemma AdoptSound(m: Manager, claim: Claim)
    requires Sound(m) && !m.closed && claim.launch in m.launches && Holds(m.launches[claim.launch])
    requires m.launches[claim.launch].spec.shardId !in m.shards
    ensures Sound(Adopt(m, claim))
  {
    hide Callers, Processes;
    AdoptKeeps(m, claim);
    AdoptCallers(m, claim);
  }

  lemma AdoptCallers(m: Manager, claim: Claim)
    requires Callers(m) && claim.launch in m.launches && Holds(m.launches[claim.launch])
    ensures Callers(Adopt(m, claim))
  {
    hide Callers;
    BarrierLifted(m, Adopt(m, claim), claim.launch, Adopted(m.launches[claim.launch]));
  }

  lemma ConcludesSound(m: Manager, claim: Claim)
    requires Sound(m) && claim.launch in m.launches
    requires m.launches[claim.launch].phase == Ran || m.launches[claim.launch].phase == Errored
    requires m.closed || m.launches[claim.launch].cleanup.Kept?
    ensures Sound(Concludes(m, claim))
  {
    hide Callers, Processes, Gated;
    var launch := m.launches[claim.launch];
    if launch.phase == Ran && !launch.adopted {
      if m.closed {
        TransferSound(m, claim.launch);
      } else if Adoptable(m, claim, launch) {
        AdoptSound(m, claim);
      } else if launch.waiters == 0 {
        NoTickets(m, claim.launch);
        TransferSound(m, claim.launch);
      }
    }
  }

  lemma LeavesSound(m: Manager, ticket: nat, cancelled: bool)
    requires Sound(m)
    ensures Sound(Leaves(m, ticket, cancelled))
  {
    hide Callers, Processes, Gated, Concludes, GiveUp;
    if MayLeave(m, ticket, cancelled) {
      var g := m.claims[ticket].launch;
      PunchKeeps(m, ticket);
      if cancelled {
        GiveUpSound(PunchTicket(m, ticket), g);
      } else {
        StillHeld(m, ticket);
        ConcludesSound(PunchTicket(m, ticket), m.claims[ticket]);
      }
    }
  }

  /** While a caller holds a ticket on an open manager, the process has not been given away. */
  lemma StillHeld(m: Manager, ticket: nat)
    requires Callers(m) && ticket in m.claims && m.claims[ticket].launch in m.launches
    ensures m.closed || m.launches[m.claims[ticket].launch].cleanup.Kept?
  {
    hide Barriers, Waiting;
  }

  // ----- launches -----

  predicate GateOpen(m: Manager) {
    m.gate == Free || m.gate == Closing
  }

  /** A launch that is still active keeps Shutdown from draining. */
  lemma ActiveOpensGate(m: Manager, g: nat)
    requires Callers(m) && Gated(m) && g in m.launches && Active(m.launches[g])
    ensures GateOpen(m)
  {
    hide Callers, Active;
    if m.pendingScopes == map[] {
      NothingHeld(m, g);
    }
  }

  lemma OpenStaysGated(m: Manager, n: Manager)
    requires GateOpen(m) && n.gate == m.gate
    ensures Gated(n)
  {
  }

  lemma FailSound(m: Manager, g: nat)
    requires Sound(m) && g in m.launches && (m.launches[g].phase == Starting || m.launches[g].phase.Rejecting?)
    requires Processes(Fail(m, g), 0)
    ensures Sound(Fail(m, g))
  {
    hide Callers, Processes, ScopesWithout, SessionsWithout;
    ActiveOpensGate(m, g);
    OpenStaysGated(m, Fail(m, g));
    LaunchFits(m, g);
    BarrierLifted(m, Fail(m, g), g, InPhase(m.launches[g], Errored));
  }

  lemma LaunchReturnsSound(m: Manager, g: nat, present: bool, valid: bool)
    requires Sound(m)
    ensures Sound(LaunchReturns(m, g, present, valid))
  {
    hide Callers, Processes, Gated, Fail, Keep, Reject;
    LaunchReturnsKeeps(m, g, present, valid);
    if g in m.launches && m.launches[g].phase == Starting {
      if !present {
        FailSound(m, g);
      } else if valid && Wanted(m, g) {
        KeepSound(m, g);
      } else {
        RejectSound(m, g);
      }
    }
  }

  lemma KeepSound(m: Manager, g: nat)
    requires Sound(m) && g in m.launches && m.launches[g].phase == Starting
    requires Processes(Keep(m, g), 0)
    ensures Sound(Keep(m, g))
  {
    hide Callers, Processes;
    ActiveOpensGate(m, g);
    OpenStaysGated(m, Keep(m, g));
    LaunchFits(m, g);
    RecordKeeps(m, Keep(m, g), g, InPhase(m.launches[g], Ran));
  }

  lemma RejectSound(m: Manager, g: nat)
    requires Sound(m) && g in m.launches && m.launches[g].phase == Starting
    requires Processes(Reject(m, g), 0)
    ensures Sound(Reject(m, g))
  {
    hide Callers, Processes;
    ActiveOpensGate(m, g);
    OpenStaysGated(m, Reject(m, g));
    RecordKeeps(m, Reject(m, g), g, InPhase(m.launches[g], Rejecting(|m.epochs|)));
  }

  lemma LaunchEndsSound(m: Manager, g: nat)
    requires Sound(m)
    ensures Sound(LaunchEnds(m, g))
  {
    hide Callers, Processes, Gated, Fail;
    LaunchEndsKeeps(m, g);
    if g in m.launches && m.launches[g].phase.Rejecting? {
      var stop := m.launches[g].phase.stop;
      if stop < |m.epochs| && m.epochs[stop].outcome != Unresolved {
        FailSound(m, g);
      }
    }
  }

  // ----- stops -----

  lemma StartStopSound(m: Manager, e: nat)
    requires Sound(m)
    ensures Sound(StartStop(m, e))
  {
    hide Callers, Processes;
    StartStopKeeps(m, e);
    CallersKeep(m, StartStop(m, e));
  }

  lemma StopReturnsSound(m: Manager, e: nat, outcome: StopOutcome)
    requires Sound(m)
    ensures Sound(StopReturns(m, e, outcome))
  {
    hide Callers, Processes;
    StopReturnsKeeps(m, e, outcome);
    CallersKeep(m, StopReturns(m, e, outcome));
  }

  // ----- shards -----

  /** What every change on the shard side leaves alone. */
  ghost predicate ShardsOnly(m: Manager, n: Manager) {
    && SameCallers(m, n) && n.gate == m.gate && n.limits == m.limits
    && n.spawned == m.spawned && n.gone == m.gone && n.nextGeneration == m.nextGeneration
    && m.ledger.Keys <= n.ledger.Keys
  }

  lemma OpenNotDraining(m: Manager)
    requires Sound(m) && !m.closed
    ensures !m.gate.Draining?
  {
    hide Callers, Processes;
  }

  lemma ShardSound(m: Manager, n: Manager)
    requires Sound(m) && !m.gate.Draining? && ShardsOnly(m, n) && Processes(n, 0)
    ensures Sound(n)
  {
    hide Callers, Processes;
    CallersKeep(m, n);
  }

  lemma RetireSound(m: Manager, id: Name)
    requires Sound(m) && !m.gate.Draining? && id in m.shards
    ensures Sound(RetireShard(m, id)) && ShardsOnly(m, RetireShard(m, id))
  {
    hide Callers, Processes, Gated;
    RetireKeeps(m, id);
    ShardSound(m, RetireShard(m, id));
  }

  lemma ReselectSound(m: Manager, key: Key)
    requires Sound(m) && !m.gate.Draining?
    ensures Sound(Reselect(m, key)) && ShardsOnly(m, Reselect(m, key))
  {
    hide Callers, Processes, Gated;
    ReselectKeeps(m, key);
    ReselectShardsOnly(m, key);
    ShardSound(m, Reselect(m, key));
  }

  lemma ReselectShardsOnly(m: Manager, key: Key)
    requires Reselect(m, key).ledger.Keys == m.ledger.Keys
    ensures ShardsOnly(m, Reselect(m, key))
  {
  }

  /** The books change but no process does. */
  lemma BooksSound(m: Manager, n: Manager)
    requires Sound(m) && !m.closed && Unmoved(m, n) && ShardsOnly(m, n)
    ensures Sound(n)
  {
    hide Callers, Processes, Gated, Unmoved;
    OpenNotDraining(m);
    UnmovedKeeps(m, n, 0);
    ShardSound(m, n);
  }

  /** A shard changes, and if that leaves it empty and draining its process goes to the ledger. */
  lemma RehouseSound(m: Manager, id: Name, shard: Shard)
    requires Sound(m) && !m.closed && id in m.shards && shard.spec == m.shards[id].spec
    ensures Sound(Rehouse(m, id, shard)) && ShardsOnly(m, Rehouse(m, id, shard))
  {
    hide Sound;
    if Emptied(shard) {
      OpenNotDraining(m);
      RetireSound(m, id);
      ShardsOf(m, id);
      SameSound(RetireShard(m, id), Rehouse(m, id, shard));
    } else {
      BooksSound(m, Rehouse(m, id, shard));
    }
  }

  lemma ShardsOf(m: Manager, id: Name)
    requires Sound(m) && id in m.shards
    ensures m.shards[id].spec.shardId == id
  {
  }

  lemma SameSound(m: Manager, n: Manager)
    requires Sound(m) && SameProcesses(m, n) && SameCallers(m, n) && n.gate == m.gate
    ensures Sound(n)
  {
    hide Processes, Callers;
    SameKeeps(m, n, 0);
    CallersKeep(m, n);
  }

  lemma LeaveSound(m: Manager, session: Name, memory: nat)
    requires Sound(m) && !m.closed && session in m.placements
    ensures Sound(Leave(m, session, memory)) && ShardsOnly(m, Leave(m, session, memory))
  {
    hide Sound, Rehouse;
    SameSound(m, Unplace(m, session));
    var placement := m.placements[session];
    if placement.shardId in m.shards {
      RehouseSound(Unplace(m, session), placement.shardId,
                   Without(m.shards[placement.shardId], session, memory, placement.profile));
    }
  }

  lemma ExpireOneSound(m: Manager, id: Name, now: int)
    requires Sound(m) && !m.closed
    ensures Sound(ExpireOne(m, id, now)) && ShardsOnly(m, ExpireOne(m, id, now))
  {
    hide Sound, Rehouse;
    if id in m.shards && Expired(m, m.shards[id], now) {
      RehouseSound(m, id, Drained(m.shards[id]));
    }
  }

  lemma {:induction false} ExpireAllSound(m: Manager, order: seq<Name>, now: int)
    requires Sound(m) && !m.closed
    ensures Sound(ExpireAll(m, order, now)) && ShardsOnly(m, ExpireAll(m, order, now))
  {
    hide Sound, ExpireOne;
    if order != [] {
      ExpireAllSound(m, order[..|order| - 1], now);
      ExpireOneSound(ExpireAll(m, order[..|order| - 1], now), order[|order| - 1], now);
    }
  }

  lemma SupersedeSound(m: Manager, request: Request)
    requires Sound(m) && !m.closed
    ensures Sound(Supersede(m, request)) && ShardsOnly(m, Supersede(m, request))
  {
    hide Sound, Leave;
    SameSound(m, Fence(m, request));
    if Advances(m, request) && request.session in m.placements {
      LeaveSound(Fence(m, request), request.session, MemoryOf(m, request.session));
    }
  }

  lemma JoinSound(m: Manager, g: nat, request: Request)
    requires Sound(m) && !m.closed && g in m.launches && Active(m.launches[g])
    ensures Sound(Join(m, g, request))
  {
    hide Callers, Processes, Join;
    LaunchFits(m, g);
    JoinCallers(m, g, request);
    JoinProcesses(m, g, request);
  }

  lemma JoinProcesses(m: Manager, g: nat, request: Request)
    requires Processes(m, 0) && g in m.launches
    ensures Processes(Join(m, g, request), 0) && Join(m, g, request).gate == m.gate
  {
    hide Processes;
    UnmovedKeeps(m, Join(m, g, request), 0);
  }

  lemma BeginSound(m: Manager, request: Request)
    requires Sound(m) && !m.closed && m.nextGeneration != 0 && ScopeOf(request) !in m.pendingScopes
    ensures Sound(BeginLaunch(m, request))
  {
    hide Callers;
    BeginCallers(m, request);
    hide Processes;
    BeginKeeps(m, request);
  }

  lemma PlaceSound(m: Manager, id: Name, request: Request)
    requires Sound(m) && !m.closed && id in m.shards
    ensures Sound(Place(m, id, request))
  {
    hide Sound;
    BooksSound(m, Place(m, id, request));
  }

  lemma SettleSound(m: Manager, request: Request, choice: Choice)
    requires Sound(m) && !m.closed
    ensures Sound(Settle(m, request, choice))
  {
    hide Sound, ExpireAll, Place, Join, BeginLaunch, Best, Candidate;
    ExpireAllSound(m, choice.order, request.now);
    var scanned := ExpireAll(m, choice.order, request.now);
    if exists id :: Candidate(scanned, id, request) {
      if Best(scanned, choice.candidate, request) {
        BestPlaced(scanned, choice.candidate, request);
        PlaceSound(scanned, choice.candidate, request);
      }
    } else if ScopeOf(request) in scanned.pendingScopes {
      ScopeActive(scanned, ScopeOf(request));
      JoinSound(scanned, scanned.pendingScopes[ScopeOf(request)], request);
    } else if scanned.nextGeneration != 0 {
      BeginSound(scanned, request);
    }
  }

  lemma BestPlaced(m: Manager, id: Name, request: Request)
    requires Best(m, id, request)
    ensures id in m.shards
  {
  }

  lemma ScopeActive(m: Manager, scope: ScopeKey)
    requires Sound(m) && scope in m.pendingScopes
    ensures m.pendingScopes[scope] in m.launches && Active(m.launches[m.pendingScopes[scope]])
  {
  }

  lemma SessionActive(m: Manager, session: Name)
    requires Sound(m) && session in m.pendingSessions
    ensures m.pendingSessions[session] in m.launches && Active(m.launches[m.pendingSessions[session]])
  {
  }

  lemma AcquireSound(m: Manager, request: Request, choice: Choice)
    requires Sound(m)
    ensures Sound(Acquire(m, request, choice))
  {
    hide Sound, Supersede, Settle, Reselect, Join;
    if !m.closed && Admissible(m, request) {
      if request.session in m.pendingSessions {
        SessionActive(m, request.session);
        JoinSound(m, m.pendingSessions[request.session], request);
      } else if Current(m, request) {
        SupersedeSound(m, request);
        var fenced := Supersede(m, request);
        if |fenced.epochs| == |m.epochs| {
          if exists key :: Prior(fenced, ScopeOf(request), key) {
            OpenNotDraining(fenced);
            ReselectSound(fenced, choice.prior);
          } else {
            SettleSound(fenced, request, choice);
          }
        }
      }
    }
  }

  lemma ReleaseSound(m: Manager, session: Name, generation: nat)
    requires Sound(m)
    ensures Sound(Release(m, session, generation))
  {
    hide Sound, Leave, Reselect;
    if !m.closed {
      var fenced := MarkReleased(m, session, generation);
      SameSound(m, fenced);
      if session in m.placements {
        LeaveSound(fenced, session, MemoryOf(fenced, session));
        SameSound(Leave(fenced, session, MemoryOf(fenced, session)), ReleasePlaced(fenced, session, generation));
      } else if AwaitsCleanup(m, session, generation) {
        OpenNotDraining(fenced);
        ReselectSound(fenced, m.cleanups[session].key);
      }
    }
  }

  lemma ObserveSound(m: Manager, sample: Sample)
    requires Sound(m)
    ensures Sound(Observe(m, sample))
  {
    hide Sound, Rehouse;
    if !m.closed && Fresh(m, sample) {
      RehouseSound(m, sample.shardId, Seen(m.shards[sample.shardId], sample, m.limits.watermark));
    }
  }

  // ----- Shutdown -----

  lemma ClosedSound(m: Manager)
    requires Sound(m)
    ensures Sound(Closed(m))
  {
    hide Processes;
    SameKeeps(m, Closed(m), 0);
  }

  lemma {:induction false} TransferAllSound(m: Manager, finished: seq<nat>)
    requires Sound(m) && m.closed
    ensures Sound(TransferAll(m, finished)) && TransferAll(m, finished).closed
            && TransferAll(m, finished).gate == m.gate
  {
    hide Sound, Transfer;
    if finished != [] {
      TransferAllSound(m, finished[..|finished| - 1]);
      var before := TransferAll(m, finished[..|finished| - 1]);
      var g := finished[|finished| - 1];
      if Barred(before, g) {
        TransferSound(before, g);
        TransferSameGate(before, g);
      }
    }
  }

  lemma TransferSameGate(m: Manager, g: nat)
    requires g in m.launches
    ensures Transfer(m, g).gate == m.gate && Transfer(m, g).closed == m.closed
  {
    hide ScopesWithout, SessionsWithout, GiveOnce, TrackOnce, FileOnce;
  }

  lemma CloseSound(m: Manager, finished: seq<nat>)
    requires Sound(m)
    ensures Sound(Close(m, finished))
  {
    hide Sound, TransferAll, Regate, Barred, Closed;
    if GateOpen(m) {
      ClosedSound(m);
      NowClosed(m);
      TransferAllSound(Closed(m), finished);
      RegateSound(TransferAll(Closed(m), finished));
    }
  }

  lemma NowClosed(m: Manager)
    ensures Closed(m).closed
  {
  }

  lemma RegateSound(m: Manager)
    requires Sound(m) && m.closed
    ensures Sound(Regate(m))
  {
    hide Processes, Callers;
    SameKeeps(m, Regate(m), 0);
    CallersKeep(m, Regate(m));
  }

  lemma {:induction false} RetireAllSound(m: Manager, ids: seq<Name>)
    requires Sound(m) && !m.gate.Draining?
    ensures Sound(RetireAll(m, ids)) && ShardsOnly(m, RetireAll(m, ids))
    ensures forall id | id in RetireAll(m, ids).shards :: id in m.shards && id !in ids
  {
    hide Sound;
    if ids != [] {
      var front := ids[..|ids| - 1];
      assert ids == front + [ids[|ids| - 1]];
      RetireAllSound(m, front);
      if ids[|ids| - 1] in RetireAll(m, front).shards {
        RetireSound(RetireAll(m, front), ids[|ids| - 1]);
      }
    }
  }

  lemma {:induction false} ReselectAllSound(m: Manager, keys: seq<Key>)
    requires Sound(m) && !m.gate.Draining?
    ensures Sound(ReselectAll(m, keys)) && ShardsOnly(m, ReselectAll(m, keys))
            && ReselectAll(m, keys).shards == m.shards
  {
    hide Sound;
    if keys != [] {
      ReselectAllSound(m, keys[..|keys| - 1]);
      ReselectSound(ReselectAll(m, keys[..|keys| - 1]), keys[|keys| - 1]);
    }
  }

  lemma DrainSound(m: Manager, ids: seq<Name>, keys: seq<Key>)
    requires Sound(m)
    ensures Sound(Drain(m, ids, keys))
  {
    hide Processes, Callers, RetireAll, ReselectAll;
    if m.gate == Cleared && (forall id | id in m.shards :: id in ids) && forall key | key in m.ledger :: key in keys {
      RetireAllSound(m, ids);
      ReselectAllSound(RetireAll(m, ids), keys);
      var taken := ReselectAll(RetireAll(m, ids), keys);
      assert taken.shards == map[];
      SameKeeps(taken, Drain(m, ids, keys), 0);
      CallersKeep(taken, Drain(m, ids, keys));
    }
  }

  lemma ShutdownReturnsSound(m: Manager)
    requires Sound(m)
    ensures Sound(m.(gate := Free))
  {
    hide Processes, Callers;
    SameKeeps(m, m.(gate := Free), 0);
    CallersKeep(m, m.(gate := Free));
  }

  // ----- runs -----

  lemma NextSound(m: Manager, step: Step)
    requires Sound(m)
    ensures Sound(Next(m, step))
  {
    hide Sound, Acquire, Leaves, LaunchReturns, LaunchEnds, StartStop, StopReturns, Release, Observe, Close, Drain;
    match step
    case AcquireStep(request, choice) => AcquireSound(m, request, choice);
    case LeavesStep(ticket, cancelled) => LeavesSound(m, ticket, cancelled);
    case LaunchReturnsStep(launch, present, valid) => LaunchReturnsSound(m, launch, present, valid);
    case LaunchEndsStep(launch) => LaunchEndsSound(m, launch);
    case StartStopStep(epoch) => StartStopSound(m, epoch);
    case StopReturnsStep(epoch, outcome) => StopReturnsSound(m, epoch, outcome);
    case ReleaseStep(session, generation) => ReleaseSound(m, session, generation);
    case ObserveStep(sample) => ObserveSound(m, sample);
    case CloseStep(finished) => CloseSound(m, finished);
    case DrainStep(ids, keys) => DrainSound(m, ids, keys);
    case ShutdownReturnsStep => ShutdownReturnsSound(m);
  }

  lemma InitialSound(limits: Limits)
    ensures Sound(Initial(limits))
  {
  }

  lemma {:induction false} RunSound(limits: Limits, steps: seq<Step>)
    ensures Sound(Run(Initial(limits), steps))
  {
    hide Sound, Next, Initial;
    if steps == [] {
      InitialSound(limits);
    } else {
      RunSound(limits, steps[..|steps| - 1]);
      NextSound(Run(Initial(limits), steps[..|steps| - 1]), steps[|steps| - 1]);
    }
  }

  // ----- what the invariant means -----

  /** Where a process is. */
  ghost predicate HeldByLaunch(m: Manager, g: nat) {
    g in m.launches && Holds(m.launches[g])
  }

  ghost predicate LiveInShard(m: Manager, g: nat) {
    g in m.launches && Live(m.shards, m.launches[g].spec)
  }

  ghost predicate InLedger(m: Manager, g: nat) {
    g in m.launches && KeyOf(m.launches[g].spec) in m.ledger
  }

  /** Every process ever started is owned by exactly one of its launch record, a
      live shard or the stop ledger, or its Stop has returned nil. */
  lemma NoProcessLeaks(limits: Limits, steps: seq<Step>, g: nat)
    requires g in Run(Initial(limits), steps).spawned
    ensures var m := Run(Initial(limits), steps);
            One(HeldByLaunch(m, g), LiveInShard(m, g), InLedger(m, g), g in m.gone)
  {
    RunSound(limits, steps);
    OneOwner(Run(Initial(limits), steps), g);
  }

  lemma OneOwner(m: Manager, g: nat)
    requires Sound(m) && g in m.spawned
    ensures One(HeldByLaunch(m, g), LiveInShard(m, g), InLedger(m, g), g in m.gone)
  {
    hide Callers, Gated, One, Filed, Chained, Traced, Housed;
    assert g in m.launches;
  }

  /** Stops of one process never overlap: an earlier epoch ended with a retryable
      error, so at most one is unresolved and none follows a terminal or successful end. */
  lemma StopsAreSerial(limits: Limits, steps: seq<Step>, i: nat, j: nat)
    requires i < j < |Run(Initial(limits), steps).epochs|
    requires var epochs := Run(Initial(limits), steps).epochs; KeyOf(epochs[i].spec) == KeyOf(epochs[j].spec)
    ensures Run(Initial(limits), steps).epochs[i].outcome == Retryable
  {
    hide Callers, Gated, Filed, Owned, Traced, Housed, Phased, Numbered;
    RunSound(limits, steps);
  }

  /** When every stop Shutdown took hold of has succeeded, every process ever started has stopped. */
  lemma ShutdownStopsEverything(limits: Limits, steps: seq<Step>)
    requires ShutDown(Run(Initial(limits), steps))
    ensures var m := Run(Initial(limits), steps); forall g | g in m.spawned :: g in m.gone
  {
    var m := Run(Initial(limits), steps);
    RunSound(limits, steps);
    forall g | g in m.spawned ensures g in m.gone {
      OneOwner(m, g);
      NothingLeft(m, g);
    }
  }

  lemma NothingLeft(m: Manager, g: nat)
    requires Sound(m) && ShutDown(m) && g in m.launches
    ensures !HeldByLaunch(m, g) && !LiveInShard(m, g) && !InLedger(m, g)
  {
    hide Callers, Owned, Chained, Traced, Housed, Phased, Numbered;
    NothingHeld(m, g);
    assert m.shards == map[];
  }

  /** An admitted caller always finds its ticket counted. */
  lemma WaitersNeverShort(limits: Limits, steps: seq<Step>, ticket: nat)
    requires ticket in Run(Initial(limits), steps).claims
    ensures var m := Run(Initial(limits), steps);
            m.claims[ticket].launch in m.launches && 0 < m.launches[m.claims[ticket].launch].waiters
  {
    hide Processes, Gated;
    RunSound(limits, steps);
    PunchCallers(Run(Initial(limits), steps), ticket);
  }

  lemma RehouseQuiet(m: Manager, id: Name, shard: Shard)
    ensures var n := Rehouse(m, id, shard);
            |m.epochs| <= |n.epochs| && (|m.epochs| == |n.epochs| ==> n.epochs == m.epochs && n.ledger == m.ledger)
  {
    hide ShardsWith;
  }

  lemma ExpireOneQuiet(m: Manager, id: Name, now: int)
    ensures var n := ExpireOne(m, id, now);
            |m.epochs| <= |n.epochs| && (|m.epochs| == |n.epochs| ==> n.epochs == m.epochs && n.ledger == m.ledger)
  {
    hide Rehouse;
    if id in m.shards && Expired(m, m.shards[id], now) {
      RehouseQuiet(m, id, Drained(m.shards[id]));
    }
  }

  /** A scan that opens no epoch leaves the ledger as it was. */
  lemma {:induction false} ExpireAllQuiet(m: Manager, order: seq<Name>, now: int)
    ensures var n := ExpireAll(m, order, now);
            |m.epochs| <= |n.epochs| && (|m.epochs| == |n.epochs| ==> n.epochs == m.epochs && n.ledger == m.ledger)
  {
    hide ExpireOne;
    if order != [] {
      ExpireAllQuiet(m, order[..|order| - 1], now);
      ExpireOneQuiet(ExpireAll(m, order[..|order| - 1], now), order[|order| - 1], now);
    }
  }

  ghost predicate ScopeClear(m: Manager, scope: ScopeKey) {
    scope !in m.pendingScopes && forall key :: !Prior(m, scope, key)
  }

  /** With no barrier and no stop in the scope, its processes are live or gone. */
  lemma ClearMeansLive(m: Manager, scope: ScopeKey, g: nat)
    requires Sound(m) && ScopeClear(m, scope)
    requires g in m.launches && g in m.spawned && m.launches[g].spec.scope == scope
    ensures LiveInShard(m, g) || g in m.gone
  {
    OneOwner(m, g);
    hide Owned, Chained, Traced, Housed, Phased, Waiting, Ticketed, Renounced, Gated;
    var key := KeyOf(m.launches[g].spec);
    assert !Prior(m, scope, key);
  }

  lemma BeginLeavesEarlier(m: Manager, request: Request, g: nat)
    requires Sound(m) && g in m.launches && m.nextGeneration != 0 && (LiveInShard(m, g) || g in m.gone)
    ensures LiveInShard(BeginLaunch(m, request), g) || g in BeginLaunch(m, request).gone
  {
    hide Callers, Gated, Filed, Chained, Traced, Owned, Housed, Phased;
    assert g != m.nextGeneration;
  }

  lemma SettleBegins(m: Manager, request: Request, choice: Choice, g: nat)
    requires Sound(m) && !m.closed && g in m.launches && g in m.spawned && m.launches[g].spec.scope == ScopeOf(request)
    requires forall key :: !Prior(m, ScopeOf(request), key)
    requires m.nextGeneration in Settle(m, request, choice).launches && m.nextGeneration !in m.launches
    ensures LiveInShard(Settle(m, request, choice), g) || g in Settle(m, request, choice).gone
  {
    hide Sound, Live, Best, Candidate, Place, Join, BeginLaunch, ExpireAll;
    var scanned := ExpireAll(m, choice.order, request.now);
    ExpireAllSound(m, choice.order, request.now);
    ExpireAllQuiet(m, choice.order, request.now);
    assert scanned.launches == m.launches;
    if exists id :: Candidate(scanned, id, request) {
      if Best(scanned, choice.candidate, request) {
        BestPlaced(scanned, choice.candidate, request);
        PlaceLaunches(scanned, choice.candidate, request);
      }
    } else if ScopeOf(request) in scanned.pendingScopes {
      ScopeActive(scanned, ScopeOf(request));
      JoinLaunches(scanned, scanned.pendingScopes[ScopeOf(request)], request);
    } else if scanned.nextGeneration != 0 && |scanned.epochs| == |m.epochs| {
      assert forall key :: Prior(scanned, ScopeOf(request), key) <==> Prior(m, ScopeOf(request), key);
      ClearMeansLive(scanned, ScopeOf(request), g);
      BeginLeavesEarlier(scanned, request, g);
    }
  }

  lemma PlaceLaunches(m: Manager, id: Name, request: Request)
    requires id in m.shards
    ensures Place(m, id, request).launches == m.launches
  {
  }

  lemma JoinLaunches(m: Manager, g: nat, request: Request)
    requires g in m.launches
    ensures Join(m, g, request).launches.Keys == m.launches.Keys
  {
  }

  lemma AcquireBegins(m: Manager, request: Request, choice: Choice, g: nat)
    requires Sound(m) && g in m.launches && g in m.spawned && m.launches[g].spec.scope == ScopeOf(request)
    requires m.nextGeneration in Acquire(m, request, choice).launches && m.nextGeneration !in m.launches
    ensures LiveInShard(Acquire(m, request, choice), g) || g in Acquire(m, request, choice).gone
  {
    hide Sound, Live, Supersede, Settle, Reselect, Join;
    assert !m.closed && Admissible(m, request);
    if request.session in m.pendingSessions {
      SessionActive(m, request.session);
      JoinLaunches(m, m.pendingSessions[request.session], request);
    } else {
      SupersedeSound(m, request);
      var fenced := Supersede(m, request);
      if exists key :: Prior(fenced, ScopeOf(request), key) {
        ReselectLaunches(fenced, choice.prior);
      } else if |fenced.epochs| == |m.epochs| {
        SettleBegins(fenced, request, choice, g);
      }
    }
  }

  lemma ReselectLaunches(m: Manager, key: Key)
    ensures Reselect(m, key).launches == m.launches
  {
  }

  /** A launch begins only when every earlier process of its scope is live or has stopped. */
  lemma LaunchFindsScopeClear(limits: Limits, steps: seq<Step>, request: Request, choice: Choice, earlier: nat)
    requires var m := Run(Initial(limits), steps);
             && m.nextGeneration in Acquire(m, request, choice).launches && m.nextGeneration !in m.launches
             && earlier in m.launches && earlier in m.spawned && m.launches[earlier].spec.scope == ScopeOf(request)
    ensures var m := Acquire(Run(Initial(limits), steps), request, choice);
            LiveInShard(m, earlier) || earlier in m.gone
  {
    var m := Run(Initial(limits), steps);
    RunSound(limits, steps);
    AcquireBegins(m, request, choice, earlier);
  }

  // ----- leaving the ledger -----

  lemma TransferLedger(m: Manager, g: nat)
    requires g in m.launches
    ensures m.ledger.Keys <= Transfer(m, g).ledger.Keys
  {
    hide ScopesWithout, SessionsWithout, GiveOnce, TrackOnce;
  }

  lemma {:induction false} TransferAllLedger(m: Manager, finished: seq<nat>)
    ensures m.ledger.Keys <= TransferAll(m, finished).ledger.Keys
  {
    hide Transfer;
    if finished != [] {
      TransferAllLedger(m, finished[..|finished| - 1]);
      var before := TransferAll(m, finished[..|finished| - 1]);
      if Barred(before, finished[|finished| - 1]) {
        TransferLedger(before, finished[|finished| - 1]);
      }
    }
  }

  lemma PunchLedger(m: Manager, ticket: nat)
    requires ticket in m.claims && m.claims[ticket].launch in m.launches
    ensures PunchTicket(m, ticket).ledger == m.ledger && m.claims[ticket].launch in PunchTicket(m, ticket).launches
  {
  }

  lemma AdoptLedger(m: Manager, claim: Claim)
    requires claim.launch in m.launches
    ensures Adopt(m, claim).ledger == m.ledger
  {
    hide ScopesWithout, SessionsWithout, Forget, NewShard;
  }

  lemma MarkLedger(m: Manager, g: nat)
    requires g in m.launches
    ensures MarkAbandoned(m, g).ledger == m.ledger
  {
    hide AbandonUnfinished;
  }

  lemma LeavesLedger(m: Manager, ticket: nat, cancelled: bool)
    ensures m.ledger.Keys <= Leaves(m, ticket, cancelled).ledger.Keys
  {
    hide Transfer, Adopt, PunchTicket, MarkAbandoned;
    if MayLeave(m, ticket, cancelled) {
      var g := m.claims[ticket].launch;
      var punched := PunchTicket(m, ticket);
      PunchLedger(m, ticket);
      TransferLedger(punched, g);
      AdoptLedger(punched, m.claims[ticket]);
      MarkLedger(punched, g);
    }
  }

  lemma AcquireLedger(m: Manager, request: Request, choice: Choice)
    requires Sound(m)
    ensures m.ledger.Keys <= Acquire(m, request, choice).ledger.Keys
  {
    hide Sound, Supersede, Settle, Reselect, Join;
    if !m.closed && Admissible(m, request) {
      if request.session in m.pendingSessions {
        SessionActive(m, request.session);
        JoinLedger(m, m.pendingSessions[request.session], request);
      } else if Current(m, request) {
        SupersedeSound(m, request);
        var fenced := Supersede(m, request);
        OpenNotDraining(fenced);
        ReselectSound(fenced, choice.prior);
        SettleLedger(fenced, request, choice);
      }
    }
  }

  lemma JoinLedger(m: Manager, g: nat, request: Request)
    requires g in m.launches
    ensures Join(m, g, request).ledger == m.ledger
  {
    hide WithTicket;
  }

  lemma BeginLedger(m: Manager, request: Request)
    ensures BeginLaunch(m, request).ledger == m.ledger
  {
  }

  lemma PlaceLedger(m: Manager, id: Name, request: Request)
    requires id in m.shards
    ensures Place(m, id, request).ledger == m.ledger
  {
  }

  lemma SettleLedger(m: Manager, request: Request, choice: Choice)
    requires Sound(m) && !m.closed
    ensures m.ledger.Keys <= Settle(m, request, choice).ledger.Keys
  {
    hide Sound, ExpireAll, Place, Join, BeginLaunch, Best, Candidate;
    ExpireAllSound(m, choice.order, request.now);
    var scanned := ExpireAll(m, choice.order, request.now);
    BeginLedger(scanned, request);
    if Best(scanned, choice.candidate, request) {
      BestPlaced(scanned, choice.candidate, request);
      PlaceLedger(scanned, choice.candidate, request);
    }
    if ScopeOf(request) in scanned.pendingScopes {
      ScopeActive(scanned, ScopeOf(request));
      JoinLedger(scanned, scanned.pendingScopes[ScopeOf(request)], request);
    }
  }

  lemma ReleaseLedger(m: Manager, session: Name, generation: nat)
    requires Sound(m)
    ensures m.ledger.Keys <= Release(m, session, generation).ledger.Keys
  {
    hide Sound, Leave, Reselect, Remember;
    if !m.closed {
      var fenced := MarkReleased(m, session, generation);
      SameSound(m, fenced);
      OpenNotDraining(fenced);
      if session in m.placements {
        LeaveSound(fenced, session, MemoryOf(fenced, session));
      } else if AwaitsCleanup(m, session, generation) {
        ReselectSound(fenced, m.cleanups[session].key);
      }
    }
  }

  lemma ObserveLedger(m: Manager, sample: Sample)
    requires Sound(m)
    ensures m.ledger.Keys <= Observe(m, sample).ledger.Keys
  {
    hide Sound, Rehouse;
    if !m.closed && Fresh(m, sample) {
      RehouseSound(m, sample.shardId, Seen(m.shards[sample.shardId], sample, m.limits.watermark));
    }
  }

  lemma LaunchReturnsLedger(m: Manager, g: nat, present: bool, valid: bool)
    ensures m.ledger.Keys <= LaunchReturns(m, g, present, valid).ledger.Keys
  {
    hide Fail, Keep, Reject;
    if g in m.launches {
      FailLedger(m, g);
      KeepLedger(m, g);
      RejectLedger(m, g);
    }
  }

  lemma FailLedger(m: Manager, g: nat)
    requires g in m.launches
    ensures Fail(m, g).ledger == m.ledger
  {
    hide ScopesWithout, SessionsWithout, InPhase;
  }

  lemma KeepLedger(m: Manager, g: nat)
    requires g in m.launches
    ensures Keep(m, g).ledger == m.ledger
  {
    hide InPhase;
  }

  lemma RejectLedger(m: Manager, g: nat)
    requires g in m.launches
    ensures m.ledger.Keys <= Reject(m, g).ledger.Keys
  {
    hide InPhase;
  }

  lemma LaunchEndsLedger(m: Manager, g: nat)
    ensures LaunchEnds(m, g).ledger == m.ledger
  {
    hide Fail;
    if g in m.launches {
      FailLedger(m, g);
    }
  }

  lemma CloseLedger(m: Manager, finished: seq<nat>)
    ensures m.ledger.Keys <= Close(m, finished).ledger.Keys
  {
    hide TransferAll;
    TransferAllLedger(Closed(m), finished);
  }

  lemma DrainLedger(m: Manager, ids: seq<Name>, keys: seq<Key>)
    requires Sound(m)
    ensures m.ledger.Keys <= Drain(m, ids, keys).ledger.Keys
  {
    hide Sound, RetireAll, ReselectAll;
    if m.gate == Cleared {
      RetireAllSound(m, ids);
      ReselectAllSound(RetireAll(m, ids), keys);
    }
  }

  /** A process leaves the ledger only in the step in which its Stop returns nil. */
  lemma LedgerExit(limits: Limits, steps: seq<Step>, step: Step, key: Key)
    requires key in Run(Initial(limits), steps).ledger
    requires key !in Next(Run(Initial(limits), steps), step).ledger
    ensures var m := Run(Initial(limits), steps);
            step == StopReturnsStep(m.ledger[key], Stopped) && key.generation in Next(m, step).gone
  {
    var m := Run(Initial(limits), steps);
    RunSound(limits, steps);
    hide Sound, Run, Acquire, Leaves, LaunchReturns, LaunchEnds, Release, Observe, Close, Drain;
    assert step.StopReturnsStep? by {
      match step
      case AcquireStep(request, choice) => AcquireLedger(m, request, choice);
      case LeavesStep(ticket, cancelled) => LeavesLedger(m, ticket, cancelled);
      case LaunchReturnsStep(launch, present, valid) => LaunchReturnsLedger(m, launch, present, valid);
      case LaunchEndsStep(launch) => LaunchEndsLedger(m, launch);
      case StartStopStep(epoch) =>
      case StopReturnsStep(epoch, outcome) =>
      case ReleaseStep(session, generation) => ReleaseLedger(m, session, generation);
      case ObserveStep(sample) => ObserveLedger(m, sample);
      case CloseStep(finished) => CloseLedger(m, finished);
      case DrainStep(ids, keys) => DrainLedger(m, ids, keys);
      case ShutdownReturnsStep =>
    }
  }
}
