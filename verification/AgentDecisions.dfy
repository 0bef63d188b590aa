/** What a pass of the manager comes to: who is admitted, which process takes a session, when a launch begins and
    what becomes of it, each with the exact condition under which it happens, in every reachable state. */
module AgentDecisions {
  import opened Common
  import opened AgentManager
  import Ownership = AgentOwnership
  import Admission = AgentAdmission
  import Safety = AgentSafety

  // ----- admission -----

  /** Which profile each trust class may run under. */
  predicate Permitted(trust: Trust, profile: Profile) {
    match trust
    case PlatformReviewed => true
    case TenantReviewed => profile.scope != SharedScope
    case SignedThirdParty => profile.scope != SharedScope && profile.isolation != NoIsolation
    case Unreviewed => profile == Profile(SessionScope, Firecracker)
  }

  /** A request is admissible exactly if it is complete, its profile is permitted and it can ever fit. */
  lemma AdmissionDecided(m: Manager, request: Request)
    requires ValidLimits(m.limits)
    ensures Admissible(m, request)
            <==> && request.generation != 0 && request.memory != 0 && request.worker != NO_NAME
                 && Permitted(request.trust, request.profile) && request.memory <= m.limits.watermark
  {
  }

  // ----- which process can take a session -----

  predicate PastLife(m: Manager, id: Name, now: int) {
    id in m.shards && m.shards[id].spec.createdAt + m.limits.lifetime <= now
  }

  /** The process serves the scope, lives on, is not draining, has a seat left, and what it uses and what it has
      reserved both leave room for the request. */
  predicate Open(m: Manager, id: Name, request: Request) {
    && id in m.shards && !PastLife(m, id, request.now) && m.shards[id].spec.scope == ScopeOf(request)
    && !m.shards[id].draining && |m.shards[id].sessions| < m.limits.sessions
    && m.shards[id].estimated + request.memory <= m.limits.watermark
    && m.shards[id].rss + request.memory <= m.limits.watermark
  }

  /** The unsigned arithmetic of the candidate test says what it means. */
  lemma CandidateIsOpen(m: Manager, id: Name, request: Request)
    requires ValidLimits(m.limits) && Admission.AllLoaded(m.shards, m.identities, m.limits)
    ensures Candidate(m, id, request) <==> Open(m, id, request)
  {
    hide Admission.Total, ScopeOf, Minus;
    if id in m.shards && !m.shards[id].draining {
      Admission.LoadedAt(m.shards, m.identities, m.limits, id);
      Admission.NoUnderflow(m.shards[id], m.identities, m.limits);
    }
  }

  /** It is the emptiest open process, and the first of those. */
  ghost predicate Chosen(m: Manager, id: Name, request: Request) {
    && Open(m, id, request)
    && (forall other | Open(m, other, request) ::
          && |m.shards[id].sessions| <= |m.shards[other].sessions|
          && (|m.shards[id].sessions| == |m.shards[other].sessions| ==> id <= other))
  }

  // ----- the expiry scan -----

  /** The process has outlived its time and serves nobody. */
  predicate Spent(m: Manager, id: Name, now: int) {
    PastLife(m, id, now) && m.shards[id].sessions == map[]
  }

  /** What the scan makes of one shard. */
  predicate Aged(m: Manager, n: Manager, now: int, id: Name, visited: bool) {
    if id !in m.shards then id !in n.shards
    else if !visited || !PastLife(m, id, now) then id in n.shards && n.shards[id] == m.shards[id]
    else if m.shards[id].sessions == map[] then id !in n.shards && KeyOf(m.shards[id].spec) in n.ledger
    else id in n.shards && n.shards[id] == m.shards[id].(draining := true)
  }

  /** The rest of the manager, which a scan leaves alone. */
  datatype Rest = Rest(limits: Limits, closed: bool, gate: Gate, placements: map<Name, Placement>,
                       latest: map<Name, nat>, released: map<Name, nat>, identities: map<Name, Fingerprint>,
                       cleanups: map<Name, Released>, pendingSessions: map<Name, nat>,
                       pendingScopes: map<ScopeKey, nat>, retryIds: map<ScopeKey, Name>, nextSequence: nat,
                       nextGeneration: nat, launches: map<nat, Launch>, claims: map<nat, Claim>, nextTicket: nat,
                       spawned: set<nat>, gone: set<nat>)

  function RestOf(m: Manager): Rest {
    Rest(m.limits, m.closed, m.gate, m.placements, m.latest, m.released, m.identities, m.cleanups, m.pendingSessions,
         m.pendingScopes, m.retryIds, m.nextSequence, m.nextGeneration, m.launches, m.claims, m.nextTicket, m.spawned,
         m.gone)
  }

  lemma RehouseRest(m: Manager, id: Name, shard: Shard)
    ensures var n := Rehouse(m, id, shard);
            && RestOf(n) == RestOf(m) && n.shards == ShardsWith(m.shards, id, shard)
            && n.epochs == EpochsWith(m.epochs, shard) && n.ledger == LedgerWith(m.ledger, shard, |m.epochs|)
  {
    hide ShardsWith, EpochsWith, LedgerWith;
  }

  lemma VisitAges(m: Manager, visited: Name, now: int, id: Name)
    ensures var n := ExpireOne(m, visited, now);
            && RestOf(n) == RestOf(m) && Aged(m, n, now, id, id == visited) && m.ledger.Keys <= n.ledger.Keys
            && |n.epochs| == |m.epochs| + (if Spent(m, visited, now) then 1 else 0)
  {
    hide Rehouse, RestOf;
    if visited in m.shards {
      RehouseRest(m, visited, Drained(m.shards[visited]));
    }
  }

  /** The whole scan: the shards it visits age, and it opens a stop epoch exactly if one of them was spent. */
  lemma {:induction false} ScanAges(m: Manager, order: seq<Name>, now: int, id: Name)
    ensures var n := ExpireAll(m, order, now);
            && RestOf(n) == RestOf(m) && Aged(m, n, now, id, id in order) && m.ledger.Keys <= n.ledger.Keys
            && |m.epochs| <= |n.epochs|
            && (|n.epochs| == |m.epochs| <==> forall other | other in order :: !Spent(m, other, now))
  {
    hide ExpireOne, RestOf;
    if order != [] {
      var front, last := order[..|order| - 1], order[|order| - 1];
      var before := ExpireAll(m, front, now);
      ScanAges(m, front, now, id);
      ScanAges(m, front, now, last);
      VisitAges(before, last, now, id);
      LimitsOf(m, before);
      assert order == front + [last];
      AgedTwice(m, before, ExpireOne(before, last, now), now, id, id in front, id == last);
      SpentStill(m, before, now, last, last in front);
    }
  }

  lemma LimitsOf(m: Manager, n: Manager)
    requires RestOf(n) == RestOf(m)
    ensures n.limits == m.limits
  {
  }

  lemma AgedTwice(m: Manager, k: Manager, n: Manager, now: int, id: Name, first: bool, second: bool)
    requires Aged(m, k, now, id, first) && Aged(k, n, now, id, second) && k.ledger.Keys <= n.ledger.Keys
    requires k.limits == m.limits
    ensures Aged(m, n, now, id, first || second)
  {
  }

  lemma SpentStill(m: Manager, k: Manager, now: int, id: Name, visited: bool)
    requires Aged(m, k, now, id, visited) && k.limits == m.limits
    ensures Spent(k, id, now) <==> Spent(m, id, now) && !visited
  {
  }

  /** Every shard has aged. */
  ghost predicate AllAged(m: Manager, n: Manager, now: int) {
    RestOf(n) == RestOf(m) && forall id :: Aged(m, n, now, id, true)
  }

  lemma ScanDone(m: Manager, order: seq<Name>, now: int)
    requires forall id | id in m.shards :: id in order
    ensures var n := ExpireAll(m, order, now);
            && AllAged(m, n, now)
            && (|n.epochs| == |m.epochs| <==> forall id | id in m.shards :: !Spent(m, id, now))
  {
    hide ExpireAll, RestOf;
    var n := ExpireAll(m, order, now);
    ScanAges(m, order, now, NO_NAME);
    forall id ensures Aged(m, n, now, id, true) {
      ScanAges(m, order, now, id);
    }
  }

  /** Nothing was spent, so the same processes are open as before. */
  lemma OpenStill(m: Manager, n: Manager, id: Name, request: Request)
    requires n.limits == m.limits && Aged(m, n, request.now, id, true)
    ensures Open(n, id, request) <==> Open(m, id, request)
    ensures Open(m, id, request) ==> n.shards[id] == m.shards[id]
  {
    hide ScopeOf;
  }

  // ----- place, share or launch -----

  function SeatFor(request: Request, id: Name): Placement {
    Placement(request.tenant, request.session, request.generation, id, request.worker, request.profile, request.now)
  }

  /** The process has the session and its reservation; nothing else changes. */
  ghost predicate TakesSeat(k: Manager, n: Manager, id: Name, request: Request) {
    && id in k.shards && request.session !in k.shards[id].sessions
    && var seat, shard := SeatFor(request, id), k.shards[id];
       && n.shards == k.shards[id := shard.(sessions := shard.sessions[request.session := seat],
                                            estimated := shard.estimated + request.memory)]
       && n.epochs == k.epochs && n.ledger == k.ledger
       && RestOf(n) == RestOf(k).(placements := k.placements[request.session := seat])
  }

  /** One caller more waits for the launch, with a ticket of its own. */
  ghost predicate JoinsLaunch(k: Manager, n: Manager, g: nat, request: Request) {
    && g in k.launches && g in n.launches && n.shards == k.shards && n.epochs == k.epochs && n.ledger == k.ledger
    && var launch := k.launches[g];
       RestOf(n) == RestOf(k).(
         launches := k.launches[g := launch.(waiters := launch.waiters + 1, tickets := launch.tickets + {k.nextTicket},
                                             sessions := launch.sessions + {request.session})],
         pendingSessions := k.pendingSessions[request.session := g],
         claims := k.claims[k.nextTicket := Claim(g, request)], nextTicket := k.nextTicket + 1)
  }

  /** A launch begins for the request: a new generation, the identifier kept for the scope or else a new one, and
      the scope and the session wait for it. */
  ghost predicate StartsLaunch(k: Manager, n: Manager, request: Request) {
    && n.shards == k.shards && n.epochs == k.epochs && n.ledger == k.ledger
    && var g, scope := k.nextGeneration, ScopeOf(request);
       var id := if scope in k.retryIds then k.retryIds[scope] else k.nextSequence;
       RestOf(n) == RestOf(k).(
         nextGeneration := if g + 1 == WORD then 0 else g + 1,
         nextSequence := if scope in k.retryIds then k.nextSequence else k.nextSequence + 1,
         launches := k.launches[g := Launch(Spec(id, g, scope, request.now), {request.session}, {k.nextTicket}, 1,
                                            false, false, Starting, Kept)],
         pendingScopes := k.pendingScopes[scope := g], pendingSessions := k.pendingSessions[request.session := g],
         claims := k.claims[k.nextTicket := Claim(g, request)], nextTicket := k.nextTicket + 1)
  }

  /** What the pass makes of the aged manager `k`. */
  ghost predicate Settles(m: Manager, k: Manager, n: Manager, request: Request, choice: Choice) {
    var scope := ScopeOf(request);
    if exists id :: Spent(m, id, request.now) then n == k
    else if exists id :: Open(m, id, request) then
      if Chosen(m, choice.candidate, request) then TakesSeat(k, n, choice.candidate, request) else n == m
    else if scope in m.pendingScopes then
      if m.pendingScopes[scope] in m.launches && !m.launches[m.pendingScopes[scope]].abandoned
      then JoinsLaunch(k, n, m.pendingScopes[scope], request) else n == k
    else if m.nextGeneration == 0 then n == k
    else StartsLaunch(k, n, request)
  }

  lemma PlaceTakes(k: Manager, id: Name, request: Request)
    requires id in k.shards && k.shards[id].estimated + request.memory < WORD
    requires request.session !in k.shards[id].sessions
    ensures TakesSeat(k, Place(k, id, request), id, request)
  {
  }

  lemma JoinJoins(k: Manager, g: nat, request: Request)
    requires g in k.launches
    ensures JoinsLaunch(k, Join(k, g, request), g, request)
  {
  }

  lemma BeginStarts(k: Manager, request: Request)
    ensures StartsLaunch(k, BeginLaunch(k, request), request)
  {
    hide ScopeOf;
  }

  lemma BestIsChosen(k: Manager, m: Manager, id: Name, request: Request)
    requires k.limits == m.limits && (forall other :: Aged(m, k, request.now, other, true))
    requires forall other :: Candidate(k, other, request) <==> Open(k, other, request)
    ensures Best(k, id, request) <==> Chosen(m, id, request)
    ensures (exists other :: Candidate(k, other, request)) <==> exists other :: Open(m, other, request)
  {
    hide Aged, Open, Candidate;
    forall other ensures Candidate(k, other, request) <==> Open(m, other, request)
      ensures Open(m, other, request) ==> other in m.shards && other in k.shards && k.shards[other] == m.shards[other] {
      OpenStill(m, k, other, request);
      if Open(m, other, request) {
        OpenIsLive(m, other, request);
        OpenIsLive(k, other, request);
      }
    }
  }

  lemma OpenIsLive(m: Manager, id: Name, request: Request)
    requires Open(m, id, request)
    ensures id in m.shards
  {
  }

  /** Past the fences and without a stop to wait for, a pass does exactly one of these things. */
  lemma SettleDecided(m: Manager, request: Request, choice: Choice)
    requires Admission.Booked(m) && request.session !in m.placements
    requires request.memory <= m.limits.watermark && (forall id | id in m.shards :: id in choice.order)
    ensures exists k :: AllAged(m, k, request.now) && Settles(m, k, Settle(m, request, choice), request, choice)
  {
    hide Admission.Booked, ExpireAll, Place, Join, BeginLaunch, RestOf, ScopeOf, TakesSeat, JoinsLaunch, StartsLaunch,
         Candidate, Best, Open, Chosen, Spent;
    var k := ExpireAll(m, choice.order, request.now);
    ScanDone(m, choice.order, request.now);
    SpentIsLive(m, request.now);
    Admission.ExpireAllBooked(m, choice.order, request.now);
    SameRest(m, k);
    BookedLoads(k);
    forall other ensures Candidate(k, other, request) <==> Open(k, other, request) {
      CandidateIsOpen(k, other, request);
    }
    BestIsChosen(k, m, choice.candidate, request);
    if Chosen(m, choice.candidate, request) {
      ChosenTakes(m, k, choice.candidate, request);
    }
    if ScopeOf(request) in m.pendingScopes && m.pendingScopes[ScopeOf(request)] in k.launches {
      JoinJoins(k, m.pendingScopes[ScopeOf(request)], request);
    }
    BeginStarts(k, request);
    assert AllAged(m, k, request.now);
  }

  /** After the scan the candidates are the processes that were open before it. */
  lemma ScannedOpen(m: Manager, order: seq<Name>, request: Request)
    requires Admission.Booked(m) && (forall id | id in m.shards :: id in order)
    ensures (exists id :: Candidate(ExpireAll(m, order, request.now), id, request))
            <==> exists id :: Open(m, id, request)
  {
    hide Admission.Booked, ExpireAll, RestOf, ScopeOf, Candidate, Best, Open, Chosen;
    var k := ExpireAll(m, order, request.now);
    ScanDone(m, order, request.now);
    Admission.ExpireAllBooked(m, order, request.now);
    SameRest(m, k);
    BookedLoads(k);
    forall other ensures Candidate(k, other, request) <==> Open(k, other, request) {
      CandidateIsOpen(k, other, request);
    }
    BestIsChosen(k, m, NO_NAME, request);
  }

  lemma SpentIsLive(m: Manager, now: int)
    ensures (exists id :: Spent(m, id, now)) <==> exists id | id in m.shards :: Spent(m, id, now)
  {
  }

  lemma SameRest(m: Manager, k: Manager)
    requires RestOf(k) == RestOf(m)
    ensures k.limits == m.limits && k.placements == m.placements && k.pendingScopes == m.pendingScopes
            && k.launches == m.launches && k.nextGeneration == m.nextGeneration && k.nextTicket == m.nextTicket
  {
  }

  lemma BookedLoads(m: Manager)
    requires Admission.Booked(m)
    ensures ValidLimits(m.limits) && Admission.AllLoaded(m.shards, m.identities, m.limits)
    ensures forall id, s | id in m.shards && s in m.shards[id].sessions :: s in m.placements
  {
    hide Admission.AllLoaded, Admission.AllTimely, Admission.Scoped, Admission.Claimed;
  }

  lemma ChosenTakes(m: Manager, k: Manager, id: Name, request: Request)
    requires Chosen(m, id, request) && k.limits == m.limits && Aged(m, k, request.now, id, true)
    requires ValidLimits(m.limits) && request.session !in k.placements
    requires forall i, s | i in k.shards && s in k.shards[i].sessions :: s in k.placements
    ensures TakesSeat(k, Place(k, id, request), id, request)
  {
    hide TakesSeat, Place, ScopeOf;
    OpenStill(m, k, id, request);
    PlaceTakes(k, id, request);
  }

  // ----- one pass of Acquire -----

  /** The session waits for a launch that this caller may share: the same request for the latest generation. */
  predicate MayShare(m: Manager, request: Request) {
    && request.session in m.pendingSessions && m.pendingSessions[request.session] in m.launches
    && var launch := m.launches[m.pendingSessions[request.session]];
       && !launch.abandoned && launch.spec.scope == ScopeOf(request) && Repeated(m, request)
  }

  /** The request is, word for word, the latest one of its session, and not released. */
  predicate Repeated(m: Manager, request: Request) {
    && Count(m.latest, request.session) == request.generation != Count(m.released, request.session)
    && request.session in m.identities
    && m.identities[request.session] == Fingerprint(request.tenant, request.worker, request.profile, request.memory)
  }

  /** The request may go on: newer than all before it, or the latest one repeated while it has no process. */
  predicate MayProceed(m: Manager, request: Request) {
    && Count(m.released, request.session) != request.generation
    && (Count(m.latest, request.session) < request.generation
        || (Repeated(m, request) && request.session !in m.placements))
  }

  /** A process of the scope has still to be stopped. */
  predicate InTheWay(m: Manager, scope: ScopeKey, key: Key) {
    key in m.ledger && m.ledger[key] < |m.epochs| && m.epochs[m.ledger[key]].spec.scope == scope
  }

  /** What a pass makes of the manager once the session's fences have moved. */
  ghost predicate Proceeds(m: Manager, fenced: Manager, n: Manager, request: Request, choice: Choice) {
    if |fenced.epochs| != |m.epochs| then n == fenced
    else if exists key :: InTheWay(fenced, ScopeOf(request), key)
    then n == if InTheWay(fenced, ScopeOf(request), choice.prior) then Reselect(fenced, choice.prior) else m
    else (forall id | id in fenced.shards :: id in choice.order) ==>
           exists k :: AllAged(fenced, k, request.now) && Settles(fenced, k, n, request, choice)
  }

  /** In every reachable state a pass of Acquire refuses without a trace, shares the session's launch, or proceeds,
      each exactly under its condition. */
  lemma AcquireDecided(limits: Limits, steps: seq<Step>, request: Request, choice: Choice)
    requires ValidLimits(limits)
    ensures var m := Run(Initial(limits), steps);
            var n := Acquire(m, request, choice);
            if m.closed || !Admissible(m, request) then n == m
            else if request.session in m.pendingSessions then
              if MayShare(m, request) then JoinsLaunch(m, n, m.pendingSessions[request.session], request) else n == m
            else if !MayProceed(m, request) then n == m
            else Proceeds(m, Supersede(m, request), n, request, choice)
  {
    hide Run, Initial, Admission.Booked, Supersede, Settle, Reselect, Join, RestOf, ScopeOf, Settles, AllAged,
         JoinsLaunch, ValidProfile, Prior, InTheWay;
    var m := Run(Initial(limits), steps);
    Admission.RunBooked(limits, steps);
    if !m.closed && Admissible(m, request) {
      if request.session in m.pendingSessions {
        if Rejoins(m, request) {
          JoinJoins(m, m.pendingSessions[request.session], request);
        }
      } else if Current(m, request) {
        var fenced := Supersede(m, request);
        Admission.SupersedeBooked(m, request);
        Unseated(m, request);
        Admission.SupersedeLimits(m, request);
        PriorIsInTheWay(fenced, ScopeOf(request));
        if forall id | id in fenced.shards :: id in choice.order {
          SettleDecided(fenced, request, choice);
        }
      }
    }
  }

  lemma Unseated(m: Manager, request: Request)
    requires Current(m, request)
    ensures request.session !in Supersede(m, request).placements
  {
    hide Rehouse, Without;
    if Advances(m, request) && request.session in m.placements {
      UnseatedRehouse(Unplace(Fence(m, request), request.session), request.session);
    }
  }

  lemma UnseatedRehouse(m: Manager, session: Name)
    requires session !in m.placements
    ensures forall id, shard :: session !in Rehouse(m, id, shard).placements
  {
    hide ShardsWith, EpochsWith, LedgerWith;
  }

  lemma PriorIsInTheWay(m: Manager, scope: ScopeKey)
    ensures forall key :: Prior(m, scope, key) <==> InTheWay(m, scope, key)
  {
  }

  // ----- launches -----

  /** The launch and its barrier are undone, and its identifier may be tried again. */
  ghost predicate Undone(m: Manager, n: Manager, g: nat, launch: Launch) {
    && n.launches == m.launches[g := launch] && launch.spec.scope in n.retryIds
    && n.retryIds == m.retryIds[launch.spec.scope := launch.spec.shardId]
    && (forall scope :: scope in n.pendingScopes
                        <==> scope in m.pendingScopes && !(scope == launch.spec.scope && m.pendingScopes[scope] == g))
    && (forall scope | scope in n.pendingScopes :: n.pendingScopes[scope] == m.pendingScopes[scope])
    && (forall s :: s in n.pendingSessions
                    <==> s in m.pendingSessions && !(s in launch.sessions && m.pendingSessions[s] == g))
    && (forall s | s in n.pendingSessions :: n.pendingSessions[s] == m.pendingSessions[s])
    && n.shards == m.shards && n.placements == m.placements && n.claims == m.claims
  }

  lemma UnbarUndoes(m: Manager, g: nat, launch: Launch)
    ensures Undone(m, Unbar(m, g, launch), g, launch)
    ensures Unbar(m, g, launch).epochs == m.epochs && Unbar(m, g, launch).ledger == m.ledger
            && Unbar(m, g, launch).spawned == m.spawned
  {
  }

  /** A start that gave no process undoes the launch; a process that is wanted, and is the right one, stays with it;
      any other is stopped first. */
  lemma LaunchReturnsDecided(m: Manager, g: nat, present: bool, valid: bool)
    requires g in m.launches && m.launches[g].phase == Starting
    ensures var n, launch := LaunchReturns(m, g, present, valid), m.launches[g];
            if !present then
              Undone(m, n, g, launch.(phase := Errored)) && n.epochs == m.epochs && n.ledger == m.ledger
              && n.spawned == m.spawned
            else
              && n.spawned == m.spawned + {g} && n.shards == m.shards && n.placements == m.placements
              && n.pendingScopes == m.pendingScopes && n.pendingSessions == m.pendingSessions
              && if valid && !m.closed && !launch.abandoned && launch.waiters != 0
                 then n.launches == m.launches[g := launch.(phase := Ran)] && n.epochs == m.epochs
                      && n.ledger == m.ledger
                 else && n.launches == m.launches[g := launch.(phase := Rejecting(|m.epochs|))]
                      && n.epochs == m.epochs + [Epoch(launch.spec, false, Unresolved)]
                      && n.ledger == m.ledger[KeyOf(launch.spec) := |m.epochs|]
  {
    hide Fail, Unbar;
    FailUndoes(m, g);
    if present {
      KeepOrReject(m, g);
    }
  }

  lemma FailUndoes(m: Manager, g: nat)
    requires g in m.launches
    ensures var n := Fail(m, g);
            && Undone(m, n, g, m.launches[g].(phase := Errored)) && n.epochs == m.epochs && n.ledger == m.ledger
            && n.spawned == m.spawned
  {
    hide Unbar, Undone;
    UnbarUndoes(m, g, InPhase(m.launches[g], Errored));
  }

  lemma KeepOrReject(m: Manager, g: nat)
    requires g in m.launches
    ensures var n := Keep(m, g);
            && n.spawned == m.spawned + {g} && n.shards == m.shards && n.placements == m.placements
            && n.pendingScopes == m.pendingScopes && n.pendingSessions == m.pendingSessions
            && n.launches == m.launches[g := m.launches[g].(phase := Ran)] && n.epochs == m.epochs
            && n.ledger == m.ledger
    ensures var n := Reject(m, g);
            && n.spawned == m.spawned + {g} && n.shards == m.shards && n.placements == m.placements
            && n.pendingScopes == m.pendingScopes && n.pendingSessions == m.pendingSessions
            && n.launches == m.launches[g := m.launches[g].(phase := Rejecting(|m.epochs|))]
            && n.epochs == m.epochs + [Epoch(m.launches[g].spec, false, Unresolved)]
            && n.ledger == m.ledger[KeyOf(m.launches[g].spec) := |m.epochs|]
  {
  }

  /** A rejected process undoes its launch once its stop is resolved, and not before. */
  lemma LaunchEndsDecided(limits: Limits, steps: seq<Step>, g: nat)
    requires g in Run(Initial(limits), steps).launches && Run(Initial(limits), steps).launches[g].phase.Rejecting?
    ensures var m := Run(Initial(limits), steps);
            var stop := m.launches[g].phase.stop;
            && stop < |m.epochs| && m.epochs[stop].spec == m.launches[g].spec
            && if m.epochs[stop].outcome == Unresolved then LaunchEnds(m, g) == m
               else Undone(m, LaunchEnds(m, g), g, m.launches[g].(phase := Errored))
  {
    hide Run, Initial, Fail, Undone, Ownership.Numbered, Ownership.Housed, Ownership.Owned, Ownership.Filed,
         Ownership.Chained, Ownership.Traced, Ownership.Callers, Ownership.Gated;
    Safety.RunSound(limits, steps);
    FailUndoes(Run(Initial(limits), steps), g);
  }

  // ----- callers leave -----

  /** The caller's ticket is gone; nothing else changes. */
  ghost predicate Punched(m: Manager, k: Manager, ticket: nat)
    requires ticket in m.claims && m.claims[ticket].launch in m.launches
  {
    var g := m.claims[ticket].launch;
    var launch := m.launches[g];
    && k.shards == m.shards && k.epochs == m.epochs && k.ledger == m.ledger
    && RestOf(k) == RestOf(m).(
         claims := m.claims - {ticket},
         launches := m.launches[g := launch.(waiters := launch.waiters - 1, tickets := launch.tickets - {ticket})])
  }

  /** The launch gives its process to the ledger, unless it has done so before, and is undone. */
  ghost predicate Surrenders(k: Manager, n: Manager, g: nat)
    requires g in k.launches
  {
    var launch := k.launches[g];
    if launch.cleanup.Kept? then
      && Undone(k, n, g, launch.(abandoned := true, cleanup := Given(|k.epochs|)))
      && n.epochs == k.epochs + [Epoch(launch.spec, false, Unresolved)]
      && n.ledger == k.ledger[KeyOf(launch.spec) := |k.epochs|]
    else Undone(k, n, g, launch.(abandoned := true)) && n.epochs == k.epochs && n.ledger == k.ledger
  }

  /** The process becomes a live shard with the caller's session in it, and bars nobody any more. */
  ghost predicate Adopts(k: Manager, n: Manager, claim: Claim)
    requires claim.launch in k.launches
  {
    var g, request := claim.launch, claim.request;
    var launch := k.launches[g];
    var seat := SeatFor(request, launch.spec.shardId);
    && n.shards == k.shards[launch.spec.shardId :=
                              Shard(launch.spec, map[request.session := seat], request.memory, 0, 0, false)]
    && n.placements == k.placements[request.session := seat] && n.claims == k.claims
    && n.launches == k.launches[g := launch.(adopted := true)] && n.epochs == k.epochs && n.ledger == k.ledger
    && (forall scope :: scope in n.pendingScopes
                        <==> scope in k.pendingScopes && !(scope == launch.spec.scope && k.pendingScopes[scope] == g))
    && (forall s :: s in n.pendingSessions
                    <==> s in k.pendingSessions && !(s in launch.sessions && k.pendingSessions[s] == g))
    && (forall scope :: scope in n.retryIds
                        <==> scope in k.retryIds
                             && !(scope == launch.spec.scope && k.retryIds[scope] == launch.spec.shardId))
  }

  /** What becomes of the launch once the ticket is gone. */
  ghost predicate Concluded(k: Manager, n: Manager, claim: Claim, cancelled: bool)
    requires claim.launch in k.launches
  {
    var g := claim.launch;
    var launch := k.launches[g];
    if launch.adopted then n == k
    else if cancelled then
      if launch.waiters != 0 then n == k
      else if launch.phase == Ran then Surrenders(k, n, g)
      else && n.shards == k.shards && n.epochs == k.epochs && n.ledger == k.ledger
           && RestOf(n) == RestOf(k).(
                retryIds := k.retryIds[launch.spec.scope := launch.spec.shardId],
                launches := k.launches[g := launch.(abandoned := launch.abandoned || launch.phase != Errored)])
    else if launch.phase == Errored then n == k
    else if k.closed then Surrenders(k, n, g)
    else if Repeated(k, claim.request) && launch.spec.shardId !in k.shards && claim.request.session !in k.placements
    then Adopts(k, n, claim)
    else if launch.waiters == 0 then Surrenders(k, n, g)
    else n == k
  }

  lemma TransferSurrenders(k: Manager, g: nat)
    requires g in k.launches
    ensures Surrenders(k, Transfer(k, g), g)
  {
    hide Unbar, Undone;
    UnbarUndoes(k, g, GiveOnce(k.launches[g], |k.epochs|));
    SurrenderFields(k, g);
    UndoneAlike(k, Unbar(k, g, GiveOnce(k.launches[g], |k.epochs|)), Transfer(k, g), g,
                GiveOnce(k.launches[g], |k.epochs|));
  }

  lemma SurrenderFields(k: Manager, g: nat)
    requires g in k.launches
    ensures var n, u := Transfer(k, g), Unbar(k, g, GiveOnce(k.launches[g], |k.epochs|));
            && n.launches == u.launches && n.retryIds == u.retryIds && n.pendingScopes == u.pendingScopes
            && n.pendingSessions == u.pendingSessions && n.shards == u.shards && n.placements == u.placements
            && n.claims == u.claims && n.epochs == TrackOnce(k.epochs, k.launches[g])
            && n.ledger == FileOnce(k.ledger, k.launches[g], |k.epochs|)
  {
    hide Unbar, GiveOnce, TrackOnce, FileOnce;
  }

  lemma UndoneAlike(m: Manager, u: Manager, n: Manager, g: nat, launch: Launch)
    requires Undone(m, u, g, launch)
    requires && n.launches == u.launches && n.retryIds == u.retryIds && n.pendingScopes == u.pendingScopes
             && n.pendingSessions == u.pendingSessions && n.shards == u.shards && n.placements == u.placements
             && n.claims == u.claims
    ensures Undone(m, n, g, launch)
  {
  }

  lemma MarkMarks(k: Manager, g: nat)
    requires g in k.launches
    ensures var n, launch := MarkAbandoned(k, g), k.launches[g];
            && n.shards == k.shards && n.epochs == k.epochs && n.ledger == k.ledger
            && RestOf(n) == RestOf(k).(
                 retryIds := k.retryIds[launch.spec.scope := launch.spec.shardId],
                 launches := k.launches[g := launch.(abandoned := launch.abandoned || launch.phase != Errored)])
  {
  }

  lemma AdoptAdopts(k: Manager, claim: Claim)
    requires claim.launch in k.launches
    ensures Adopts(k, Adopt(k, claim), claim)
  {
  }

  lemma PunchPunches(m: Manager, ticket: nat)
    requires ticket in m.claims && m.claims[ticket].launch in m.launches
    ensures Punched(m, PunchTicket(m, ticket), ticket)
  {
  }

  /** In every reachable state a caller leaves exactly when it is cancelled or its launch is over, gives its ticket
      back, and what then becomes of the launch depends only on who is left and how the launch ended. */
  lemma LeavesDecided(limits: Limits, steps: seq<Step>, ticket: nat, cancelled: bool)
    requires ticket in Run(Initial(limits), steps).claims
    ensures var m := Run(Initial(limits), steps);
            var claim, n := m.claims[ticket], Leaves(m, ticket, cancelled);
            && claim.launch in m.launches
            && var phase := m.launches[claim.launch].phase;
               if !cancelled && phase != Ran && phase != Errored then n == m
               else exists k :: Punched(m, k, ticket) && claim.launch in k.launches && Concluded(k, n, claim, cancelled)
  {
    hide Run, Initial, RestOf, PunchTicket, Punched, GiveUp, Concludes, Concluded;
    var m := Run(Initial(limits), steps);
    var claim := m.claims[ticket];
    Safety.WaitersNeverShort(limits, steps, ticket);
    PunchPunches(m, ticket);
    var k := PunchTicket(m, ticket);
    PunchedHas(m, ticket);
    ConcludesWell(k, claim, cancelled);
    assert Punched(m, k, ticket);
  }

  lemma PunchedHas(m: Manager, ticket: nat)
    requires ticket in m.claims && m.claims[ticket].launch in m.launches
    ensures m.claims[ticket].launch in PunchTicket(m, ticket).launches
  {
  }

  lemma ConcludesWell(k: Manager, claim: Claim, cancelled: bool)
    requires claim.launch in k.launches
    ensures Concluded(k, if cancelled then GiveUp(k, claim.launch) else Concludes(k, claim), claim, cancelled)
  {
    hide RestOf, Transfer, MarkAbandoned, Adopt, Surrenders, Adopts;
    TransferSurrenders(k, claim.launch);
    MarkMarks(k, claim.launch);
    AdoptAdopts(k, claim);
  }

  // ----- observations -----

  /** A sample counts exactly if it is of this process and newer than the last; pressure drains the process, and an
      empty draining process goes to the ledger. */
  lemma ObserveDecided(m: Manager, sample: Sample)
    ensures var n := Observe(m, sample);
            if m.closed || sample.shardId !in m.shards || sample.generation != m.shards[sample.shardId].spec.generation
               || sample.sequence <= m.shards[sample.shardId].sequence
            then n == m
            else
              var id, shard := sample.shardId, m.shards[sample.shardId];
              var drains := shard.draining || sample.oom || sample.heapPressure || m.limits.watermark <= sample.rss;
              && RestOf(n) == RestOf(m)
              && if drains && shard.sessions == map[]
                 then && n.shards == m.shards - {id} && n.epochs == m.epochs + [Epoch(shard.spec, false, Unresolved)]
                      && n.ledger == m.ledger[KeyOf(shard.spec) := |m.epochs|]
                 else && n.shards == m.shards[id := shard.(rss := sample.rss, sequence := sample.sequence,
                                                           draining := drains)]
                      && n.epochs == m.epochs && n.ledger == m.ledger
  {
    hide Rehouse, RestOf;
    if Fresh(m, sample) {
      RehouseRest(m, sample.shardId, Seen(m.shards[sample.shardId], sample, m.limits.watermark));
    }
  }

  // ----- stops -----

  /** Waiting for a stop: one that is running, or has failed for good, is joined; after a retryable failure a new
      epoch is opened in its place. */
  lemma ReselectDecided(limits: Limits, steps: seq<Step>, key: Key)
    ensures var m := Run(Initial(limits), steps);
            var n := Reselect(m, key);
            && RestOf(n) == RestOf(m) && n.shards == m.shards
            && if key in m.ledger && m.ledger[key] < |m.epochs| && m.epochs[m.ledger[key]].outcome == Retryable
               then && n.epochs == m.epochs + [Epoch(m.epochs[m.ledger[key]].spec, false, Unresolved)]
                    && n.ledger == m.ledger[key := |m.epochs|]
               else n.epochs == m.epochs && n.ledger == m.ledger
  {
    hide Run, Initial, Ownership.Numbered, Ownership.Phased, Ownership.Housed, Ownership.Owned, Ownership.Chained,
         Ownership.Traced, Ownership.Callers, Ownership.Gated;
    Safety.RunSound(limits, steps);
  }

  /** A stop that has started and is not resolved takes its outcome; a stop without an error takes its process out of
      the ledger for good. */
  lemma StopReturnsDecided(limits: Limits, steps: seq<Step>, e: nat, outcome: StopOutcome)
    ensures var m := Run(Initial(limits), steps);
            var n := StopReturns(m, e, outcome);
            if e < |m.epochs| && m.epochs[e].started && m.epochs[e].outcome == Unresolved && outcome != Unresolved
            then var key := KeyOf(m.epochs[e].spec);
                 && n.shards == m.shards && RestOf(n) == RestOf(m).(gone := n.gone)
                 && n.epochs == m.epochs[e := m.epochs[e].(outcome := outcome)]
                 && key in m.ledger && m.ledger[key] == e
                 && n.ledger == (if outcome == Stopped then m.ledger - {key} else m.ledger)
                 && n.gone == (if outcome == Stopped then m.gone + {key.generation} else m.gone)
            else n == m
  {
    hide Run, Initial, RestOf, Ownership.Numbered, Ownership.Phased, Ownership.Housed, Ownership.Owned,
         Ownership.Callers, Ownership.Gated;
    var m := Run(Initial(limits), steps);
    Safety.RunSound(limits, steps);
    StopFields(m, e, outcome);
  }

  lemma StopFields(m: Manager, e: nat, outcome: StopOutcome)
    ensures var n := StopReturns(m, e, outcome);
            && n.shards == m.shards && RestOf(n) == RestOf(m).(gone := n.gone)
            && n.epochs == ResolvedAt(m.epochs, e, outcome) && n.ledger == LedgerAfter(m.ledger, m.epochs, e, outcome)
            && n.gone == GoneAfter(m.gone, m.epochs, e, outcome)
            && (n.epochs == m.epochs && n.ledger == m.ledger && n.gone == m.gone ==> n == m)
  {
    hide ResolvedAt, LedgerAfter, GoneAfter;
  }
}
