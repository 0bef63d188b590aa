/** The books of the placement manager: reserved memory is the sum over the
    sessions of a shard and stays within the watermark, every placed session is in
    exactly one live shard at its latest generation, and scopes are not shared. */
module AgentAdmission {
  import opened Common
  import opened AgentManager
  import Ownership = AgentOwnership
  import Safety = AgentSafety

  // ----- sums -----

  function Memory(identities: map<Name, Fingerprint>, session: Name): nat {
    if session in identities then identities[session].memory else 0
  }

  /** The memory estimates of a set of sessions together. */
  ghost function Total(sessions: set<Name>, identities: map<Name, Fingerprint>): nat {
    if sessions == {} then 0 else
    var session :| session in sessions;
    Memory(identities, session) + Total(sessions - {session}, identities)
  }

  lemma {:induction false} TotalTake(sessions: set<Name>, identities: map<Name, Fingerprint>, session: Name)
    requires session in sessions
    ensures Total(sessions, identities) == Memory(identities, session) + Total(sessions - {session}, identities)
    decreases |sessions|
  {
    var first :| first in sessions
      && Total(sessions, identities) == Memory(identities, first) + Total(sessions - {first}, identities);
    if first != session {
      TotalTake(sessions - {first}, identities, session);
      TotalTake(sessions - {session}, identities, first);
      assert sessions - {first} - {session} == sessions - {session} - {first};
    }
  }

  lemma {:induction false} TotalSame(sessions: set<Name>, before: map<Name, Fingerprint>, after: map<Name, Fingerprint>)
    requires forall session | session in sessions :: Memory(before, session) == Memory(after, session)
    ensures Total(sessions, before) == Total(sessions, after)
    decreases |sessions|
  {
    if sessions != {} {
      var session :| session in sessions;
      TotalTake(sessions, before, session);
      TotalTake(sessions, after, session);
      TotalSame(sessions - {session}, before, after);
    }
  }

  // ----- invariant -----

  /** One shard's load is what its sessions reserved, and within bounds. */
  ghost predicate Loaded(shard: Shard, identities: map<Name, Fingerprint>, limits: Limits) {
    && shard.estimated == Total(shard.sessions.Keys, identities)
    && |shard.sessions| <= limits.sessions
    && shard.estimated <= limits.watermark
    && (shard.draining || shard.rss < limits.watermark)
  }

  ghost predicate AllLoaded(shards: map<Name, Shard>, identities: map<Name, Fingerprint>, limits: Limits) {
    forall id | id in shards :: Loaded(shards[id], identities, limits)
  }

  /** Sessions sit where their placement says, and nowhere else. */
  ghost predicate Seated(shards: map<Name, Shard>, placements: map<Name, Placement>) {
    && (forall id, s | id in shards && s in shards[id].sessions ::
          s in placements && placements[s] == shards[id].sessions[s] && placements[s].shardId == id)
    && (forall s | s in placements ::
          && placements[s].session == s && placements[s].shardId in shards
          && s in shards[placements[s].shardId].sessions)
  }

  /** A placement is at the session's latest generation, which has not been released. */
  predicate Timely(placement: Placement, latest: map<Name, nat>, released: map<Name, nat>,
                   identities: map<Name, Fingerprint>) {
    && placement.generation == Count(latest, placement.session)
    && placement.generation != Count(released, placement.session)
    && placement.session in identities
    && identities[placement.session].tenant == placement.tenant
    && identities[placement.session].profile == placement.profile
  }

  ghost predicate AllTimely(placements: map<Name, Placement>, latest: map<Name, nat>, released: map<Name, nat>,
                            identities: map<Name, Fingerprint>) {
    forall s | s in placements :: Timely(placements[s], latest, released, identities)
  }

  /** The process serves the scope the placement asks for. */
  ghost predicate Scoped(shards: map<Name, Shard>, placements: map<Name, Placement>) {
    forall s | s in placements && placements[s].shardId in shards ::
      shards[placements[s].shardId].spec.scope == ScopeFor(placements[s].profile, placements[s].tenant, s)
  }

  /** Waiting callers are admissible and wait for a process of their own scope. */
  ghost predicate Claimed(claims: map<nat, Claim>, launches: map<nat, Launch>, limits: Limits) {
    forall t | t in claims ::
      && claims[t].request.memory <= limits.watermark
      && (claims[t].launch in launches ==> launches[claims[t].launch].spec.scope == ScopeOf(claims[t].request))
  }

  ghost predicate Booked(m: Manager) {
    && ValidLimits(m.limits)
    && AllLoaded(m.shards, m.identities, m.limits)
    && Seated(m.shards, m.placements)
    && AllTimely(m.placements, m.latest, m.released, m.identities)
    && Scoped(m.shards, m.placements)
    && Claimed(m.claims, m.launches, m.limits)
  }

  /** The fields the books are about. */
  ghost predicate SameBooks(m: Manager, n: Manager) {
    && n.limits == m.limits && n.shards == m.shards && n.placements == m.placements
    && n.latest == m.latest && n.released == m.released && n.identities == m.identities
  }

  ghost predicate SameClaims(m: Manager, n: Manager) {
    n.claims == m.claims && n.launches == m.launches && n.limits == m.limits
  }

  lemma BooksKeep(m: Manager, n: Manager)
    requires Booked(m) && SameBooks(m, n) && SameClaims(m, n)
    ensures Booked(n)
  {
  }

  /** Launch records may change as long as their scopes do not. */
  ghost predicate SameScopes(before: map<nat, Launch>, after: map<nat, Launch>) {
    before.Keys == after.Keys && forall g | g in before :: after[g].spec == before[g].spec
  }

  lemma ClaimsKeep(m: Manager, n: Manager)
    requires Booked(m) && SameBooks(m, n) && SameScopes(m.launches, n.launches)
    requires forall t | t in n.claims :: t in m.claims && n.claims[t] == m.claims[t]
    ensures Booked(n)
  {
    hide AllLoaded, Seated, AllTimely, Scoped;
  }

  // ----- sessions come and go -----

  /** The estimates of all other sessions are the same. */
  ghost predicate SameOthers(before: map<Name, Fingerprint>, after: map<Name, Fingerprint>, session: Name) {
    forall s | s != session :: Memory(before, s) == Memory(after, s)
  }

  lemma LeaveSeated(shards: map<Name, Shard>, placements: map<Name, Placement>, session: Name, shard: Shard)
    requires Seated(shards, placements) && session in placements
    requires shard.sessions == shards[placements[session].shardId].sessions - {session}
    ensures Seated(ShardsWith(shards, placements[session].shardId, shard), placements - {session})
  {
    var id := placements[session].shardId;
    var after := ShardsWith(shards, id, shard);
    var left := placements - {session};
    forall i, s | i in after && s in after[i].sessions
      ensures s in left && left[s] == after[i].sessions[s] && left[s].shardId == i
    {
      assert s in shards[i].sessions;
    }
    forall s | s in left
      ensures left[s].session == s && left[s].shardId in after && s in after[left[s].shardId].sessions
    {
      assert s in placements && s in shards[placements[s].shardId].sessions;
      assert placements[s].shardId == id ==> s in shard.sessions;
    }
  }

  lemma LighterLoad(before: Shard, shard: Shard, identities: map<Name, Fingerprint>, after: map<Name, Fingerprint>,
                    limits: Limits, session: Name)
    requires Loaded(before, identities, limits) && limits.watermark < WORD && session in before.sessions
    requires SameOthers(identities, after, session)
    requires shard.sessions == before.sessions - {session} && shard.rss == before.rss
    requires shard.estimated == Minus(before.estimated, Memory(identities, session))
             && (before.draining ==> shard.draining)
    ensures Loaded(shard, after, limits)
  {
    hide Total;
    TotalTake(before.sessions.Keys, identities, session);
    assert shard.sessions.Keys == before.sessions.Keys - {session};
    TotalSame(shard.sessions.Keys, identities, after);
    assert |shard.sessions| == |shard.sessions.Keys| && |before.sessions| == |before.sessions.Keys|;
  }

  lemma SameLoad(shard: Shard, identities: map<Name, Fingerprint>, after: map<Name, Fingerprint>, limits: Limits,
                 session: Name)
    requires Loaded(shard, identities, limits) && SameOthers(identities, after, session) && session !in shard.sessions
    ensures Loaded(shard, after, limits)
  {
    hide Total;
    TotalSame(shard.sessions.Keys, identities, after);
  }

  /** Only this shard's load changes. */
  lemma OneLoadChanges(shards: map<Name, Shard>, identities: map<Name, Fingerprint>, after: map<Name, Fingerprint>,
                       limits: Limits, id: Name, session: Name, shard: Shard)
    requires AllLoaded(shards, identities, limits) && SameOthers(identities, after, session)
    requires forall other | other in shards && other != id :: session !in shards[other].sessions
    requires Loaded(shard, after, limits)
    ensures AllLoaded(shards[id := shard], after, limits) && AllLoaded(ShardsWith(shards, id, shard), after, limits)
  {
    hide Loaded, Emptied, SameOthers;
    forall other | other in shards && other != id ensures Loaded(shards[other], after, limits) {
      SameLoad(shards[other], identities, after, limits, session);
    }
  }

  /** A session is in one shard only. */
  lemma SeatedOnce(shards: map<Name, Shard>, placements: map<Name, Placement>, session: Name)
    requires Seated(shards, placements) && session in placements
    ensures placements[session].shardId in shards && session in shards[placements[session].shardId].sessions
    ensures forall id | id in shards && id != placements[session].shardId :: session !in shards[id].sessions
  {
  }

  lemma Unseated(shards: map<Name, Shard>, placements: map<Name, Placement>, session: Name)
    requires Seated(shards, placements) && session !in placements
    ensures forall id | id in shards :: session !in shards[id].sessions
  {
  }

  lemma LeaveScoped(shards: map<Name, Shard>, placements: map<Name, Placement>, id: Name, shard: Shard, session: Name)
    requires Scoped(shards, placements) && id in shards && shard.spec == shards[id].spec
    ensures Scoped(ShardsWith(shards, id, shard), placements - {session})
            && Scoped(ShardsWith(shards, id, shard), placements)
  {
    hide Emptied;
  }

  /** The session's own fences have moved on; those of the others have not. */
  ghost predicate Moved(m: Manager, n: Manager, session: Name) {
    && (forall s | s != session :: Count(m.latest, s) == Count(n.latest, s))
    && (forall s | s != session :: Count(m.released, s) == Count(n.released, s))
    && (forall s | s != session ::
        (s in m.identities <==> s in n.identities) && (s in m.identities ==> n.identities[s] == m.identities[s]))
    && n.limits == m.limits && n.shards == m.shards && n.placements == m.placements
  }

  lemma MovedOthers(m: Manager, n: Manager, session: Name)
    requires Moved(m, n, session)
    ensures SameOthers(m.identities, n.identities, session)
  {
  }

  lemma MovedTimely(m: Manager, n: Manager, session: Name)
    requires AllTimely(m.placements, m.latest, m.released, m.identities) && Seated(m.shards, m.placements)
             && Moved(m, n, session)
    ensures AllTimely(m.placements - {session}, n.latest, n.released, n.identities)
  {
  }

  lemma LeaveFields(m: Manager, session: Name, memory: nat)
    requires session in m.placements && m.placements[session].shardId in m.shards
    ensures var n := Leave(m, session, memory);
            var placement := m.placements[session];
            && n.shards == ShardsWith(m.shards, placement.shardId,
                                      Without(m.shards[placement.shardId], session, memory, placement.profile))
            && n.placements == m.placements - {session}
            && n.limits == m.limits && n.latest == m.latest && n.released == m.released && n.identities == m.identities
            && SameClaims(m, n)
  {
    hide ShardsWith, EpochsWith, LedgerWith, Without;
  }

  /** A session whose fences moved leaves its shard: the books balance again. */
  lemma LeaveBooked(m: Manager, n: Manager, session: Name)
    requires Booked(m) && Moved(m, n, session) && SameClaims(m, n) && session in m.placements
    ensures Booked(Leave(n, session, Memory(m.identities, session)))
  {
    hide AllLoaded, Seated, AllTimely, Scoped, Claimed, Loaded, Total, Leave, ShardsWith;
    var placement := m.placements[session];
    var id := placement.shardId;
    SeatedOnce(m.shards, m.placements, session);
    LeaveFields(n, session, Memory(m.identities, session));
    var shard := Without(m.shards[id], session, Memory(m.identities, session), placement.profile);
    MovedOthers(m, n, session);
    MovedTimely(m, n, session);
    LeaveSeated(m.shards, m.placements, session, shard);
    LeaveScoped(m.shards, m.placements, id, shard, session);
    LoadedAt(m.shards, m.identities, m.limits, id);
    LighterLoad(m.shards[id], shard, m.identities, n.identities, m.limits, session);
    OneLoadChanges(m.shards, m.identities, n.identities, m.limits, id, session, shard);
  }

  lemma LoadedAt(shards: map<Name, Shard>, identities: map<Name, Fingerprint>, limits: Limits, id: Name)
    requires AllLoaded(shards, identities, limits) && id in shards
    ensures Loaded(shards[id], identities, limits)
  {
  }

  /** Fences of a session without a placement move freely. */
  lemma MovedBooked(m: Manager, n: Manager, session: Name)
    requires Booked(m) && Moved(m, n, session) && SameClaims(m, n) && session !in m.placements
    ensures Booked(n)
  {
    hide Seated, Scoped, Claimed, Loaded, Total, Moved, AllTimely;
    MovedOthers(m, n, session);
    MovedTimely(m, n, session);
    assert m.placements - {session} == m.placements;
    Unseated(m.shards, m.placements, session);
    MovedFields(m, n, session);
    forall id | id in m.shards ensures Loaded(m.shards[id], n.identities, m.limits) {
      SameLoad(m.shards[id], m.identities, n.identities, m.limits, session);
    }
  }

  lemma MovedFields(m: Manager, n: Manager, session: Name)
    requires Moved(m, n, session)
    ensures n.limits == m.limits && n.shards == m.shards && n.placements == m.placements
  {
  }

  lemma FenceMoves(m: Manager, request: Request)
    ensures Moved(m, Fence(m, request), request.session) && SameClaims(m, Fence(m, request))
  {
  }

  lemma ReleaseMoves(m: Manager, session: Name, generation: nat)
    ensures Moved(m, MarkReleased(m, session, generation), session)
            && SameClaims(m, MarkReleased(m, session, generation))
  {
  }

  lemma SupersedeBooked(m: Manager, request: Request)
    requires Booked(m)
    ensures Booked(Supersede(m, request))
  {
    hide Booked, Moved, Leave, SameClaims, Fence;
    if Advances(m, request) {
      FenceMoves(m, request);
      FencePlacements(m, request);
      if request.session in m.placements {
        LeaveBooked(m, Fence(m, request), request.session);
      } else {
        MovedBooked(m, Fence(m, request), request.session);
      }
    }
  }

  lemma FencePlacements(m: Manager, request: Request)
    ensures Fence(m, request).placements == m.placements
  {
  }

  /** A shard changes without gaining or losing a session. */
  lemma RehouseBooked(m: Manager, id: Name, shard: Shard)
    requires Booked(m) && id in m.shards && shard.spec == m.shards[id].spec && shard.sessions == m.shards[id].sessions
    requires Loaded(shard, m.identities, m.limits)
    ensures Booked(Rehouse(m, id, shard))
  {
    hide AllLoaded, AllTimely, Scoped, Claimed, Loaded, Total, ShardsWith, EpochsWith, LedgerWith, Seated;
    SameSeats(m.shards, m.placements, id, shard);
    LeaveScoped(m.shards, m.placements, id, shard, NO_NAME);
    RehouseLoads(m.shards, m.identities, m.limits, id, shard);
  }

  lemma RehouseLoads(shards: map<Name, Shard>, identities: map<Name, Fingerprint>, limits: Limits, id: Name,
                     shard: Shard)
    requires AllLoaded(shards, identities, limits) && Loaded(shard, identities, limits)
    ensures AllLoaded(ShardsWith(shards, id, shard), identities, limits)
  {
    hide Loaded, Emptied;
  }

  lemma SameSeats(shards: map<Name, Shard>, placements: map<Name, Placement>, id: Name, shard: Shard)
    requires Seated(shards, placements) && id in shards && shard.sessions == shards[id].sessions
    ensures Seated(ShardsWith(shards, id, shard), placements)
  {
    var after := ShardsWith(shards, id, shard);
    forall s | s in placements
      ensures placements[s].shardId in after && s in after[placements[s].shardId].sessions
    {
      assert s in shards[placements[s].shardId].sessions;
    }
  }

  lemma DrainedLoaded(shard: Shard, identities: map<Name, Fingerprint>, limits: Limits)
    requires Loaded(shard, identities, limits)
    ensures Loaded(Drained(shard), identities, limits)
  {
    hide Total;
  }

  lemma SeenLoaded(shard: Shard, sample: Sample, identities: map<Name, Fingerprint>, limits: Limits)
    requires Loaded(shard, identities, limits)
    ensures Loaded(Seen(shard, sample, limits.watermark), identities, limits)
  {
    hide Total;
  }

  /** The fences and placements the scan does not touch. */
  ghost predicate SameFences(m: Manager, n: Manager) {
    n.latest == m.latest && n.released == m.released && n.identities == m.identities && n.placements == m.placements
      && n.limits == m.limits
  }

  lemma RehouseFences(m: Manager, id: Name, shard: Shard)
    ensures SameFences(m, Rehouse(m, id, shard))
  {
    hide ShardsWith, EpochsWith, LedgerWith;
  }

  lemma ExpireOneBooked(m: Manager, id: Name, now: int)
    requires Booked(m)
    ensures Booked(ExpireOne(m, id, now)) && SameFences(m, ExpireOne(m, id, now))
  {
    hide Booked, Rehouse, Loaded;
    if id in m.shards && Expired(m, m.shards[id], now) {
      BookedLoad(m, id);
      DrainedLoaded(m.shards[id], m.identities, m.limits);
      RehouseBooked(m, id, Drained(m.shards[id]));
      RehouseFences(m, id, Drained(m.shards[id]));
    }
  }

  lemma BookedLoad(m: Manager, id: Name)
    requires Booked(m) && id in m.shards
    ensures Loaded(m.shards[id], m.identities, m.limits)
  {
  }

  lemma {:induction false} ExpireAllBooked(m: Manager, order: seq<Name>, now: int)
    requires Booked(m)
    ensures Booked(ExpireAll(m, order, now)) && SameFences(m, ExpireAll(m, order, now))
  {
    hide Booked, ExpireOne;
    if order != [] {
      ExpireAllBooked(m, order[..|order| - 1], now);
      ExpireOneBooked(ExpireAll(m, order[..|order| - 1], now), order[|order| - 1], now);
    }
  }

  /** The request is the session's current one and the session has no placement. */
  predicate Ready(m: Manager, request: Request) {
    && Count(m.latest, request.session) == request.generation
    && Count(m.released, request.session) != request.generation
    && request.session in m.identities && m.identities[request.session] == FingerprintOf(request)
    && request.session !in m.placements
  }

  lemma SupersedeReady(m: Manager, request: Request)
    requires Booked(m) && Current(m, request) && request.generation != 0
    ensures Ready(Supersede(m, request), request)
  {
    hide AllLoaded, AllTimely, Scoped, Claimed;
    if Advances(m, request) && request.session in m.placements {
      SeatedOnce(m.shards, m.placements, request.session);
      LeaveFields(Fence(m, request), request.session, MemoryOf(m, request.session));
    }
  }

  // ----- admission -----

  /** On a candidate the unsigned subtractions do not wrap. */
  lemma NoUnderflow(shard: Shard, identities: map<Name, Fingerprint>, limits: Limits)
    requires ValidLimits(limits) && Loaded(shard, identities, limits) && !shard.draining
    ensures Minus(limits.watermark, Used(shard)) == limits.watermark - Used(shard)
    ensures Minus(limits.memory, Used(shard)) == limits.memory - Used(shard)
  {
    hide Total;
  }

  function Seat(shard: Shard, id: Name, request: Request): Shard {
    shard.(sessions := shard.sessions[request.session := PlacementOf(request, id)],
           estimated := Plus(shard.estimated, request.memory))
  }

  lemma CandidateRoom(m: Manager, id: Name, request: Request)
    requires ValidLimits(m.limits) && Candidate(m, id, request) && Loaded(m.shards[id], m.identities, m.limits)
    ensures m.shards[id].estimated + request.memory <= m.limits.watermark
    ensures |m.shards[id].sessions| < m.limits.sessions
  {
    hide Total;
    NoUnderflow(m.shards[id], m.identities, m.limits);
  }

  lemma PlusExact(a: nat, b: nat)
    requires a + b < WORD
    ensures Plus(a, b) == a + b
  {
  }

  lemma HeavierLoad(shard: Shard, id: Name, request: Request, identities: map<Name, Fingerprint>, limits: Limits)
    requires Loaded(shard, identities, limits) && limits.watermark < WORD
    requires shard.estimated + request.memory <= limits.watermark && |shard.sessions| < limits.sessions
    requires request.session !in shard.sessions && Memory(identities, request.session) == request.memory
    ensures Loaded(Seat(shard, id, request), identities, limits)
  {
    hide Total, Plus, PlacementOf;
    PlusExact(shard.estimated, request.memory);
    var before := shard.sessions;
    var after := before[request.session := PlacementOf(request, id)];
    assert after.Keys == before.Keys + {request.session};
    assert after.Keys - {request.session} == before.Keys;
    TotalTake(after.Keys, identities, request.session);
    assert |after| == |after.Keys| && |before| == |before.Keys|;
  }

  lemma PlaceSeats(shards: map<Name, Shard>, placements: map<Name, Placement>, id: Name, request: Request, shard: Shard)
    requires Seated(shards, placements) && request.session !in placements
    requires id in shards ==> shard.sessions == shards[id].sessions[request.session := PlacementOf(request, id)]
    requires id !in shards ==> shard.sessions == map[request.session := PlacementOf(request, id)]
    ensures Seated(shards[id := shard], placements[request.session := PlacementOf(request, id)])
  {
    Unseated(shards, placements, request.session);
  }

  lemma PlaceTimely(m: Manager, id: Name, request: Request)
    requires AllTimely(m.placements, m.latest, m.released, m.identities) && Ready(m, request)
    ensures AllTimely(m.placements[request.session := PlacementOf(request, id)], m.latest, m.released, m.identities)
  {
  }

  lemma PlaceScoped(shards: map<Name, Shard>, placements: map<Name, Placement>, id: Name, request: Request,
                    shard: Shard)
    requires Scoped(shards, placements) && Seated(shards, placements) && shard.spec.scope == ScopeOf(request)
    requires id in shards ==> shard.spec == shards[id].spec
    ensures Scoped(shards[id := shard], placements[request.session := PlacementOf(request, id)])
  {
  }

  lemma PlaceBooked(m: Manager, id: Name, request: Request)
    requires Booked(m) && Candidate(m, id, request) && Ready(m, request)
    ensures Booked(Place(m, id, request))
  {
    hide AllLoaded, AllTimely, Scoped, Claimed, Loaded, Total, Seated, Ready;
    var shard := Seat(m.shards[id], id, request);
    ReadyUnplaced(m, request);
    BookedLoad(m, id);
    Unseated(m.shards, m.placements, request.session);
    CandidateRoom(m, id, request);
    ReadyMemory(m, request);
    HeavierLoad(m.shards[id], id, request, m.identities, m.limits);
    NewLoad(m.shards, m.identities, m.limits, id, shard);
    PlaceSeats(m.shards, m.placements, id, request, shard);
    PlaceTimely(m, id, request);
    PlaceScoped(m.shards, m.placements, id, request, shard);
  }

  lemma ReadyUnplaced(m: Manager, request: Request)
    requires Ready(m, request)
    ensures request.session !in m.placements
  {
  }

  lemma ReadyMemory(m: Manager, request: Request)
    requires Ready(m, request)
    ensures Memory(m.identities, request.session) == request.memory
  {
  }

  lemma NewLoad(shards: map<Name, Shard>, identities: map<Name, Fingerprint>, limits: Limits, id: Name, shard: Shard)
    requires AllLoaded(shards, identities, limits) && Loaded(shard, identities, limits)
    ensures AllLoaded(shards[id := shard], identities, limits)
  {
    hide Loaded;
  }

  // ----- launches and claims -----

  lemma FirstLoad(spec: Spec, request: Request, identities: map<Name, Fingerprint>, limits: Limits)
    requires ValidLimits(limits) && request.memory <= limits.watermark
             && Memory(identities, request.session) == request.memory
    ensures Loaded(NewShard(spec, request), identities, limits)
  {
    hide Total;
    var sessions := NewShard(spec, request).sessions;
    assert sessions.Keys == {request.session} && {request.session} - {request.session} == {};
    TotalTake({request.session}, identities, request.session);
    TotalNone(identities);
    assert |sessions| == |sessions.Keys|;
  }

  lemma TotalNone(identities: map<Name, Fingerprint>)
    ensures Total({}, identities) == 0
  {
  }

  lemma AdmitBooked(m: Manager, claim: Claim)
    requires Booked(m) && Ready(m, claim.request) && claim.launch in m.launches
    requires m.launches[claim.launch].spec.shardId !in m.shards
    requires m.launches[claim.launch].spec.scope == ScopeOf(claim.request) && claim.request.memory <= m.limits.watermark
    ensures Booked(Adopt(m, claim))
  {
    hide AllLoaded, AllTimely, Scoped, Claimed, Loaded, Total, Seated, Ready, ScopesWithout, SessionsWithout, Forget;
    var spec := m.launches[claim.launch].spec;
    var shard := NewShard(spec, claim.request);
    ReadyUnplaced(m, claim.request);
    ReadyMemory(m, claim.request);
    FirstLoad(spec, claim.request, m.identities, m.limits);
    NewLoad(m.shards, m.identities, m.limits, spec.shardId, shard);
    PlaceSeats(m.shards, m.placements, spec.shardId, claim.request, shard);
    PlaceTimely(m, spec.shardId, claim.request);
    PlaceScoped(m.shards, m.placements, spec.shardId, claim.request, shard);
    AdmitClaims(m.claims, m.launches, m.limits, claim.launch);
  }

  lemma AdmitClaims(claims: map<nat, Claim>, launches: map<nat, Launch>, limits: Limits, g: nat)
    requires Claimed(claims, launches, limits) && g in launches
    ensures Claimed(claims, launches[g := Adopted(launches[g])], limits)
  {
  }

  lemma TransferBooked(m: Manager, g: nat)
    requires Booked(m) && g in m.launches
    ensures Booked(Transfer(m, g))
  {
    hide Booked, ScopesWithout, SessionsWithout, TrackOnce, FileOnce;
    ClaimsKeep(m, Transfer(m, g));
  }

  lemma FailBooked(m: Manager, g: nat)
    requires Booked(m) && g in m.launches
    ensures Booked(Fail(m, g))
  {
    hide Booked, ScopesWithout, SessionsWithout;
    ClaimsKeep(m, Fail(m, g));
  }

  lemma KeepBooked(m: Manager, g: nat)
    requires Booked(m) && g in m.launches
    ensures Booked(Keep(m, g)) && Booked(Reject(m, g))
  {
    hide Booked;
    ClaimsKeep(m, Keep(m, g));
    ClaimsKeep(m, Reject(m, g));
  }

  lemma MarkBooked(m: Manager, g: nat)
    requires Booked(m) && g in m.launches
    ensures Booked(MarkAbandoned(m, g))
  {
    hide Booked;
    ClaimsKeep(m, MarkAbandoned(m, g));
  }

  lemma PunchBooked(m: Manager, ticket: nat)
    requires Booked(m) && ticket in m.claims && m.claims[ticket].launch in m.launches
    ensures Booked(PunchTicket(m, ticket))
  {
    hide Booked;
    ClaimsKeep(m, PunchTicket(m, ticket));
  }

  lemma JoinBooked(m: Manager, g: nat, request: Request)
    requires Booked(m) && g in m.launches && m.launches[g].spec.scope == ScopeOf(request)
             && request.memory <= m.limits.watermark
    ensures Booked(Join(m, g, request))
  {
    hide AllLoaded, AllTimely, Scoped, Seated;
    hide Claimed;
    JoinClaims(m.claims, m.launches, m.limits, g, m.nextTicket, request);
  }

  lemma JoinClaims(claims: map<nat, Claim>, launches: map<nat, Launch>, limits: Limits, g: nat, ticket: nat,
                   request: Request)
    requires Claimed(claims, launches, limits) && g in launches
    requires launches[g].spec.scope == ScopeOf(request) && request.memory <= limits.watermark
    ensures Claimed(claims[ticket := Claim(g, request)],
                    launches[g := WithTicket(launches[g], request.session, ticket)], limits)
  {
  }

  lemma BeginBooked(m: Manager, request: Request)
    requires Booked(m) && m.nextGeneration !in m.launches && request.memory <= m.limits.watermark
    requires Ownership.Callers(m)
    ensures Booked(BeginLaunch(m, request))
  {
    hide AllLoaded, AllTimely, Scoped, Seated, Claimed, Ownership.Callers;
    var launch := Launch(NewSpec(m, request), {request.session}, {m.nextTicket}, 1, false, false, Starting, Kept);
    BeginClaims(m, launch, request);
  }

  lemma BeginClaims(m: Manager, launch: Launch, request: Request)
    requires Claimed(m.claims, m.launches, m.limits) && m.nextGeneration !in m.launches && Ownership.Callers(m)
    requires launch.spec.scope == ScopeOf(request) && request.memory <= m.limits.watermark
    ensures Claimed(m.claims[m.nextTicket := Claim(m.nextGeneration, request)], m.launches[m.nextGeneration := launch],
                    m.limits)
  {
    hide Ownership.Barriers, Ownership.Waiting, Ownership.Renounced;
    assert forall t | t in m.claims :: m.claims[t].launch in m.launches;
  }

  // ----- steps -----

  lemma ConcludesBooked(m: Manager, claim: Claim)
    requires Booked(m) && claim.launch in m.launches
    requires m.launches[claim.launch].spec.scope == ScopeOf(claim.request) && claim.request.memory <= m.limits.watermark
    ensures Booked(Concludes(m, claim))
  {
    hide Booked, Transfer, Adopt;
    TransferBooked(m, claim.launch);
    if Adoptable(m, claim, m.launches[claim.launch]) {
      AdmitBooked(m, claim);
    }
  }

  lemma LeavesBooked(m: Manager, ticket: nat, cancelled: bool)
    requires Booked(m)
    ensures Booked(Leaves(m, ticket, cancelled))
  {
    hide Booked, Concludes, Transfer, MarkAbandoned;
    if MayLeave(m, ticket, cancelled) {
      var claim := m.claims[ticket];
      var punched := PunchTicket(m, ticket);
      PunchBooked(m, ticket);
      if cancelled {
        TransferBooked(punched, claim.launch);
        MarkBooked(punched, claim.launch);
      } else {
        ClaimScoped(m, ticket);
        ConcludesBooked(punched, claim);
      }
    }
  }

  lemma ClaimScoped(m: Manager, ticket: nat)
    requires Booked(m) && ticket in m.claims && m.claims[ticket].launch in m.launches
    ensures m.claims[ticket].request.memory <= m.limits.watermark
    ensures m.launches[m.claims[ticket].launch].spec.scope == ScopeOf(m.claims[ticket].request)
  {
  }

  lemma SettleBooked(m: Manager, request: Request, choice: Choice)
    requires Booked(m) && Ownership.Sound(m) && !m.closed && Ready(m, request) && request.memory <= m.limits.watermark
    ensures Booked(Settle(m, request, choice))
  {
    hide Booked, Ownership.Sound, ExpireAll, Place, Join, BeginLaunch, Best, Candidate;
    var scanned := ExpireAll(m, choice.order, request.now);
    ExpireAllBooked(m, choice.order, request.now);
    Safety.ExpireAllSound(m, choice.order, request.now);
    if Best(scanned, choice.candidate, request) {
      BestCandidate(scanned, choice.candidate, request);
      PlaceBooked(scanned, choice.candidate, request);
    }
    if ScopeOf(request) in scanned.pendingScopes {
      ScopeLaunch(scanned, ScopeOf(request));
      JoinBooked(scanned, scanned.pendingScopes[ScopeOf(request)], request);
    }
    if scanned.nextGeneration != 0 {
      FreshGeneration(scanned);
      BeginBooked(scanned, request);
    }
  }

  lemma BestCandidate(m: Manager, id: Name, request: Request)
    requires Best(m, id, request)
    ensures Candidate(m, id, request)
  {
  }

  lemma ScopeLaunch(m: Manager, scope: ScopeKey)
    requires Ownership.Sound(m) && scope in m.pendingScopes
    ensures m.pendingScopes[scope] in m.launches && m.launches[m.pendingScopes[scope]].spec.scope == scope
  {
  }

  lemma FreshGeneration(m: Manager)
    requires Ownership.Sound(m) && m.nextGeneration != 0
    ensures m.nextGeneration !in m.launches && Ownership.Callers(m)
  {
  }

  lemma ReselectBooked(m: Manager, key: Key)
    requires Booked(m)
    ensures Booked(Reselect(m, key))
  {
    hide Booked;
    BooksKeep(m, Reselect(m, key));
  }

  lemma AcquireBooked(m: Manager, request: Request, choice: Choice)
    requires Booked(m) && Ownership.Sound(m)
    ensures Booked(Acquire(m, request, choice))
  {
    hide Booked, Ownership.Sound, Supersede, Settle, Reselect, Join, Ready;
    if !m.closed && Admissible(m, request) {
      if request.session in m.pendingSessions {
        if Rejoins(m, request) {
          JoinBooked(m, m.pendingSessions[request.session], request);
        }
      } else if Current(m, request) {
        SupersedeBooked(m, request);
        SupersedeReady(m, request);
        SupersedeLimits(m, request);
        Safety.SupersedeSound(m, request);
        var fenced := Supersede(m, request);
        ReselectBooked(fenced, choice.prior);
        SettleBooked(fenced, request, choice);
      }
    }
  }

  lemma SupersedeLimits(m: Manager, request: Request)
    requires Booked(m)
    ensures Supersede(m, request).limits == m.limits
  {
    hide AllLoaded, AllTimely, Scoped, Claimed;
    if Advances(m, request) && request.session in m.placements {
      SeatedOnce(m.shards, m.placements, request.session);
      LeaveFields(Fence(m, request), request.session, MemoryOf(m, request.session));
    }
  }

  lemma ReleaseBooked(m: Manager, session: Name, generation: nat)
    requires Booked(m)
    ensures Booked(Release(m, session, generation))
  {
    hide Booked, Leave, Reselect, Moved, SameClaims, MarkReleased;
    var fenced := MarkReleased(m, session, generation);
    ReleaseMoves(m, session, generation);
    MarkedFields(m, session, generation);
    if session in m.placements {
      LeaveBooked(m, fenced, session);
      RememberBooked(Leave(fenced, session, MemoryOf(fenced, session)), ReleasePlaced(fenced, session, generation));
    } else {
      MovedBooked(m, fenced, session);
      if AwaitsCleanup(m, session, generation) {
        ReselectBooked(fenced, m.cleanups[session].key);
      }
    }
  }

  lemma MarkedFields(m: Manager, session: Name, generation: nat)
    ensures var n := MarkReleased(m, session, generation);
            n.placements == m.placements && n.identities == m.identities && n.cleanups == m.cleanups
              && n.epochs == m.epochs
  {
  }

  lemma RememberBooked(m: Manager, n: Manager)
    requires Booked(m) && n == m.(cleanups := n.cleanups)
    ensures Booked(n)
  {
    hide Booked;
    BooksKeep(m, n);
  }

  lemma ObserveBooked(m: Manager, sample: Sample)
    requires Booked(m)
    ensures Booked(Observe(m, sample))
  {
    hide Booked, Rehouse, Loaded;
    if !m.closed && Fresh(m, sample) {
      BookedLoad(m, sample.shardId);
      SeenLoaded(m.shards[sample.shardId], sample, m.identities, m.limits);
      RehouseBooked(m, sample.shardId, Seen(m.shards[sample.shardId], sample, m.limits.watermark));
    }
  }

  lemma LaunchReturnsBooked(m: Manager, g: nat, present: bool, valid: bool)
    requires Booked(m)
    ensures Booked(LaunchReturns(m, g, present, valid)) && Booked(LaunchEnds(m, g))
  {
    hide Booked, Fail, Keep, Reject;
    if g in m.launches {
      FailBooked(m, g);
      KeepBooked(m, g);
    }
  }

  lemma StopsBooked(m: Manager, e: nat, outcome: StopOutcome)
    requires Booked(m)
    ensures Booked(StartStop(m, e)) && Booked(StopReturns(m, e, outcome)) && Booked(m.(gate := Free))
  {
    hide Booked, StartedAt, ResolvedAt, LedgerAfter, GoneAfter;
    BooksKeep(m, StartStop(m, e));
    BooksKeep(m, StopReturns(m, e, outcome));
    BooksKeep(m, m.(gate := Free));
  }

  lemma {:induction false} TransferAllBooked(m: Manager, finished: seq<nat>)
    requires Booked(m)
    ensures Booked(TransferAll(m, finished))
  {
    hide Booked, Transfer;
    if finished != [] {
      TransferAllBooked(m, finished[..|finished| - 1]);
      var before := TransferAll(m, finished[..|finished| - 1]);
      if Barred(before, finished[|finished| - 1]) {
        TransferBooked(before, finished[|finished| - 1]);
      }
    }
  }

  lemma CloseBooked(m: Manager, finished: seq<nat>)
    requires Booked(m)
    ensures Booked(Close(m, finished))
  {
    hide Booked, TransferAll, Barred, Closed, Regate;
    ClosedBooked(m);
    TransferAllBooked(Closed(m), finished);
    RegateBooked(TransferAll(Closed(m), finished));
  }

  lemma ClosedBooked(m: Manager)
    requires Booked(m)
    ensures Booked(Closed(m))
  {
    hide Booked;
    BooksKeep(m, Closed(m));
  }

  lemma RegateBooked(m: Manager)
    requires Booked(m)
    ensures Booked(Regate(m))
  {
    hide Booked;
    BooksKeep(m, Regate(m));
  }

  lemma DrainBooked(m: Manager, ids: seq<Name>, keys: seq<Key>)
    requires Booked(m) && Ownership.Sound(m)
    ensures Booked(Drain(m, ids, keys))
  {
    hide Booked, Claimed, Ownership.Sound, RetireAll, ReselectAll;
    if m.gate == Cleared && (forall id | id in m.shards :: id in ids) && forall key | key in m.ledger :: key in keys {
      Safety.RetireAllSound(m, ids);
      Safety.ReselectAllSound(RetireAll(m, ids), keys);
      var taken := ReselectAll(RetireAll(m, ids), keys);
      assert taken.shards == map[];
      ClaimsBooked(m);
      EmptyBooked(Drain(m, ids, keys));
    }
  }

  lemma ClaimsBooked(m: Manager)
    requires Booked(m)
    ensures ValidLimits(m.limits) && Claimed(m.claims, m.launches, m.limits)
  {
  }

  lemma EmptyBooked(m: Manager)
    requires ValidLimits(m.limits) && Claimed(m.claims, m.launches, m.limits) && m.shards == map[]
             && m.placements == map[]
    ensures Booked(m)
  {
  }

  lemma NextBooked(m: Manager, step: Step)
    requires Booked(m) && Ownership.Sound(m)
    ensures Booked(Next(m, step))
  {
    hide Booked, Ownership.Sound, Acquire, Leaves, LaunchReturns, LaunchEnds, StartStop, StopReturns, Release, Observe,
         Close, Drain;
    match step
    case AcquireStep(request, choice) => AcquireBooked(m, request, choice);
    case LeavesStep(ticket, cancelled) => LeavesBooked(m, ticket, cancelled);
    case LaunchReturnsStep(launch, present, valid) => LaunchReturnsBooked(m, launch, present, valid);
    case LaunchEndsStep(launch) => LaunchReturnsBooked(m, launch, false, false);
    case StartStopStep(epoch) => StopsBooked(m, epoch, Unresolved);
    case StopReturnsStep(epoch, outcome) => StopsBooked(m, epoch, outcome);
    case ReleaseStep(session, generation) => ReleaseBooked(m, session, generation);
    case ObserveStep(sample) => ObserveBooked(m, sample);
    case CloseStep(finished) => CloseBooked(m, finished);
    case DrainStep(ids, keys) => DrainBooked(m, ids, keys);
    case ShutdownReturnsStep => StopsBooked(m, 0, Unresolved);
  }

  lemma {:induction false} RunBooked(limits: Limits, steps: seq<Step>)
    requires ValidLimits(limits)
    ensures Booked(Run(Initial(limits), steps))
  {
    hide Booked, Next, Ownership.Sound, Initial;
    if steps == [] {
      InitialBooked(limits);
    } else {
      var before := steps[..|steps| - 1];
      RunBooked(limits, before);
      Safety.RunSound(limits, before);
      NextBooked(Run(Initial(limits), before), steps[|steps| - 1]);
    }
  }

  lemma InitialBooked(limits: Limits)
    requires ValidLimits(limits)
    ensures Booked(Initial(limits))
  {
  }

  // ----- what the books mean -----

  /** In every reachable state a shard's reservation is the sum over its sessions,
      within the watermark, and the admission subtractions cannot wrap around. */
  lemma AdmissionBounds(limits: Limits, steps: seq<Step>, id: Name)
    requires ValidLimits(limits) && id in Run(Initial(limits), steps).shards
    ensures var m := Run(Initial(limits), steps);
            var shard := m.shards[id];
            && shard.estimated == Total(shard.sessions.Keys, m.identities) <= m.limits.watermark
            && |shard.sessions| <= m.limits.sessions
            && (!shard.draining ==>
                  && shard.rss < m.limits.watermark
                  && Minus(m.limits.watermark, Used(shard)) == m.limits.watermark - Used(shard)
                  && Minus(m.limits.memory, Used(shard)) == m.limits.memory - Used(shard))
  {
    hide Run, Total;
    var m := Run(Initial(limits), steps);
    RunBooked(limits, steps);
    BookedLoad(m, id);
    if !m.shards[id].draining {
      NoUnderflow(m.shards[id], m.identities, m.limits);
    }
  }

  /** What a leaving session gives back was reserved: the source's check that
      it exceeds the reservation never fires, and the subtraction cannot wrap around. */
  lemma ReservationCovered(limits: Limits, steps: seq<Step>, session: Name)
    requires ValidLimits(limits) && session in Run(Initial(limits), steps).placements
    ensures var m := Run(Initial(limits), steps);
            var id := m.placements[session].shardId;
            id in m.shards && MemoryOf(m, session) <= m.shards[id].estimated
  {
    hide Run, Total, AllLoaded, Scoped, Claimed, AllTimely, Seated;
    var m := Run(Initial(limits), steps);
    RunBooked(limits, steps);
    SeatedOnce(m.shards, m.placements, session);
    var id := m.placements[session].shardId;
    BookedLoad(m, id);
    TotalTake(m.shards[id].sessions.Keys, m.identities, session);
  }

  /** A placed session is in its shard and in no other, at its latest and unreleased generation. */
  lemma PlacementFenced(limits: Limits, steps: seq<Step>, session: Name)
    requires ValidLimits(limits) && session in Run(Initial(limits), steps).placements
    ensures var m := Run(Initial(limits), steps);
            var placement := m.placements[session];
            && placement.generation == Count(m.latest, session) && placement.generation != Count(m.released, session)
            && placement.shardId in m.shards && m.shards[placement.shardId].sessions.Keys >= {session}
            && (forall id | id in m.shards && session in m.shards[id].sessions :: id == placement.shardId)
  {
    hide Run, AllLoaded, Scoped, Claimed;
    var m := Run(Initial(limits), steps);
    RunBooked(limits, steps);
    SeatedOnce(m.shards, m.placements, session);
    assert Timely(m.placements[session], m.latest, m.released, m.identities);
  }

  /** Sessions share a process only within one scope, so a session-scoped process serves one session. */
  lemma ScopesIsolated(limits: Limits, steps: seq<Step>, id: Name, left: Name, right: Name)
    requires ValidLimits(limits) && id in Run(Initial(limits), steps).shards
    requires var shard := Run(Initial(limits), steps).shards[id]; left in shard.sessions && right in shard.sessions
    ensures var shard := Run(Initial(limits), steps).shards[id];
            var p, q := shard.sessions[left], shard.sessions[right];
            && ScopeFor(p.profile, p.tenant, left) == ScopeFor(q.profile, q.tenant, right) == shard.spec.scope
            && (p.profile.scope == SessionScope ==> left == right)
            && (p.profile.scope == TenantScope ==> p.tenant == q.tenant)
  {
    hide Run, AllLoaded, AllTimely, Claimed;
    RunBooked(limits, steps);
    var m := Run(Initial(limits), steps);
    assert m.placements[left] == m.shards[id].sessions[left] && m.placements[left].shardId == id;
    assert m.placements[right] == m.shards[id].sessions[right] && m.placements[right].shardId == id;
  }
}
