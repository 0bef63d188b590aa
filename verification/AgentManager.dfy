/** The placement manager as a machine of critical sections: each step is one
    stretch of code under the manager's mutex, and launches and stops complete
    at any later time. A shard generation names one launch and its process. */
module AgentManager {
  import opened Common

  const WORD := 0x1_0000_0000_0000_0000

  datatype ProcessScope = SharedScope | TenantScope | SessionScope
  datatype Isolation = NoIsolation | NSJail | Docker | Firecracker
  datatype Trust = PlatformReviewed | TenantReviewed | SignedThirdParty | Unreviewed
  datatype Profile = Profile(scope: ProcessScope, isolation: Isolation)

  datatype Limits = Limits(sessions: nat, memory: nat, watermark: nat, lifetime: int)

  /** Processes are shared only within one scope; `owner` is the tenant or the
      session for the narrower scopes. */
  datatype ScopeKey = ScopeKey(profile: Profile, owner: Name)

  datatype Spec = Spec(shardId: Name, generation: nat, scope: ScopeKey, createdAt: int)

  datatype Key = Key(shardId: Name, generation: nat)

  datatype Fingerprint = Fingerprint(tenant: Name, worker: Name, profile: Profile, memory: nat)

  datatype Request = Request(tenant: Name, session: Name, generation: nat, trust: Trust, profile: Profile,
                             worker: Name, memory: nat, now: int)

  datatype Placement = Placement(tenant: Name, session: Name, generation: nat, shardId: Name, worker: Name,
                                 profile: Profile, admittedAt: int)

  datatype Shard = Shard(spec: Spec, sessions: map<Name, Placement>, estimated: nat, rss: nat, sequence: nat,
                         draining: bool)

  datatype Phase = Starting | Rejecting(stop: nat) | Ran | Errored

  /** Whether a launch record has given its process to the ledger. */
  datatype Cleanup = Kept | Given(epoch: nat)

  /** One launch record; its tickets are the callers that wait for it. */
  datatype Launch = Launch(spec: Spec, sessions: set<Name>, tickets: set<nat>, waiters: int,
                           abandoned: bool, adopted: bool, phase: Phase, cleanup: Cleanup)

  datatype Claim = Claim(launch: nat, request: Request)

  datatype StopOutcome = Unresolved | Stopped | Retryable | Terminal

  /** One attempt to stop a process. */
  datatype Epoch = Epoch(spec: Spec, started: bool, outcome: StopOutcome)

  datatype Released = Released(generation: nat, key: Key)

  /** Where the one running Shutdown call is. */
  datatype Gate = Free | Closing | Cleared | Draining(stops: set<nat>)

  datatype Manager = Manager(
    limits: Limits, closed: bool, gate: Gate,
    shards: map<Name, Shard>, placements: map<Name, Placement>,
    latest: map<Name, nat>, released: map<Name, nat>, identities: map<Name, Fingerprint>, cleanups: map<Name, Released>,
    pendingSessions: map<Name, nat>, pendingScopes: map<ScopeKey, nat>,
    ledger: map<Key, nat>, retryIds: map<ScopeKey, Name>,
    nextSequence: nat, nextGeneration: nat,
    launches: map<nat, Launch>, epochs: seq<Epoch>, claims: map<nat, Claim>, nextTicket: nat,
    spawned: set<nat>, gone: set<nat>)

  predicate ValidLimits(limits: Limits) {
    && 0 < limits.sessions && 0 < limits.watermark <= limits.memory < WORD && 0 < limits.lifetime
  }

  function Initial(limits: Limits): Manager {
    Manager(limits, false, Free, map[], map[], map[], map[], map[], map[], map[], map[], map[], map[],
            1, 1, map[], [], map[], 0, {}, {})
  }

  // ----- value-only parts -----

  function ScopeStrength(scope: ProcessScope): nat {
    match scope case SharedScope => 0 case TenantScope => 1 case SessionScope => 2
  }

  function IsolationStrength(isolation: Isolation): nat {
    match isolation case NoIsolation => 0 case NSJail => 1 case Docker => 1 case Firecracker => 2
  }

  function MinimumScope(trust: Trust): nat {
    match trust case PlatformReviewed => 0 case TenantReviewed => 1 case SignedThirdParty => 1 case Unreviewed => 2
  }

  function MinimumIsolation(trust: Trust): nat {
    match trust case PlatformReviewed => 0 case TenantReviewed => 0 case SignedThirdParty => 1 case Unreviewed => 2
  }

  predicate ValidProfile(trust: Trust, profile: Profile) {
    MinimumScope(trust) <= ScopeStrength(profile.scope)
      && MinimumIsolation(trust) <= IsolationStrength(profile.isolation)
  }

  function ScopeFor(profile: Profile, tenant: Name, session: Name): ScopeKey {
    ScopeKey(profile,
             match profile.scope
             case SharedScope => NO_NAME
             case TenantScope => tenant
             case SessionScope => session)
  }

  function ScopeOf(request: Request): ScopeKey {
    ScopeFor(request.profile, request.tenant, request.session)
  }

  function FingerprintOf(request: Request): Fingerprint {
    Fingerprint(request.tenant, request.worker, request.profile, request.memory)
  }

  function PlacementOf(request: Request, shardId: Name): Placement {
    Placement(request.tenant, request.session, request.generation, shardId, request.worker, request.profile,
              request.now)
  }

  function KeyOf(spec: Spec): Key {
    Key(spec.shardId, spec.generation)
  }

  /** Unsigned 64-bit subtraction and addition. */
  function Minus(a: nat, b: nat): nat {
    (a - b) % WORD
  }

  function Plus(a: nat, b: nat): nat {
    (a + b) % WORD
  }

  function Count(counters: map<Name, nat>, name: Name): nat {
    if name in counters then counters[name] else 0
  }

  predicate Admissible(m: Manager, request: Request) {
    && request.generation != 0 && request.memory != 0 && request.worker != NO_NAME
    && ValidProfile(request.trust, request.profile)
    && request.memory <= m.limits.watermark && request.memory <= m.limits.memory
  }

  // ----- the stop ledger -----

  /** Moves a process into the ledger under a new stop epoch. */
  function Track(m: Manager, spec: Spec): Manager {
    m.(epochs := m.epochs + [Epoch(spec, false, Unresolved)], ledger := m.ledger[KeyOf(spec) := |m.epochs|])
  }

  /** The last epoch of a process ended with a retryable error. */
  predicate Reopens(epochs: seq<Epoch>, ledger: map<Key, nat>, key: Key) {
    key in ledger && ledger[key] < |epochs| && epochs[ledger[key]].outcome == Retryable
  }

  predicate Ended(epochs: seq<Epoch>, ledger: map<Key, nat>, key: Key) {
    key in ledger && ledger[key] < |epochs| && epochs[ledger[key]].outcome == Stopped
  }

  function ReopenedEpochs(epochs: seq<Epoch>, ledger: map<Key, nat>, key: Key): seq<Epoch> {
    if Reopens(epochs, ledger, key) then epochs + [Epoch(epochs[ledger[key]].spec, false, Unresolved)] else epochs
  }

  function ReopenedLedger(epochs: seq<Epoch>, ledger: map<Key, nat>, key: Key): map<Key, nat> {
    if Reopens(epochs, ledger, key) then ledger[key := |epochs|]
    else if Ended(epochs, ledger, key) then ledger - {key}
    else ledger
  }

  /** Joins unresolved work, replays a terminal result, or opens an epoch after a retryable one. */
  function Reselect(m: Manager, key: Key): Manager {
    m.(epochs := ReopenedEpochs(m.epochs, m.ledger, key), ledger := ReopenedLedger(m.epochs, m.ledger, key))
  }

  // ----- launch records -----

  function Abandon(launch: Launch): Launch {
    launch.(abandoned := true)
  }

  function Give(launch: Launch, epoch: nat): Launch {
    launch.(abandoned := true, cleanup := Given(epoch))
  }

  function InPhase(launch: Launch, phase: Phase): Launch {
    launch.(phase := phase)
  }

  function Adopted(launch: Launch): Launch {
    launch.(adopted := true)
  }

  function WithTicket(launch: Launch, session: Name, ticket: nat): Launch {
    launch.(waiters := launch.waiters + 1, sessions := launch.sessions + {session},
            tickets := launch.tickets + {ticket})
  }

  function WithoutTicket(launch: Launch, ticket: nat): Launch {
    launch.(waiters := launch.waiters - 1, tickets := launch.tickets - {ticket})
  }

  function ScopesWithout(scopes: map<ScopeKey, nat>, scope: ScopeKey, g: nat): map<ScopeKey, nat> {
    if scope in scopes && scopes[scope] == g then scopes - {scope} else scopes
  }

  function SessionsWithout(sessions: map<Name, nat>, waiting: set<Name>, g: nat): map<Name, nat> {
    map s | s in sessions && !(s in waiting && sessions[s] == g) :: sessions[s]
  }

  /** Releases the launch barrier. */
  function RemovePending(m: Manager, g: nat): Manager
    requires g in m.launches
  {
    m.(pendingScopes := ScopesWithout(m.pendingScopes, m.launches[g].spec.scope, g),
       pendingSessions := SessionsWithout(m.pendingSessions, m.launches[g].sessions, g))
  }

  /** The launch gives up its barrier, and its shard identifier may be tried again. */
  function Unbar(m: Manager, g: nat, launch: Launch): Manager {
    m.(pendingScopes := ScopesWithout(m.pendingScopes, launch.spec.scope, g),
       pendingSessions := SessionsWithout(m.pendingSessions, launch.sessions, g),
       retryIds := m.retryIds[launch.spec.scope := launch.spec.shardId],
       launches := m.launches[g := launch])
  }

  function GiveOnce(launch: Launch, epoch: nat): Launch {
    if launch.cleanup.Kept? then Give(launch, epoch) else Abandon(launch)
  }

  function TrackOnce(epochs: seq<Epoch>, launch: Launch): seq<Epoch> {
    if launch.cleanup.Kept? then epochs + [Epoch(launch.spec, false, Unresolved)] else epochs
  }

  function FileOnce(ledger: map<Key, nat>, launch: Launch, epoch: nat): map<Key, nat> {
    if launch.cleanup.Kept? then ledger[KeyOf(launch.spec) := epoch] else ledger
  }

  /** Moves a finished, unadopted process from its launch record to the ledger, once. */
  function Transfer(m: Manager, g: nat): Manager
    requires g in m.launches
  {
    Unbar(m, g, GiveOnce(m.launches[g], |m.epochs|))
      .(epochs := TrackOnce(m.epochs, m.launches[g]), ledger := FileOnce(m.ledger, m.launches[g], |m.epochs|))
  }

  /** A launch that failed, or whose rejected process has been dealt with. */
  function Fail(m: Manager, g: nat): Manager
    requires g in m.launches
  {
    Unbar(m, g, InPhase(m.launches[g], Errored))
  }

  function Join(m: Manager, g: nat, request: Request): Manager
    requires g in m.launches
  {
    m.(launches := m.launches[g := WithTicket(m.launches[g], request.session, m.nextTicket)],
       pendingSessions := m.pendingSessions[request.session := g],
       claims := m.claims[m.nextTicket := Claim(g, request)],
       nextTicket := m.nextTicket + 1)
  }

  // ----- shards -----

  function RetireShard(m: Manager, id: Name): Manager
    requires id in m.shards
  {
    Track(m.(shards := m.shards - {id}), m.shards[id].spec)
  }

  predicate Emptied(shard: Shard) {
    shard.draining && shard.sessions == map[]
  }

  /** The shard after a session has left it. */
  function Without(shard: Shard, session: Name, memory: nat, profile: Profile): Shard {
    shard.(sessions := shard.sessions - {session}, estimated := Minus(shard.estimated, memory),
           draining := shard.draining || profile.scope == SessionScope)
  }

  function ShardsWith(shards: map<Name, Shard>, id: Name, shard: Shard): map<Name, Shard> {
    if Emptied(shard) then shards - {id} else shards[id := shard]
  }

  function EpochsWith(epochs: seq<Epoch>, shard: Shard): seq<Epoch> {
    if Emptied(shard) then epochs + [Epoch(shard.spec, false, Unresolved)] else epochs
  }

  function LedgerWith(ledger: map<Key, nat>, shard: Shard, epoch: nat): map<Key, nat> {
    if Emptied(shard) then ledger[KeyOf(shard.spec) := epoch] else ledger
  }

  /** A shard has changed; an emptied draining shard goes to the ledger. */
  function Rehouse(m: Manager, id: Name, shard: Shard): Manager {
    m.(shards := ShardsWith(m.shards, id, shard),
       epochs := EpochsWith(m.epochs, shard),
       ledger := LedgerWith(m.ledger, shard, |m.epochs|))
  }

  function Unplace(m: Manager, session: Name): Manager {
    m.(placements := m.placements - {session})
  }

  /** A session leaves its shard. */
  function Leave(m: Manager, session: Name, memory: nat): Manager
    requires session in m.placements
  {
    var placement := m.placements[session];
    if placement.shardId !in m.shards then Unplace(m, session)
    else Rehouse(Unplace(m, session), placement.shardId,
                 Without(m.shards[placement.shardId], session, memory, placement.profile))
  }

  // ----- Acquire -----

  /** Past the fences: not stale, not released, not a conflict and not a replay. */
  predicate Current(m: Manager, request: Request) {
    var latest := Count(m.latest, request.session);
    && latest <= request.generation
    && Count(m.released, request.session) != request.generation
    && (request.generation == latest ==>
          && request.session in m.identities && m.identities[request.session] == FingerprintOf(request)
          && request.session !in m.placements)
  }

  predicate Advances(m: Manager, request: Request) {
    Count(m.latest, request.session) < request.generation
  }

  function Fence(m: Manager, request: Request): Manager {
    m.(latest := m.latest[request.session := request.generation],
       identities := m.identities[request.session := FingerprintOf(request)])
  }

  /** A newer generation displaces the session's placement. */
  function Supersede(m: Manager, request: Request): Manager {
    if !Advances(m, request) then m
    else if request.session in m.placements then Leave(Fence(m, request), request.session, MemoryOf(m, request.session))
    else Fence(m, request)
  }

  predicate Prior(m: Manager, scope: ScopeKey, key: Key) {
    key in m.ledger && m.ledger[key] < |m.epochs| && m.epochs[m.ledger[key]].spec.scope == scope
  }

  predicate Expired(m: Manager, shard: Shard, now: int) {
    shard.spec.createdAt + m.limits.lifetime <= now
  }

  function Drained(shard: Shard): Shard {
    shard.(draining := true)
  }

  function ExpireOne(m: Manager, id: Name, now: int): Manager {
    if id in m.shards && Expired(m, m.shards[id], now) then Rehouse(m, id, Drained(m.shards[id])) else m
  }

  /** The expiry part of the candidate scan, in the order the map is walked. */
  function ExpireAll(m: Manager, order: seq<Name>, now: int): Manager {
    if order == [] then m else ExpireOne(ExpireAll(m, order[..|order| - 1], now), order[|order| - 1], now)
  }

  function Used(shard: Shard): nat {
    if shard.rss > shard.estimated then shard.rss else shard.estimated
  }

  predicate Candidate(m: Manager, id: Name, request: Request) {
    && id in m.shards
    && !Expired(m, m.shards[id], request.now)
    && m.shards[id].spec.scope == ScopeOf(request)
    && !m.shards[id].draining
    && |m.shards[id].sessions| < m.limits.sessions
    && request.memory <= Minus(m.limits.watermark, Used(m.shards[id]))
    && request.memory <= Minus(m.limits.memory, Used(m.shards[id]))
  }

  /** The least loaded candidate, and among those the least identifier. */
  ghost predicate Best(m: Manager, id: Name, request: Request) {
    && Candidate(m, id, request)
    && (forall other | Candidate(m, other, request) && other != id ::
          || |m.shards[id].sessions| < |m.shards[other].sessions|
          || (|m.shards[id].sessions| == |m.shards[other].sessions| && id < other))
  }

  function Place(m: Manager, id: Name, request: Request): Manager
    requires id in m.shards
  {
    var shard := m.shards[id];
    var placement := PlacementOf(request, id);
    m.(shards := m.shards[id := shard.(sessions := shard.sessions[request.session := placement],
                                       estimated := Plus(shard.estimated, request.memory))],
       placements := m.placements[request.session := placement])
  }

  function NewSpec(m: Manager, request: Request): Spec {
    var scope := ScopeOf(request);
    Spec(if scope in m.retryIds then m.retryIds[scope] else m.nextSequence, m.nextGeneration, scope, request.now)
  }

  /** Generations are 64-bit and run out. */
  function After(generation: nat): nat {
    if generation == WORD - 1 then 0 else generation + 1
  }

  function SequenceAfter(retryIds: map<ScopeKey, Name>, scope: ScopeKey, sequence: nat): nat {
    if scope in retryIds then sequence else sequence + 1
  }

  function FirstLaunch(spec: Spec, session: Name, ticket: nat): Launch {
    Launch(spec, {session}, {ticket}, 1, false, false, Starting, Kept)
  }

  function BeginLaunch(m: Manager, request: Request): Manager {
    var scope := ScopeOf(request);
    var g := m.nextGeneration;
    m.(nextGeneration := After(g),
       nextSequence := SequenceAfter(m.retryIds, scope, m.nextSequence),
       launches := m.launches[g := FirstLaunch(NewSpec(m, request), request.session, m.nextTicket)],
       pendingScopes := m.pendingScopes[scope := g],
       pendingSessions := m.pendingSessions[request.session := g],
       claims := m.claims[m.nextTicket := Claim(g, request)],
       nextTicket := m.nextTicket + 1)
  }

  /** The map order of the scan, the first prior stop and the chosen candidate. */
  datatype Choice = Choice(order: seq<Name>, prior: Key, candidate: Name)

  /** After the fences and without a stop to wait for: place, share a launch, or begin one. */
  ghost function Settle(m: Manager, request: Request, choice: Choice): Manager {
    if !(forall id | id in m.shards :: id in choice.order) then m else
    var scanned := ExpireAll(m, choice.order, request.now);
    if |scanned.epochs| != |m.epochs| then scanned
    else if exists id :: Candidate(scanned, id, request) then
      if Best(scanned, choice.candidate, request) then Place(scanned, choice.candidate, request) else m
    else if ScopeOf(request) in scanned.pendingScopes then
      var g := scanned.pendingScopes[ScopeOf(request)];
      if g in scanned.launches && !scanned.launches[g].abandoned then Join(scanned, g, request) else scanned
    else if scanned.nextGeneration == 0 then scanned
    else BeginLaunch(scanned, request)
  }

  /** The caller may join the launch its session already waits for. */
  predicate Rejoins(m: Manager, request: Request) {
    && request.session in m.pendingSessions
    && m.pendingSessions[request.session] in m.launches
    && !m.launches[m.pendingSessions[request.session]].abandoned
    && m.launches[m.pendingSessions[request.session]].spec.scope == ScopeOf(request)
    && Count(m.latest, request.session) == request.generation
    && Count(m.released, request.session) != request.generation
    && request.session in m.identities && m.identities[request.session] == FingerprintOf(request)
  }

  /** One pass of the Acquire loop under the mutex. */
  ghost function Acquire(m: Manager, request: Request, choice: Choice): Manager {
    if m.closed || !Admissible(m, request) then m
    else if request.session in m.pendingSessions then
      if Rejoins(m, request) then Join(m, m.pendingSessions[request.session], request) else m
    else if !Current(m, request) then m
    else
      var fenced := Supersede(m, request);
      if |fenced.epochs| != |m.epochs| then fenced
      else if exists key :: Prior(fenced, ScopeOf(request), key) then
        if Prior(fenced, ScopeOf(request), choice.prior) then Reselect(fenced, choice.prior) else m
      else Settle(fenced, request, choice)
  }

  // ----- waiting for a launch -----

  predicate Adoptable(m: Manager, claim: Claim, launch: Launch) {
    && Count(m.latest, claim.request.session) == claim.request.generation
    && Count(m.released, claim.request.session) != claim.request.generation
    && claim.request.session in m.identities && m.identities[claim.request.session] == FingerprintOf(claim.request)
    && launch.spec.shardId !in m.shards && claim.request.session !in m.placements
  }

  function Forget(retryIds: map<ScopeKey, Name>, spec: Spec): map<ScopeKey, Name> {
    if spec.scope in retryIds && retryIds[spec.scope] == spec.shardId then retryIds - {spec.scope} else retryIds
  }

  function NewShard(spec: Spec, request: Request): Shard {
    Shard(spec, map[request.session := PlacementOf(request, spec.shardId)], request.memory, 0, 0, false)
  }

  /** The launch becomes a live shard with the claim's session in it. */
  function Admit(m: Manager, claim: Claim): Manager
    requires claim.launch in m.launches
  {
    var launch := m.launches[claim.launch];
    m.(shards := m.shards[launch.spec.shardId := NewShard(launch.spec, claim.request)],
       placements := m.placements[claim.request.session := PlacementOf(claim.request, launch.spec.shardId)],
       launches := m.launches[claim.launch := Adopted(launch)],
       retryIds := Forget(m.retryIds, launch.spec))
  }

  function Adopt(m: Manager, claim: Claim): Manager
    requires claim.launch in m.launches
  {
    RemovePending(Admit(m, claim), claim.launch)
  }

  /** The caller gives its ticket back. */
  function PunchTicket(m: Manager, ticket: nat): Manager
    requires ticket in m.claims && m.claims[ticket].launch in m.launches
  {
    var g := m.claims[ticket].launch;
    m.(launches := m.launches[g := WithoutTicket(m.launches[g], ticket)],
       claims := m.claims - {ticket})
  }

  function AbandonUnfinished(launch: Launch): Launch {
    if launch.phase == Errored then launch else Abandon(launch)
  }

  function MarkAbandoned(m: Manager, g: nat): Manager
    requires g in m.launches
  {
    m.(retryIds := m.retryIds[m.launches[g].spec.scope := m.launches[g].spec.shardId],
       launches := m.launches[g := AbandonUnfinished(m.launches[g])])
  }

  /** The last caller gave up on an unadopted launch. */
  function GiveUp(m: Manager, g: nat): Manager
    requires g in m.launches
  {
    if m.launches[g].waiters != 0 || m.launches[g].adopted then m
    else if m.launches[g].phase == Ran then Transfer(m, g)
    else MarkAbandoned(m, g)
  }

  /** A caller's ticket can be given back: it was cancelled, or the launch has finished. */
  predicate MayLeave(m: Manager, ticket: nat, cancelled: bool) {
    && ticket in m.claims && m.claims[ticket].launch in m.launches
    && (cancelled || m.launches[m.claims[ticket].launch].phase == Ran
        || m.launches[m.claims[ticket].launch].phase == Errored)
    && 0 < m.launches[m.claims[ticket].launch].waiters
  }

  /** The launch is over: adopt its process, pass it to the next waiter, or stop it. */
  function Concludes(m: Manager, claim: Claim): Manager
    requires claim.launch in m.launches
  {
    var launch := m.launches[claim.launch];
    if launch.phase == Errored || launch.adopted then m
    else if m.closed then Transfer(m, claim.launch)
    else if Adoptable(m, claim, launch) then Adopt(m, claim)
    else if launch.waiters == 0 then Transfer(m, claim.launch)
    else m
  }

  /** A caller leaves waitForLaunch. */
  function Leaves(m: Manager, ticket: nat, cancelled: bool): Manager {
    if !MayLeave(m, ticket, cancelled) then m
    else if cancelled then GiveUp(PunchTicket(m, ticket), m.claims[ticket].launch)
    else Concludes(PunchTicket(m, ticket), m.claims[ticket])
  }

  // ----- runLaunch -----

  /** The process stays in the launch record until a caller adopts it. */
  function Keep(m: Manager, g: nat): Manager
    requires g in m.launches
  {
    m.(spawned := m.spawned + {g}, launches := m.launches[g := InPhase(m.launches[g], Ran)])
  }

  /** The process is not wanted or not the right one: its stop comes first. */
  function Reject(m: Manager, g: nat): Manager
    requires g in m.launches
  {
    Track(m, m.launches[g].spec)
      .(spawned := m.spawned + {g}, launches := m.launches[g := InPhase(m.launches[g], Rejecting(|m.epochs|))])
  }

  predicate Wanted(m: Manager, g: nat)
    requires g in m.launches
  {
    !m.closed && !m.launches[g].abandoned && m.launches[g].waiters != 0
  }

  /** Launcher.Start returned; `present` when it gave a process, `valid` when
      there was no error and the process carries the launch's identity. */
  function LaunchReturns(m: Manager, g: nat, present: bool, valid: bool): Manager {
    if g !in m.launches || m.launches[g].phase != Starting then m
    else if !present then Fail(m, g)
    else if valid && Wanted(m, g) then Keep(m, g)
    else Reject(m, g)
  }

  /** The stop of a rejected process has been resolved. */
  function LaunchEnds(m: Manager, g: nat): Manager {
    if g !in m.launches || !m.launches[g].phase.Rejecting? then m else
    var stop := m.launches[g].phase.stop;
    if stop >= |m.epochs| || m.epochs[stop].outcome == Unresolved then m else Fail(m, g)
  }

  // ----- stops -----

  function StartedAt(epochs: seq<Epoch>, e: nat): seq<Epoch> {
    if e < |epochs| then epochs[e := epochs[e].(started := true)] else epochs
  }

  function StartStop(m: Manager, e: nat): Manager {
    m.(epochs := StartedAt(m.epochs, e))
  }

  predicate Resolves(epochs: seq<Epoch>, e: nat, outcome: StopOutcome) {
    e < |epochs| && epochs[e].started && epochs[e].outcome == Unresolved && outcome != Unresolved
  }

  predicate Succeeds(epochs: seq<Epoch>, e: nat, outcome: StopOutcome) {
    Resolves(epochs, e, outcome) && outcome == Stopped
  }

  function ResolvedAt(epochs: seq<Epoch>, e: nat, outcome: StopOutcome): seq<Epoch> {
    if Resolves(epochs, e, outcome) then epochs[e := epochs[e].(outcome := outcome)] else epochs
  }

  function LedgerAfter(ledger: map<Key, nat>, epochs: seq<Epoch>, e: nat, outcome: StopOutcome): map<Key, nat> {
    if Succeeds(epochs, e, outcome) && KeyOf(epochs[e].spec) in ledger && ledger[KeyOf(epochs[e].spec)] == e
    then ledger - {KeyOf(epochs[e].spec)} else ledger
  }

  function GoneAfter(gone: set<nat>, epochs: seq<Epoch>, e: nat, outcome: StopOutcome): set<nat> {
    if Succeeds(epochs, e, outcome) then gone + {epochs[e].spec.generation} else gone
  }

  function StopReturns(m: Manager, e: nat, outcome: StopOutcome): Manager {
    m.(epochs := ResolvedAt(m.epochs, e, outcome),
       ledger := LedgerAfter(m.ledger, m.epochs, e, outcome),
       gone := GoneAfter(m.gone, m.epochs, e, outcome))
  }

  // ----- Release and Observe -----

  function MemoryOf(m: Manager, session: Name): nat {
    if session in m.identities then m.identities[session].memory else 0
  }

  predicate AwaitsCleanup(m: Manager, session: Name, generation: nat) {
    session in m.cleanups && m.cleanups[session].generation == generation
  }

  /** Remembers which stop a released session has to wait for. */
  function Remember(cleanups: map<Name, Released>, before: seq<Epoch>, after: seq<Epoch>, session: Name,
                    generation: nat): map<Name, Released> {
    if |before| < |after| then cleanups[session := Released(generation, KeyOf(after[|before|].spec))] else cleanups
  }

  function ReleasePlaced(m: Manager, session: Name, generation: nat): Manager
    requires session in m.placements
  {
    var left := Leave(m, session, MemoryOf(m, session));
    left.(cleanups := Remember(m.cleanups, m.epochs, left.epochs, session, generation))
  }

  function MarkReleased(m: Manager, session: Name, generation: nat): Manager {
    m.(released := m.released[session := generation])
  }

  function Release(m: Manager, session: Name, generation: nat): Manager {
    if m.closed || generation == 0 || generation != Count(m.latest, session) then m
    else if session in m.placements then ReleasePlaced(MarkReleased(m, session, generation), session, generation)
    else if AwaitsCleanup(m, session, generation)
            then Reselect(MarkReleased(m, session, generation), m.cleanups[session].key)
    else MarkReleased(m, session, generation)
  }

  datatype Sample = Sample(shardId: Name, generation: nat, sequence: nat, rss: nat, oom: bool, heapPressure: bool)

  predicate Pressing(sample: Sample, watermark: nat) {
    sample.oom || sample.heapPressure || sample.rss >= watermark
  }

  function Seen(shard: Shard, sample: Sample, watermark: nat): Shard {
    shard.(sequence := sample.sequence, rss := sample.rss, draining := shard.draining || Pressing(sample, watermark))
  }

  predicate Fresh(m: Manager, sample: Sample) {
    && sample.shardId in m.shards
    && sample.generation == m.shards[sample.shardId].spec.generation
    && m.shards[sample.shardId].sequence < sample.sequence
  }

  function Observe(m: Manager, sample: Sample): Manager {
    if m.closed || !Fresh(m, sample) then m
    else Rehouse(m, sample.shardId, Seen(m.shards[sample.shardId], sample, m.limits.watermark))
  }

  // ----- Shutdown -----

  /** A finished launch that still holds its scope's barrier. */
  predicate Barred(m: Manager, g: nat) {
    && g in m.launches && m.launches[g].phase == Ran && !m.launches[g].adopted
    && m.launches[g].spec.scope in m.pendingScopes && m.pendingScopes[m.launches[g].spec.scope] == g
  }

  function TransferAll(m: Manager, finished: seq<nat>): Manager {
    if finished == [] then m else
    var before := TransferAll(m, finished[..|finished| - 1]);
    var g := finished[|finished| - 1];
    if Barred(before, g) then Transfer(before, g) else before
  }

  function Closed(m: Manager): Manager {
    m.(closed := true)
  }

  function Regate(m: Manager): Manager {
    m.(gate := if m.pendingScopes == map[] then Cleared else Closing)
  }

  /** Fences admission and moves finished launches to the ledger; cleared when none is still running. */
  ghost function Close(m: Manager, finished: seq<nat>): Manager {
    if m.gate != Free && m.gate != Closing then m
    else if !(forall g | Barred(m, g) :: g in finished) then m
    else Regate(TransferAll(Closed(m), finished))
  }

  function RetireAll(m: Manager, ids: seq<Name>): Manager {
    if ids == [] then m else
    var before := RetireAll(m, ids[..|ids| - 1]);
    var id := ids[|ids| - 1];
    if id in before.shards then RetireShard(before, id) else before
  }

  function ReselectAll(m: Manager, keys: seq<Key>): Manager {
    if keys == [] then m else Reselect(ReselectAll(m, keys[..|keys| - 1]), keys[|keys| - 1])
  }

  /** Moves every live shard to the ledger and takes hold of every stop. */
  ghost function Drain(m: Manager, ids: seq<Name>, keys: seq<Key>): Manager {
    if m.gate != Cleared || !(forall id | id in m.shards :: id in ids)
       || !(forall key | key in m.ledger :: key in keys) then m else
    var taken := ReselectAll(RetireAll(m, ids), keys);
    taken.(placements := map[], gate := Draining(taken.ledger.Values))
  }

  /** Shutdown can return nil: every stop it took hold of came back without an error. */
  ghost predicate ShutDown(m: Manager) {
    m.gate.Draining? && forall e | e in m.gate.stops :: e < |m.epochs| && m.epochs[e].outcome == Stopped
  }

  // ----- runs -----

  datatype Step =
    | AcquireStep(request: Request, choice: Choice)
    | LeavesStep(ticket: nat, cancelled: bool)
    | LaunchReturnsStep(launch: nat, present: bool, valid: bool)
    | LaunchEndsStep(launch: nat)
    | StartStopStep(epoch: nat)
    | StopReturnsStep(epoch: nat, outcome: StopOutcome)
    | ReleaseStep(session: Name, generation: nat)
    | ObserveStep(sample: Sample)
    | CloseStep(finished: seq<nat>)
    | DrainStep(ids: seq<Name>, keys: seq<Key>)
    | ShutdownReturnsStep

  ghost function Next(m: Manager, step: Step): Manager {
    match step
    case AcquireStep(request, choice) => Acquire(m, request, choice)
    case LeavesStep(ticket, cancelled) => Leaves(m, ticket, cancelled)
    case LaunchReturnsStep(launch, present, valid) => LaunchReturns(m, launch, present, valid)
    case LaunchEndsStep(launch) => LaunchEnds(m, launch)
    case StartStopStep(epoch) => StartStop(m, epoch)
    case StopReturnsStep(epoch, outcome) => StopReturns(m, epoch, outcome)
    case ReleaseStep(session, generation) => Release(m, session, generation)
    case ObserveStep(sample) => Observe(m, sample)
    case CloseStep(finished) => Close(m, finished)
    case DrainStep(ids, keys) => Drain(m, ids, keys)
    case ShutdownReturnsStep => m.(gate := Free)
  }

  ghost function Run(m: Manager, steps: seq<Step>): Manager {
    if steps == [] then m else Next(Run(m, steps[..|steps| - 1]), steps[|steps| - 1])
  }
}
