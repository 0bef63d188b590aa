/** No process is leaked: in every reachable state each spawned process is owned
    by exactly one of its launch record, the live shard map or the stop ledger,
    or its stop has returned without an error. */
module AgentOwnership {
  import opened Common
  import opened AgentManager

  // ----- invariant -----

  /** The process waits in its launch record for a caller to adopt it. */
  predicate Holds(launch: Launch) {
    launch.phase == Ran && !launch.adopted && launch.cleanup.Kept?
  }

  /** The launch still bars its scope. */
  predicate Active(launch: Launch) {
    launch.phase == Starting || launch.phase.Rejecting? || Holds(launch)
  }

  predicate Live(shards: map<Name, Shard>, spec: Spec) {
    spec.shardId in shards && shards[spec.shardId].spec.generation == spec.generation
  }

  predicate One(a: bool, b: bool, c: bool, d: bool) {
    (a || b || c || d) && !(a && b) && !(a && c) && !(a && d) && !(b && c) && !(b && d) && !(c && d)
  }

  /** Generations name launches, and are spent in order. */
  ghost predicate Numbered(launches: map<nat, Launch>, next: nat) {
    forall g | g in launches :: launches[g].spec.generation == g && 1 <= g && (next == 0 || g < next)
  }

  /** A launch's progress and its flags agree. */
  predicate Fits(launch: Launch, epochs: seq<Epoch>, running: bool) {
    && (launch.phase == Starting ==> !running)
    && (launch.phase == Ran || launch.phase.Rejecting? ==> running)
    && (launch.adopted ==> launch.phase == Ran)
    && (launch.cleanup.Given? ==> launch.phase == Ran && !launch.adopted)
    && (launch.phase.Rejecting? ==> Concerns(epochs, launch.phase.stop, launch.spec))
    && (launch.cleanup.Given? ==> Concerns(epochs, launch.cleanup.epoch, launch.spec))
  }

  ghost predicate Phased(launches: map<nat, Launch>, epochs: seq<Epoch>, spawned: set<nat>) {
    && (forall g | g in spawned :: g in launches)
    && (forall g | g in launches :: Fits(launches[g], epochs, g in spawned))
  }

  predicate Concerns(epochs: seq<Epoch>, e: nat, spec: Spec) {
    e < |epochs| && epochs[e].spec == spec
  }

  ghost predicate Housed(shards: map<Name, Shard>, launches: map<nat, Launch>) {
    forall id | id in shards ::
      && shards[id].spec.shardId == id && shards[id].spec.generation in launches
      && launches[shards[id].spec.generation].spec == shards[id].spec
      && launches[shards[id].spec.generation].adopted
  }

  /** Every spawned process except `loose` has exactly one owner, and no other process has any. */
  ghost predicate Owned(launches: map<nat, Launch>, shards: map<Name, Shard>, ledger: map<Key, nat>,
                        spawned: set<nat>, gone: set<nat>, loose: nat)
  {
    && (forall g | g in gone :: g in launches)
    && (forall g | g in launches ::
          if g in spawned && g != loose
          then One(Holds(launches[g]), Live(shards, launches[g].spec), KeyOf(launches[g].spec) in ledger, g in gone)
          else && !Holds(launches[g]) && !Live(shards, launches[g].spec)
               && KeyOf(launches[g].spec) !in ledger && g !in gone)
  }

  /** Ledger entries point at the last, unsuccessful or unresolved, epoch of their process. */
  ghost predicate Filed(ledger: map<Key, nat>, epochs: seq<Epoch>, launches: map<nat, Launch>) {
    forall key | key in ledger ::
      && ledger[key] < |epochs| && KeyOf(epochs[ledger[key]].spec) == key && epochs[ledger[key]].outcome != Stopped
      && key.generation in launches && launches[key.generation].spec == epochs[ledger[key]].spec
  }

  /** Epochs of one process follow each other: each but the last ended with a
      retryable error, so no stop runs beside, or after the end of, another. */
  ghost predicate Chained(epochs: seq<Epoch>) {
    && (forall i, j | 0 <= i < j < |epochs| && KeyOf(epochs[i].spec) == KeyOf(epochs[j].spec) ::
        epochs[i].outcome == Retryable)
    && (forall i | 0 <= i < |epochs| :: !epochs[i].started ==> epochs[i].outcome == Unresolved)
  }

  /** Every epoch belongs to a launch, and while the process is in the ledger no epoch is newer than its entry. */
  ghost predicate Traced(epochs: seq<Epoch>, ledger: map<Key, nat>, launches: map<nat, Launch>, gone: set<nat>) {
    forall i | 0 <= i < |epochs| ::
      && epochs[i].spec.generation in launches && launches[epochs[i].spec.generation].spec == epochs[i].spec
      && (if KeyOf(epochs[i].spec) in ledger then i <= ledger[KeyOf(epochs[i].spec)]
          else epochs[i].spec.generation in gone && epochs[i].outcome != Unresolved)
  }

  /** One active launch per scope, and it holds the scope's barrier. */
  ghost predicate Barriers(scopes: map<ScopeKey, nat>, launches: map<nat, Launch>) {
    && (forall scope | scope in scopes ::
          scopes[scope] in launches && launches[scopes[scope]].spec.scope == scope && Active(launches[scopes[scope]]))
    && (forall g | g in launches && Active(launches[g]) ::
          launches[g].spec.scope in scopes && scopes[launches[g].spec.scope] == g)
  }

  ghost predicate Waiting(sessions: map<Name, nat>, launches: map<nat, Launch>) {
    forall s | s in sessions ::
      sessions[s] in launches && Active(launches[sessions[s]]) && s in launches[sessions[s]].sessions
  }

  /** The waiter count is the number of callers that hold a ticket. */
  ghost predicate Ticketed(claims: map<nat, Claim>, launches: map<nat, Launch>, next: nat) {
    && (forall t | t in claims :: t < next && claims[t].launch in launches && t in launches[claims[t].launch].tickets)
    && (forall g, t | g in launches && t in launches[g].tickets :: t in claims && claims[t].launch == g)
    && (forall g | g in launches :: launches[g].waiters == |launches[g].tickets|)
  }

  /** Once a launch's process has moved to the ledger, nobody can still adopt it. */
  ghost predicate Renounced(launches: map<nat, Launch>, closed: bool) {
    forall g | g in launches && launches[g].cleanup.Given? :: closed || launches[g].tickets == {}
  }

  ghost predicate Gated(m: Manager) {
    && (m.gate == Cleared || m.gate.Draining? ==> m.closed && m.pendingScopes == map[])
    && (m.gate.Draining? ==> m.shards == map[] && forall key | key in m.ledger :: m.ledger[key] in m.gate.stops)
  }

  ghost predicate Processes(m: Manager, loose: nat) {
    && Numbered(m.launches, m.nextGeneration)
    && Phased(m.launches, m.epochs, m.spawned)
    && Housed(m.shards, m.launches)
    && Owned(m.launches, m.shards, m.ledger, m.spawned, m.gone, loose)
    && Filed(m.ledger, m.epochs, m.launches)
    && Chained(m.epochs)
    && Traced(m.epochs, m.ledger, m.launches, m.gone)
  }

  ghost predicate Callers(m: Manager) {
    && Barriers(m.pendingScopes, m.launches)
    && Waiting(m.pendingSessions, m.launches)
    && Ticketed(m.claims, m.launches, m.nextTicket)
    && Renounced(m.launches, m.closed)
  }

  ghost predicate Sound(m: Manager) {
    Processes(m, 0) && Callers(m) && Gated(m)
  }

  // ----- moves of one process -----

  /** Same launches as far as ownership goes. */
  ghost predicate SameCore(before: map<nat, Launch>, after: map<nat, Launch>) {
    && after.Keys == before.Keys
    && (forall g | g in before ::
          && after[g].spec == before[g].spec && after[g].phase == before[g].phase
          && after[g].adopted == before[g].adopted && after[g].cleanup == before[g].cleanup)
  }

  ghost predicate SameHomes(before: map<Name, Shard>, after: map<Name, Shard>) {
    after.Keys == before.Keys && forall id | id in before :: after[id].spec == before[id].spec
  }

  /** No process changed hands. */
  ghost predicate Unmoved(m: Manager, n: Manager) {
    && n.nextGeneration == m.nextGeneration && n.epochs == m.epochs && n.ledger == m.ledger
    && n.spawned == m.spawned && n.gone == m.gone
    && SameCore(m.launches, n.launches) && SameHomes(m.shards, n.shards)
  }

  lemma UnmovedKeeps(m: Manager, n: Manager, loose: nat)
    requires Processes(m, loose) && Unmoved(m, n)
    ensures Processes(n, loose)
  {
    hide Filed, Chained, Traced, Owned, Numbered, Phased, Housed, SameCore, SameHomes;
    CoreKeepsLedger(m.launches, n.launches, m.ledger, m.epochs, m.gone);
    CoreKeepsPhases(m.launches, n.launches, m.nextGeneration, m.epochs, m.spawned);
    CoreKeepsOwners(m.launches, n.launches, m.shards, n.shards, m.ledger, m.spawned, m.gone, loose);
  }

  lemma CoreKeepsLedger(before: map<nat, Launch>, after: map<nat, Launch>, ledger: map<Key, nat>, epochs: seq<Epoch>,
                        gone: set<nat>)
    requires SameCore(before, after) && Filed(ledger, epochs, before) && Traced(epochs, ledger, before, gone)
    ensures Filed(ledger, epochs, after) && Traced(epochs, ledger, after, gone)
  {
  }

  lemma CoreKeepsPhases(before: map<nat, Launch>, after: map<nat, Launch>, next: nat, epochs: seq<Epoch>,
                        spawned: set<nat>)
    requires SameCore(before, after) && Numbered(before, next) && Phased(before, epochs, spawned)
    ensures Numbered(after, next) && Phased(after, epochs, spawned)
  {
  }

  lemma CoreKeepsOwners(before: map<nat, Launch>, after: map<nat, Launch>, shards: map<Name, Shard>,
                        homes: map<Name, Shard>, ledger: map<Key, nat>, spawned: set<nat>, gone: set<nat>, loose: nat)
    requires SameCore(before, after) && SameHomes(shards, homes)
    requires Housed(shards, before) && Owned(before, shards, ledger, spawned, gone, loose)
    ensures Housed(homes, after) && Owned(after, homes, ledger, spawned, gone, loose)
  {
    assert forall spec :: Live(homes, spec) <==> Live(shards, spec);
  }

  /** A shard leaves the live map: its process is loose. */
  lemma HomeLost(m: Manager, id: Name)
    requires Processes(m, 0) && id in m.shards
    ensures var g := m.shards[id].spec.generation;
            && Processes(m.(shards := m.shards - {id}), g)
            && g in m.launches && m.launches[g].spec == m.shards[id].spec && g in m.spawned && g != 0
  {
    hide Filed, Chained, Traced, Phased;
    var g := m.shards[id].spec.generation;
    assert g in m.spawned by {
      assert Phased(m.launches, m.epochs, m.spawned) ==> m.launches[g].phase == Ran ==> g in m.spawned;
      AdoptedRan(m, g);
    }
  }

  lemma AdoptedRan(m: Manager, g: nat)
    requires Phased(m.launches, m.epochs, m.spawned) && g in m.launches && m.launches[g].adopted
    ensures g in m.spawned
  {
  }

  /** A loose process goes to the ledger under an epoch of its own. */
  lemma TrackKeeps(m: Manager, g: nat)
    requires Processes(m, g) && g in m.launches && g in m.spawned
    ensures Processes(Track(m, m.launches[g].spec), 0)
  {
    hide Numbered, Housed;
    var n := Track(m, m.launches[g].spec);
    FreshEpoch(m, g);
    FiledGrows(m, n, g);
    OwnedGrows(m, n, g);
    PhasedGrows(m, n);
  }

  lemma FreshEpoch(m: Manager, g: nat)
    requires Processes(m, g) && g in m.launches && g in m.spawned
    ensures forall i | 0 <= i < |m.epochs| :: KeyOf(m.epochs[i].spec) != KeyOf(m.launches[g].spec)
    ensures Chained(Track(m, m.launches[g].spec).epochs)
  {
    hide Filed, Housed, Phased;
    forall i | 0 <= i < |m.epochs| ensures KeyOf(m.epochs[i].spec) != KeyOf(m.launches[g].spec) {
      assert m.epochs[i].spec.generation in m.launches;
    }
  }

  lemma FiledGrows(m: Manager, n: Manager, g: nat)
    requires Filed(m.ledger, m.epochs, m.launches) && Traced(m.epochs, m.ledger, m.launches, m.gone)
    requires Numbered(m.launches, m.nextGeneration)
    requires g in m.launches && n == Track(m, m.launches[g].spec)
    ensures Filed(n.ledger, n.epochs, n.launches) && Traced(n.epochs, n.ledger, n.launches, n.gone)
  {
  }

  lemma OwnedGrows(m: Manager, n: Manager, g: nat)
    requires Numbered(m.launches, m.nextGeneration) && g in m.launches && g in m.spawned
    requires Owned(m.launches, m.shards, m.ledger, m.spawned, m.gone, g)
    requires n == Track(m, m.launches[g].spec)
    ensures Owned(n.launches, n.shards, n.ledger, n.spawned, n.gone, 0)
  {
  }

  lemma PhasedGrows(m: Manager, n: Manager)
    requires Phased(m.launches, m.epochs, m.spawned)
    requires n.launches == m.launches && n.spawned == m.spawned && m.epochs <= n.epochs
    ensures Phased(n.launches, n.epochs, n.spawned)
  {
  }

  lemma RetireKeeps(m: Manager, id: Name)
    requires Processes(m, 0) && id in m.shards
    ensures Processes(RetireShard(m, id), 0)
  {
    hide Processes;
    HomeLost(m, id);
    TrackKeeps(m.(shards := m.shards - {id}), m.shards[id].spec.generation);
  }

  /** Waiting for an earlier stop opens at most one new epoch, after a retryable end. */
  lemma ReselectKeeps(m: Manager, key: Key)
    requires Processes(m, 0)
    ensures Processes(Reselect(m, key), 0)
    ensures Reselect(m, key).ledger.Keys == m.ledger.Keys
  {
    hide Numbered, Housed, Phased, Owned;
    var n := Reselect(m, key);
    if key in m.ledger && n.epochs != m.epochs {
      var e := m.ledger[key];
      PhasedGrows(m, n);
      assert n.ledger.Keys == m.ledger.Keys;
      SameKeysOwned(m, n);
      ChainNext(m, key);
    }
  }

  lemma ChainNext(m: Manager, key: Key)
    requires key in m.ledger && m.ledger[key] < |m.epochs| && m.epochs[m.ledger[key]].outcome == Retryable
    requires Filed(m.ledger, m.epochs, m.launches) && Chained(m.epochs)
             && Traced(m.epochs, m.ledger, m.launches, m.gone)
    ensures Chained(Track(m, m.epochs[m.ledger[key]].spec).epochs)
  {
    var spec := m.epochs[m.ledger[key]].spec;
    forall i | 0 <= i < |m.epochs| && KeyOf(m.epochs[i].spec) == KeyOf(spec) ensures m.epochs[i].outcome == Retryable {
      assert i <= m.ledger[key];
    }
  }

  lemma SameKeysOwned(m: Manager, n: Manager)
    requires Owned(m.launches, m.shards, m.ledger, m.spawned, m.gone, 0)
    requires n.launches == m.launches && n.shards == m.shards && n.spawned == m.spawned && n.gone == m.gone
    requires n.ledger.Keys == m.ledger.Keys
    ensures Owned(n.launches, n.shards, n.ledger, n.spawned, n.gone, 0)
  {
    assert forall key :: key in n.ledger <==> key in m.ledger by {
      assert forall key :: key in n.ledger <==> key in n.ledger.Keys;
    }
  }

  lemma StartStopKeeps(m: Manager, e: nat)
    requires Processes(m, 0)
    ensures Processes(StartStop(m, e), 0)
  {
    hide Numbered, Housed, Owned;
  }

  /** A stop that succeeds ends its process; any other leaves it in the ledger. */
  lemma StopReturnsKeeps(m: Manager, e: nat, outcome: StopOutcome)
    requires Processes(m, 0)
    ensures Processes(StopReturns(m, e, outcome), 0)
  {
    hide Filed, Chained, Traced, Owned, Numbered, Phased, Housed;
    if e < |m.epochs| && m.epochs[e].started && m.epochs[e].outcome == Unresolved && outcome != Unresolved {
      LastEpoch(m, e);
      StopOwned(m, e, outcome);
      StopChained(m.epochs, e, outcome);
      if outcome == Stopped {
        StopEnds(m.ledger, m.epochs, m.launches, m.gone, e);
      } else {
        StopFails(m.ledger, m.epochs, m.launches, m.gone, e, outcome);
      }
      StopPhased(m.launches, m.epochs, m.spawned, e, outcome);
    }
  }

  lemma StopPhased(launches: map<nat, Launch>, epochs: seq<Epoch>, spawned: set<nat>, e: nat, outcome: StopOutcome)
    requires Phased(launches, epochs, spawned) && e < |epochs|
    ensures Phased(launches, epochs[e := epochs[e].(outcome := outcome)], spawned)
  {
  }

  lemma StopChained(epochs: seq<Epoch>, e: nat, outcome: StopOutcome)
    requires Chained(epochs) && e < |epochs| && epochs[e].started && epochs[e].outcome == Unresolved
    ensures Chained(epochs[e := epochs[e].(outcome := outcome)])
  {
    var after := epochs[e := epochs[e].(outcome := outcome)];
    forall i, j | 0 <= i < j < |after| && KeyOf(after[i].spec) == KeyOf(after[j].spec)
      ensures after[i].outcome == Retryable {
      assert epochs[i].outcome == Retryable;
    }
  }

  lemma StopFails(ledger: map<Key, nat>, epochs: seq<Epoch>, launches: map<nat, Launch>, gone: set<nat>, e: nat,
                  outcome: StopOutcome)
    requires Filed(ledger, epochs, launches) && Traced(epochs, ledger, launches, gone)
    requires e < |epochs| && outcome != Stopped && outcome != Unresolved
    ensures var after := epochs[e := epochs[e].(outcome := outcome)];
            Filed(ledger, after, launches) && Traced(after, ledger, launches, gone)
  {
  }

  lemma StopEnds(ledger: map<Key, nat>, epochs: seq<Epoch>, launches: map<nat, Launch>, gone: set<nat>, e: nat)
    requires Filed(ledger, epochs, launches) && Traced(epochs, ledger, launches, gone) && Chained(epochs)
    requires e < |epochs| && KeyOf(epochs[e].spec) in ledger && ledger[KeyOf(epochs[e].spec)] == e
    ensures var after := epochs[e := epochs[e].(outcome := Stopped)];
            var key := KeyOf(epochs[e].spec);
            Filed(ledger - {key}, after, launches) && Traced(after, ledger - {key}, launches, gone + {key.generation})
  {
    var after := epochs[e := epochs[e].(outcome := Stopped)];
    var key := KeyOf(epochs[e].spec);
    forall i | 0 <= i < |epochs| && KeyOf(epochs[i].spec) == key && i != e ensures after[i].outcome == Retryable {
      assert i <= e;
    }
  }

  lemma StopOwned(m: Manager, e: nat, outcome: StopOutcome)
    requires Owned(m.launches, m.shards, m.ledger, m.spawned, m.gone, 0) && Numbered(m.launches, m.nextGeneration)
    requires e < |m.epochs| && m.epochs[e].started && m.epochs[e].outcome == Unresolved && outcome != Unresolved
    requires var key := KeyOf(m.epochs[e].spec);
             key in m.ledger && m.ledger[key] == e && key.generation in m.launches
               && KeyOf(m.launches[key.generation].spec) == key
    ensures var n := StopReturns(m, e, outcome);
            Owned(n.launches, n.shards, n.ledger, n.spawned, n.gone, 0)
  {
  }

  lemma LastEpoch(m: Manager, e: nat)
    requires Processes(m, 0) && e < |m.epochs| && m.epochs[e].outcome == Unresolved
    ensures var key := KeyOf(m.epochs[e].spec);
            key in m.ledger && m.ledger[key] == e && key.generation in m.launches
              && KeyOf(m.launches[key.generation].spec) == key
  {
    hide Housed, Phased;
    var key := KeyOf(m.epochs[e].spec);
    assert m.epochs[e].spec.generation in m.launches;
  }

  // ----- moves of one launch -----

  function With(m: Manager, g: nat, launch: Launch): Manager {
    m.(launches := m.launches[g := launch])
  }

  /** A launch record changes, but does not hold a process before or after. */
  lemma RecastKeeps(m: Manager, g: nat, launch: Launch, loose: nat)
    requires Processes(m, loose) && g in m.launches && launch.spec == m.launches[g].spec
    requires !Holds(launch) && !Holds(m.launches[g]) && launch.adopted == m.launches[g].adopted
    requires Fits(launch, m.epochs, g in m.spawned)
    ensures Processes(With(m, g, launch), loose)
  {
    hide Chained, Fits, Holds;
    RecastLedger(m.launches, g, launch, m.ledger, m.epochs, m.gone);
  }

  lemma RecastLedger(launches: map<nat, Launch>, g: nat, launch: Launch, ledger: map<Key, nat>, epochs: seq<Epoch>,
                     gone: set<nat>)
    requires g in launches && launch.spec == launches[g].spec
    requires Filed(ledger, epochs, launches) && Traced(epochs, ledger, launches, gone)
    ensures Filed(ledger, epochs, launches[g := launch]) && Traced(epochs, ledger, launches[g := launch], gone)
  {
  }

  /** A launch record lets go of its process. */
  lemma LetGo(m: Manager, g: nat, launch: Launch)
    requires Processes(m, 0) && g in m.launches && Holds(m.launches[g]) && g in m.spawned
    requires launch.spec == m.launches[g].spec && !Holds(launch) && !launch.adopted && Fits(launch, m.epochs, true)
    ensures Processes(With(m, g, launch), g)
  {
    hide Chained, Fits;
    RecastLedger(m.launches, g, launch, m.ledger, m.epochs, m.gone);
  }

  /** A process appears, without an owner. */
  lemma Spawns(m: Manager, g: nat, launch: Launch)
    requires Processes(m, 0) && g in m.launches && m.launches[g].phase == Starting
    requires launch.spec == m.launches[g].spec && !Holds(launch) && !launch.adopted && Fits(launch, m.epochs, true)
    ensures Processes(With(m, g, launch).(spawned := m.spawned + {g}), g)
  {
    hide Chained;
    RecastLedger(m.launches, g, launch, m.ledger, m.epochs, m.gone);
  }

  /** A process appears and stays with its launch record. */
  lemma SpawnsHeld(m: Manager, g: nat, launch: Launch)
    requires Processes(m, 0) && g in m.launches && m.launches[g].phase == Starting
    requires launch.spec == m.launches[g].spec && Holds(launch)
    ensures Processes(With(m, g, launch).(spawned := m.spawned + {g}), 0)
  {
    hide Chained;
    RecastLedger(m.launches, g, launch, m.ledger, m.epochs, m.gone);
  }

  /** Fields outside process ownership. */
  ghost predicate SameProcesses(m: Manager, n: Manager) {
    && n.nextGeneration == m.nextGeneration && n.epochs == m.epochs && n.ledger == m.ledger && n.shards == m.shards
    && n.spawned == m.spawned && n.gone == m.gone && n.launches == m.launches
  }

  lemma LaunchReturnsKeeps(m: Manager, g: nat, present: bool, valid: bool)
    requires Processes(m, 0)
    ensures Processes(LaunchReturns(m, g, present, valid), 0)
  {
    hide Processes, Reject, Keep, Fail;
    if g in m.launches && m.launches[g].phase == Starting {
      if !present {
        StartFails(m, g);
      } else if valid && Wanted(m, g) {
        KeepKeeps(m, g);
      } else {
        RejectKeeps(m, g);
      }
    }
  }

  lemma StartFails(m: Manager, g: nat)
    requires Processes(m, 0) && g in m.launches && m.launches[g].phase == Starting
    ensures Processes(Fail(m, g), 0)
  {
    hide Processes, Holds;
    var launch := InPhase(m.launches[g], Errored);
    StartingFits(m, g);
    RecastKeeps(m, g, launch, 0);
    SameKeeps(With(m, g, launch), Fail(m, g), 0);
  }

  lemma KeepKeeps(m: Manager, g: nat)
    requires Processes(m, 0) && g in m.launches && m.launches[g].phase == Starting
    ensures Processes(Keep(m, g), 0)
  {
    hide Processes, Holds;
    StartingFits(m, g);
    SpawnsHeld(m, g, InPhase(m.launches[g], Ran));
  }

  /** A rejected process goes straight to the ledger. */
  lemma RejectKeeps(m: Manager, g: nat)
    requires Processes(m, 0) && g in m.launches && m.launches[g].phase == Starting
    ensures Processes(Reject(m, g), 0)
  {
    hide Processes, Holds;
    var launch := m.launches[g];
    StartingFits(m, g);
    Spawns(m, g, InPhase(launch, Errored));
    var loose := With(m, g, InPhase(launch, Errored)).(spawned := m.spawned + {g});
    TrackKeeps(loose, g);
    var tracked := Track(loose, launch.spec);
    RecastKeeps(tracked, g, InPhase(launch, Rejecting(|m.epochs|)), 0);
    Overwrite(m.launches, g, InPhase(launch, Errored), InPhase(launch, Rejecting(|m.epochs|)));
  }

  lemma Overwrite(launches: map<nat, Launch>, g: nat, first: Launch, second: Launch)
    ensures launches[g := first][g := second] == launches[g := second]
  {
  }

  lemma StartingFits(m: Manager, g: nat)
    requires Processes(m, 0) && g in m.launches && m.launches[g].phase == Starting
    ensures var launch := m.launches[g];
            && launch.cleanup.Kept? && !launch.adopted && g !in m.spawned
            && !Holds(launch) && Holds(InPhase(launch, Ran))
            && !Holds(InPhase(launch, Errored)) && !Holds(InPhase(launch, Rejecting(|m.epochs|)))
  {
  }

  lemma SameKeeps(m: Manager, n: Manager, loose: nat)
    requires Processes(m, loose) && SameProcesses(m, n)
    ensures Processes(n, loose)
  {
  }

  lemma LaunchEndsKeeps(m: Manager, g: nat)
    requires Processes(m, 0)
    ensures Processes(LaunchEnds(m, g), 0)
  {
    hide Processes;
    if g in m.launches && m.launches[g].phase.Rejecting? {
      var launch := InPhase(m.launches[g], Errored);
      LaunchFits(m, g);
      RecastKeeps(m, g, launch, 0);
      SameKeeps(With(m, g, launch), Fail(m, g), 0);
    }
  }

  lemma LaunchFits(m: Manager, g: nat)
    requires Processes(m, 0) && g in m.launches
    ensures Fits(m.launches[g], m.epochs, g in m.spawned)
  {
  }

  lemma TransferKeeps(m: Manager, g: nat)
    requires Processes(m, 0) && g in m.launches && m.launches[g].phase == Ran && !m.launches[g].adopted
    ensures Processes(Transfer(m, g), 0)
  {
    hide Processes, Track;
    var launch := m.launches[g];
    LaunchFits(m, g);
    if launch.cleanup.Kept? {
      HandOver(m, g);
    } else {
      RecastKeeps(m, g, Abandon(launch), 0);
      SameKeeps(With(m, g, Abandon(launch)), Transfer(m, g), 0);
    }
  }

  lemma HandOver(m: Manager, g: nat)
    requires Processes(m, 0) && g in m.launches && Holds(m.launches[g])
    ensures Processes(Transfer(m, g), 0)
  {
    hide Processes;
    var launch := m.launches[g];
    LaunchFits(m, g);
    var bare := InPhase(launch, Errored);
    LetGo(m, g, bare);
    var loose := With(m, g, bare);
    TrackKeeps(loose, g);
    var moved := Give(launch, |m.epochs|);
    RecastKeeps(Track(loose, launch.spec), g, moved, 0);
    Overwrite(m.launches, g, bare, moved);
    SameKeeps(With(Track(loose, launch.spec), g, moved), Transfer(m, g), 0);
  }

  /** Adoption moves the process from its launch record to the live map. */
  lemma AdoptKeeps(m: Manager, claim: Claim)
    requires Processes(m, 0) && claim.launch in m.launches && Holds(m.launches[claim.launch])
    requires m.launches[claim.launch].spec.shardId !in m.shards
    ensures Processes(Adopt(m, claim), 0)
  {
    hide Chained, Owned;
    var g := claim.launch;
    var launch := Adopted(m.launches[g]);
    RecastLedger(m.launches, g, launch, m.ledger, m.epochs, m.gone);
    AdoptOwned(m.launches, m.shards, m.ledger, m.spawned, m.gone, g, NewShard(launch.spec, claim.request));
  }

  lemma AdoptOwned(launches: map<nat, Launch>, shards: map<Name, Shard>, ledger: map<Key, nat>, spawned: set<nat>,
                   gone: set<nat>, g: nat, shard: Shard)
    requires g in launches && Holds(launches[g]) && g in spawned && shard.spec == launches[g].spec
    requires launches[g].spec.generation == g && launches[g].spec.shardId !in shards
    requires forall other | other in launches :: launches[other].spec.generation == other
    requires Owned(launches, shards, ledger, spawned, gone, 0)
    ensures Owned(launches[g := Adopted(launches[g])], shards[shard.spec.shardId := shard], ledger, spawned, gone, 0)
  {
    var after := shards[shard.spec.shardId := shard];
    forall other | other in launches && other != g
      ensures Live(after, launches[other].spec) <==> Live(shards, launches[other].spec)
    {
      assert launches[other].spec.generation == other;
    }
  }

  lemma BeginKeeps(m: Manager, request: Request)
    requires Processes(m, 0) && m.nextGeneration != 0
    ensures Processes(BeginLaunch(m, request), 0)
  {
    hide Chained, Numbered, Phased, Housed, Owned, Filed, Traced;
    var launch := Launch(NewSpec(m, request), {request.session}, {m.nextTicket}, 1, false, false, Starting, Kept);
    BeginNumbered(m, launch);
    BeginOwned(m, launch);
    BeginFiled(m, launch);
  }

  lemma BeginNumbered(m: Manager, launch: Launch)
    requires Numbered(m.launches, m.nextGeneration) && Phased(m.launches, m.epochs, m.spawned)
    requires m.nextGeneration != 0 && launch.spec.generation == m.nextGeneration
    requires launch.phase == Starting && !launch.adopted && launch.cleanup.Kept?
    ensures m.nextGeneration !in m.launches && m.nextGeneration !in m.spawned
    ensures var launches := m.launches[m.nextGeneration := launch];
            && Phased(launches, m.epochs, m.spawned)
            && Numbered(launches, m.nextGeneration + 1) && Numbered(launches, 0)
  {
  }

  lemma BeginOwned(m: Manager, launch: Launch)
    requires m.nextGeneration !in m.launches && m.nextGeneration !in m.spawned
    requires launch.spec.generation == m.nextGeneration && launch.phase == Starting
    requires Owned(m.launches, m.shards, m.ledger, m.spawned, m.gone, 0) && Housed(m.shards, m.launches)
    requires Filed(m.ledger, m.epochs, m.launches)
    ensures var launches := m.launches[m.nextGeneration := launch];
            Owned(launches, m.shards, m.ledger, m.spawned, m.gone, 0) && Housed(m.shards, launches)
  {
  }

  lemma BeginFiled(m: Manager, launch: Launch)
    requires m.nextGeneration !in m.launches
    requires Filed(m.ledger, m.epochs, m.launches) && Traced(m.epochs, m.ledger, m.launches, m.gone)
    ensures var launches := m.launches[m.nextGeneration := launch];
            Filed(m.ledger, m.epochs, launches) && Traced(m.epochs, m.ledger, launches, m.gone)
  {
  }
}
