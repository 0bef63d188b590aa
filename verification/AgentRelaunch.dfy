/** A run of the manager, step by step, in which a launch begins under the identifier
    of a shard that is still live. */
module AgentRelaunch {
  import opened Common
  import opened AgentManager
  import opened AgentIdentifiers
  import Launcher = ShardLauncher

  /** The process a shard specification names to the launcher. */
  function ProcessOf(spec: Spec): Launcher.Key {
    Launcher.Key(spec.shardId, spec.generation)
  }

  const PROFILE := Profile(SharedScope, NoIsolation)
  const SCOPE := ScopeKey(PROFILE, NO_NAME)

  function Ask(session: Name): Request {
    Request(1, session, 1, PlatformReviewed, PROFILE, session, 1, 0)
  }

  /** Shards that take one session each. */
  predicate Narrow(limits: Limits) {
    ValidLimits(limits) && limits.sessions == 1
  }

  function Chosen(order: seq<Name>): Choice {
    Choice(order, Key(NO_NAME, 0), NO_NAME)
  }

  /** The steps: a launch fails, another takes its identifier and becomes a shard, the
      caller of the first is cancelled, and a third session asks. */
  function Steps(): seq<Step> {
    [AcquireStep(Ask(1), Chosen([])), LaunchReturnsStep(1, false, false), AcquireStep(Ask(2), Chosen([])),
     LaunchReturnsStep(2, true, true), LeavesStep(1, false), LeavesStep(0, true), AcquireStep(Ask(3), Chosen([1]))]
  }

  // ----- one pass of Acquire that begins a launch -----

  predicate Unknown(m: Manager, session: Name) {
    && session !in m.pendingSessions && session !in m.placements && session !in m.latest && session !in m.released
  }

  ghost predicate Full(m: Manager, request: Request) {
    forall id | id in m.shards :: |m.shards[id].sessions| >= m.limits.sessions && !Expired(m, m.shards[id], request.now)
  }

  lemma {:induction false} NothingExpires(m: Manager, order: seq<Name>, request: Request)
    requires Full(m, request)
    ensures ExpireAll(m, order, request.now) == m
  {
    if order != [] {
      NothingExpires(m, order[..|order| - 1], request);
    }
  }

  lemma Begins(m: Manager, session: Name, choice: Choice)
    requires !m.closed && Narrow(m.limits) && session != NO_NAME && Unknown(m, session) && Full(m, Ask(session))
    requires m.ledger == map[] && m.pendingScopes == map[] && m.nextGeneration != 0
             && (forall id | id in m.shards :: id in choice.order)
    ensures Acquire(m, Ask(session), choice) == BeginLaunch(Fence(m, Ask(session)), Ask(session))
  {
    hide BeginLaunch;
    var request := Ask(session);
    var fenced := Fence(m, request);
    assert Supersede(m, request) == fenced;
    assert Full(fenced, request);
    NothingExpires(fenced, choice.order, request);
    assert forall id :: !Candidate(fenced, id, request);
    assert forall key :: !Prior(fenced, SCOPE, key);
  }

  // ----- the states -----

  function FailedLaunch(tickets: set<nat>, waiters: int): Launch {
    Launch(Spec(1, 1, SCOPE, 0), {1}, tickets, waiters, false, false, Errored, Kept)
  }

  function SecondLaunch(phase: Phase, tickets: set<nat>, waiters: int, adopted: bool): Launch {
    Launch(Spec(1, 2, SCOPE, 0), {2}, tickets, waiters, false, adopted, phase, Kept)
  }

  /** The first launch failed; its caller still holds a ticket. */
  ghost predicate AfterFailure(m: Manager, limits: Limits) {
    && m.limits == limits && !m.closed && m.shards == map[] && m.placements == map[] && m.ledger == map[]
    && m.epochs == []
    && m.latest == map[1 := 1] && m.released == map[] && m.pendingSessions == map[] && m.pendingScopes == map[]
    && m.retryIds == map[SCOPE := 1] && m.nextSequence == 2 && m.nextGeneration == 2 && m.nextTicket == 1
    && m.launches == map[1 := FailedLaunch({0}, 1)] && m.claims == map[0 := Claim(1, Ask(1))]
    && m.identities == map[1 := FingerprintOf(Ask(1))]
  }

  lemma FirstFails(limits: Limits)
    requires Narrow(limits)
    ensures AfterFailure(LaunchReturns(Acquire(Initial(limits), Ask(1), Chosen([])), 1, false, false), limits)
  {
    var start := Initial(limits);
    Begins(start, 1, Chosen([]));
    var m := BeginLaunch(Fence(start, Ask(1)), Ask(1));
    assert m.launches == map[1 := FirstLaunch(Spec(1, 1, SCOPE, 0), 1, 0)];
    assert m.pendingScopes == map[SCOPE := 1] && m.pendingSessions == map[1 := 1];
  }

  /** The second launch is under way, under the same identifier. */
  ghost predicate WithSecond(m: Manager, limits: Limits, phase: Phase) {
    && m.limits == limits && !m.closed && m.shards == map[] && m.placements == map[] && m.ledger == map[]
    && m.epochs == []
    && m.latest == map[1 := 1, 2 := 1] && m.released == map[]
    && m.pendingSessions == map[2 := 2] && m.pendingScopes == map[SCOPE := 2]
    && m.retryIds == map[SCOPE := 1] && m.nextSequence == 2 && m.nextGeneration == 3 && m.nextTicket == 2
    && m.launches == map[1 := FailedLaunch({0}, 1), 2 := SecondLaunch(phase, {1}, 1, false)]
    && m.claims == map[0 := Claim(1, Ask(1)), 1 := Claim(2, Ask(2))]
    && m.identities == map[1 := FingerprintOf(Ask(1)), 2 := FingerprintOf(Ask(2))]
  }

  lemma SecondBegins(m: Manager, limits: Limits)
    requires Narrow(limits) && AfterFailure(m, limits)
    ensures WithSecond(Acquire(m, Ask(2), Chosen([])), limits, Starting)
  {
    Begins(m, 2, Chosen([]));
    hide Acquire, FingerprintOf;
    var n := BeginLaunch(Fence(m, Ask(2)), Ask(2));
    assert n.launches == map[1 := FailedLaunch({0}, 1), 2 := SecondLaunch(Starting, {1}, 1, false)];
  }

  lemma SecondKept(m: Manager, limits: Limits)
    requires WithSecond(m, limits, Starting)
    ensures WithSecond(LaunchReturns(m, 2, true, true), limits, Ran)
  {
    hide FingerprintOf, Ask, Fail, Reject;
    assert LaunchReturns(m, 2, true, true) == Keep(m, 2);
    assert InPhase(SecondLaunch(Starting, {1}, 1, false), Ran) == SecondLaunch(Ran, {1}, 1, false);
  }

  /** The second launch is a shard, and nothing is to be tried again. */
  ghost predicate AfterAdoption(m: Manager, limits: Limits) {
    && m.limits == limits && !m.closed && m.ledger == map[] && m.epochs == []
    && m.shards == map[1 := NewShard(Spec(1, 2, SCOPE, 0), Ask(2))] && m.placements == map[2 := PlacementOf(Ask(2), 1)]
    && m.latest == map[1 := 1, 2 := 1] && m.released == map[] && m.pendingSessions == map[] && m.pendingScopes == map[]
    && m.retryIds == map[] && m.nextSequence == 2 && m.nextGeneration == 3
    && m.launches == map[1 := FailedLaunch({0}, 1), 2 := SecondLaunch(Ran, {}, 0, true)]
    && m.claims == map[0 := Claim(1, Ask(1))]
  }

  lemma SecondAdopted(m: Manager, limits: Limits)
    requires WithSecond(m, limits, Ran)
    ensures AfterAdoption(Leaves(m, 1, false), limits)
  {
    hide NewShard, PlacementOf, Transfer, GiveUp;
    var punched := PunchTicket(m, 1);
    assert {1} - {1} == {};
    assert WithoutTicket(SecondLaunch(Ran, {1}, 1, false), 1) == SecondLaunch(Ran, {}, 0, false);
    assert punched.launches == map[1 := FailedLaunch({0}, 1), 2 := SecondLaunch(Ran, {}, 0, false)];
    assert punched.claims == map[0 := Claim(1, Ask(1))];
    var claim := Claim(2, Ask(2));
    assert Adoptable(punched, claim, punched.launches[2]);
    var admitted := Admit(punched, claim);
    assert admitted.retryIds == map[] && admitted.pendingScopes == map[SCOPE := 2]
           && admitted.pendingSessions == map[2 := 2];
  }

  /** The cancelled caller put the live shard's identifier back. */
  ghost predicate AfterCancellation(m: Manager, limits: Limits) {
    && m.limits == limits && !m.closed && m.ledger == map[]
    && m.shards == map[1 := NewShard(Spec(1, 2, SCOPE, 0), Ask(2))] && m.placements == map[2 := PlacementOf(Ask(2), 1)]
    && m.latest == map[1 := 1, 2 := 1] && m.released == map[] && m.pendingSessions == map[] && m.pendingScopes == map[]
    && m.retryIds == map[SCOPE := 1] && m.nextGeneration == 3 && m.launches.Keys == {1, 2}
  }

  lemma CallerCancelled(m: Manager, limits: Limits)
    requires AfterAdoption(m, limits)
    ensures Revives(m, LeavesStep(0, true)) && AfterCancellation(Leaves(m, 0, true), limits)
  {
    hide NewShard, PlacementOf;
  }

  lemma ThirdBegins(m: Manager, limits: Limits)
    requires Narrow(limits) && AfterCancellation(m, limits)
    ensures var n := Acquire(m, Ask(3), Chosen([1]));
            && 3 in n.launches && ProcessOf(n.launches[3].spec) == Launcher.Key(1, 3)
            && 1 in n.shards && ProcessOf(n.shards[1].spec) == Launcher.Key(1, 2) && n.shards[1].sessions.Keys == {2}
  {
    hide Acquire;
    assert |m.shards[1].sessions| == 1;
    Begins(m, 3, Chosen([1]));
  }

  lemma {:induction false} RunMore(limits: Limits, steps: seq<Step>, k: nat)
    requires k < |steps|
    ensures Run(Initial(limits), steps[..k + 1]) == Next(Run(Initial(limits), steps[..k]), steps[k])
  {
    assert steps[..k + 1][..k] == steps[..k];
  }

  /** The run ends with a launch under the identifier of a live shard that holds another session. */
  lemma LaunchUnderLiveIdentifier(limits: Limits)
    requires Narrow(limits)
    ensures Revives(Run(Initial(limits), Steps()[..5]), Steps()[5])
    ensures var m := Run(Initial(limits), Steps());
            && 3 !in Run(Initial(limits), Steps()[..6]).launches && 3 in m.launches
            && ProcessOf(m.launches[3].spec) == Launcher.Key(1, 3)
            && 1 in m.shards && ProcessOf(m.shards[1].spec) == Launcher.Key(1, 2) && m.shards[1].sessions.Keys == {2}
  {
    hide Run, Acquire, Leaves, LaunchReturns, AfterFailure, WithSecond, AfterAdoption, Revives, Initial, Narrow;
    var steps := Steps();
    NoSteps(limits);
    assert steps[..0] == [] && steps[..7] == steps;
    RunMore(limits, steps, 0);
    RunMore(limits, steps, 1);
    FirstFails(limits);
    RunMore(limits, steps, 2);
    SecondBegins(Run(Initial(limits), steps[..2]), limits);
    RunMore(limits, steps, 3);
    SecondKept(Run(Initial(limits), steps[..3]), limits);
    RunMore(limits, steps, 4);
    RunMore(limits, steps, 5);
    RunMore(limits, steps, 6);
    SecondAdopted(Run(Initial(limits), steps[..4]), limits);
    CallerCancelled(Run(Initial(limits), steps[..5]), limits);
    ThirdBegins(Run(Initial(limits), steps[..6]), limits);
  }

  lemma NoSteps(limits: Limits)
    ensures Run(Initial(limits), []) == Initial(limits)
  {
  }

  // ----- the launcher below -----

  /** What the manager's first two launches make of the launcher: the first comes to nothing, the second starts
      a process and publishes it. */
  function LauncherSteps(identity: Name): seq<Launcher.Step> {
    var first, second := Launcher.Key(1, 1), Launcher.Key(1, 2);
    [Launcher.EnsureStep(first, identity, []), Launcher.EndStep(first), Launcher.EnsureStep(second, identity, []),
     Launcher.SpawnStep(second), Launcher.TrackStep(second, 0), Launcher.PublishStep(second, 0),
     Launcher.EndStep(second)]
  }

  ghost predicate Serving(l: Launcher.Launcher, capacity: nat, identity: Name) {
    l == Launcher.Launcher(false, capacity, map[],
                           map[0 := Launcher.Instance(Launcher.Key(1, 2), true, true, false, false, false)],
                           map[1 := 0], map[1 := 2], map[], map[Launcher.Key(1, 2) := identity], 1,
                           [Launcher.Key(1, 2)])
  }

  function Waiting(capacity: nat, generation: nat, identity: Name): Launcher.Launcher {
    Launcher.Launcher(false, capacity, map[Launcher.Key(1, generation) := Launcher.Pending(Launcher.Begun, false, 1)],
                      map[], map[], map[1 := generation], map[], map[Launcher.Key(1, generation) := identity], 0, [])
  }

  function Idle(capacity: nat, identity: Name): Launcher.Launcher {
    Waiting(capacity, 1, identity).(pending := map[])
  }

  lemma FirstAsked(capacity: nat, identity: Name)
    requires 0 < capacity
    ensures Launcher.Next(Launcher.Begin(capacity), Launcher.EnsureStep(Launcher.Key(1, 1), identity, []))
            == Waiting(capacity, 1, identity)
  {
  }

  lemma SecondAsked(capacity: nat, identity: Name)
    requires 0 < capacity
    ensures Launcher.Next(Idle(capacity, identity), Launcher.EnsureStep(Launcher.Key(1, 2), identity, []))
            == Waiting(capacity, 2, identity)
  {
  }

  lemma SecondServes(capacity: nat, identity: Name)
    ensures var key := Launcher.Key(1, 2);
            var spawned := Launcher.Next(Waiting(capacity, 2, identity), Launcher.SpawnStep(key));
            var tracked := Launcher.Next(spawned, Launcher.TrackStep(key, 0));
            var published := Launcher.Next(tracked, Launcher.PublishStep(key, 0));
            Serving(Launcher.Next(published, Launcher.EndStep(key)), capacity, identity)
  {
  }

  lemma {:induction false} LauncherMore(l: Launcher.Launcher, steps: seq<Launcher.Step>, k: nat)
    requires k < |steps|
    ensures Launcher.Run(l, steps[..k + 1]) == Launcher.Next(Launcher.Run(l, steps[..k]), steps[k])
  {
    hide Launcher.Next;
    assert steps[..k + 1][..k] == steps[..k];
  }

  lemma FirstEnds(capacity: nat, identity: Name)
    ensures Launcher.Next(Waiting(capacity, 1, identity), Launcher.EndStep(Launcher.Key(1, 1)))
            == Idle(capacity, identity)
  {
  }

  lemma LauncherServes(capacity: nat, identity: Name)
    requires 0 < capacity
    ensures Serving(Launcher.Run(Launcher.Begin(capacity), LauncherSteps(identity)), capacity, identity)
  {
    hide Launcher.Run, Launcher.Next, Launcher.Begin, Waiting, Idle, Serving;
    var l, steps := Launcher.Begin(capacity), LauncherSteps(identity);
    NothingYet(l);
    assert steps[..0] == [] && steps[..7] == steps;
    LauncherMore(l, steps, 0);
    FirstAsked(capacity, identity);
    LauncherMore(l, steps, 1);
    FirstEnds(capacity, identity);
    LauncherMore(l, steps, 2);
    SecondAsked(capacity, identity);
    LauncherMore(l, steps, 3);
    LauncherMore(l, steps, 4);
    LauncherMore(l, steps, 5);
    LauncherMore(l, steps, 6);
    SecondServes(capacity, identity);
  }

  lemma NothingYet(l: Launcher.Launcher)
    ensures Launcher.Run(l, []) == l
  {
  }

  /** The third launch reaches a launcher whose process of generation 2 is alive and published: before
      anything starts, that process is asked to stop and its generation is past. */
  lemma LiveShardIsStopped(limits: Limits, capacity: nat, identity: Name, other: Name)
    requires Narrow(limits) && 0 < capacity
    ensures var m := Run(Initial(limits), Steps());
            var l := Launcher.Run(Launcher.Begin(capacity), LauncherSteps(identity));
            && 1 in m.shards && m.shards[1].sessions.Keys == {2} && 3 in m.launches
            && Launcher.Available(l, ProcessOf(m.shards[1].spec)) && 1 in l.current
            && var n := Launcher.Ensure(l, ProcessOf(m.launches[3].spec), other, [0]);
               && l.current[1] in n.instances && n.instances[l.current[1]].stopRequested && n.pending == map[]
               && Launcher.Past(n, ProcessOf(m.shards[1].spec))
  {
    hide Run, Initial, Launcher.Run, Launcher.Begin, Launcher.Ensure;
    LaunchUnderLiveIdentifier(limits);
    LauncherServes(capacity, identity);
    var l := Launcher.Run(Launcher.Begin(capacity), LauncherSteps(identity));
    assert Launcher.Unresolved(l, 0, 1);
    Launcher.EnsureStopsTheOlder(capacity, LauncherSteps(identity), Launcher.Key(1, 3), other, [0], 0);
  }
}
