/** What a pass of the launcher's Ensure loop does in every reachable state, and what launches, stops and
    failures come to when they are left alone. */
module LauncherDecisions {
  import opened Common
  import opened ShardLauncher

  // ----- the published instances -----

  /** Exactly the published processes that are not gone can be found. */
  ghost predicate Offered(instances: map<nat, Instance>, current: map<Name, nat>) {
    && (forall id | id in instances && instances[id].handed && !instances[id].gone ::
          instances[id].key.shard in current && current[instances[id].key.shard] == id)
    && (forall shard | shard in current :: current[shard] in instances && instances[current[shard]].handed)
  }

  lemma SetOffered(instances: map<nat, Instance>, current: map<Name, nat>, id: nat, after: Instance)
    requires Offered(instances, current) && id in instances && after.key == instances[id].key
    requires after.handed == instances[id].handed && after.gone == instances[id].gone
    ensures Offered(instances[id := after], current)
  {
  }

  lemma SpawnOffered(instances: map<nat, Instance>, current: map<Name, nat>, id: nat, after: Instance)
    requires Offered(instances, current) && id !in instances && !after.handed
    ensures Offered(instances[id := after], current)
  {
  }

  lemma PublishOffered(l: Launcher, key: Key, id: nat)
    requires Sound(l) && Offered(l.instances, l.current) && Publishable(l, key, id)
    ensures Offered(Publish(l, key, id).instances, Publish(l, key, id).current)
  {
    hide Watched, Fenced, Untouched, OneEach;
    CurrentIsMine(l, key, id);
    PendingOwns(l, key);
  }

  lemma GoneOffered(l: Launcher, id: nat)
    requires Published(l.current, l.instances) && Offered(l.instances, l.current) && id in l.instances
    ensures Offered(l.instances[id := Gone(l.instances[id])], CurrentWithout(l, id))
  {
  }

  lemma {:induction false} RetireAllOffered(l: Launcher, ids: seq<nat>, shard: Name)
    requires Offered(l.instances, l.current)
    ensures Offered(RetireAll(l, ids, shard).instances, RetireAll(l, ids, shard).current)
  {
    if ids != [] {
      var before, id := RetireAll(l, ids[..|ids| - 1], shard), ids[|ids| - 1];
      RetireAllOffered(l, ids[..|ids| - 1], shard);
      if Unresolved(before, id, shard) {
        SetOffered(before.instances, before.current, id, AskedToStop(before.instances[id]));
      }
    }
  }

  lemma NextOffered(l: Launcher, step: Step)
    requires Sound(l) && Offered(l.instances, l.current)
    ensures Offered(Next(l, step).instances, Next(l, step).current)
  {
    hide Watched, Barred, Fenced, Untouched, OneEach, Offered, Admissible, Available, Busy, Published, RetireAll;
    match step
    case EnsureStep(key, _, ids) => RetireAllOffered(l, ids, key.shard);
    case SpawnStep(key) =>
      if InPhase(l, key, Begun) {
        SpawnOffered(l.instances, l.current, l.next, Instance(key, false, false, false, false, false));
      }
    case TrackStep(key, id) =>
      if id in l.instances {
        SetOffered(l.instances, l.current, id, Registered(l.instances[id]));
      }
    case PublishStep(key, id) =>
      if Publishable(l, key, id) {
        PublishOffered(l, key, id);
      }
    case ExitStep(id) =>
      if id in l.instances {
        SetOffered(l.instances, l.current, id, Exited(l.instances[id]));
      }
    case GoneStep(id) =>
      if id in l.instances {
        GoneOffered(l, id);
      }
    case StopStep(id) =>
      if id in l.instances {
        SetOffered(l.instances, l.current, id, AskedToStop(l.instances[id]));
      }
    case _ =>
  }

  lemma {:induction false} RunOffered(capacity: nat, steps: seq<Step>)
    ensures var l := Run(Begin(capacity), steps); Sound(l) && Offered(l.instances, l.current)
  {
    hide Sound, Next, Offered;
    if steps == [] {
      BeginSound(capacity);
      NothingOffered();
    } else {
      RunOffered(capacity, steps[..|steps| - 1]);
      NextSound(Run(Begin(capacity), steps[..|steps| - 1]), steps[|steps| - 1]);
      NextOffered(Run(Begin(capacity), steps[..|steps| - 1]), steps[|steps| - 1]);
    }
  }

  lemma NothingOffered()
    ensures Offered(map[], map[])
  {
  }

  // ----- one pass of Ensure -----

  /** A generation that may still be asked for, of a shard there is room to know, under its one identity. */
  predicate Asked(l: Launcher, key: Key, identity: Name) {
    && !l.closed && 0 < key.generation
    && (key.shard in l.retired ==> l.retired[key.shard] < key.generation)
    && (key.shard in l.latest ==> l.latest[key.shard] <= key.generation)
    && (key.shard !in l.latest ==> |l.latest| < l.capacity)
    && (key in l.identities ==> l.identities[key] == identity)
  }

  /** A process of this very generation that has been published and that nothing has happened to. */
  predicate Serving(l: Launcher, key: Key, id: nat) {
    && id in l.instances && l.instances[id].key == key && l.instances[id].handed
    && !l.instances[id].exited && !l.instances[id].gone && !l.instances[id].stopRequested
  }

  predicate OfShard(key: Key, shard: Name) {
    key.shard == shard
  }

  /** The generation is retired, unless a later one already is. */
  predicate Retires(before: map<Name, nat>, after: map<Name, nat>, key: Key) {
    if key.generation == 0 || (key.shard in before && key.generation <= before[key.shard]) then after == before
    else after == before[key.shard := key.generation]
  }

  /** This process is asked to stop, and nothing else happens. */
  predicate StopsOne(l: Launcher, n: Launcher, id: nat) {
    && id in l.instances && n == l.(instances := l.instances[id := l.instances[id].(stopRequested := true)],
                                    retired := n.retired)
    && Retires(l.retired, n.retired, l.instances[id].key)
  }

  /** A launch with one waiter is begun; identities of older generations go once there is a newer one. */
  ghost predicate Launches(l: Launcher, n: Launcher, key: Key, identity: Name) {
    && n == l.(latest := l.latest[key.shard := key.generation], identities := n.identities,
               pending := l.pending[key := Pending(Begun, false, 1)])
    && key in n.identities && n.identities[key] == identity
    && (forall k | k != key ::
          k in n.identities <==> && k in l.identities
                                 && !(&& k.shard == key.shard && k.generation < key.generation
                                      && (k.shard in l.latest ==> l.latest[k.shard] < key.generation)))
    && (forall k | k != key && k in n.identities :: k in l.identities && n.identities[k] == l.identities[k])
  }

  ghost predicate Ensures(l: Launcher, n: Launcher, key: Key, identity: Name) {
    if !Asked(l, key, identity) then n == l
    else if key in l.pending then
      && n == l.(pending := n.pending)
      && n.pending == l.pending[key := Pending(l.pending[key].phase, l.pending[key].abandoned,
                                               l.pending[key].waiters + if l.pending[key].abandoned then 0 else 1)]
    else if (exists id :: Serving(l, key, id)) || (exists other :: other in l.pending && OfShard(other, key.shard))
    then n == l
    else if exists id :: Alive(l.instances, id, key.shard)
    then exists id :: Alive(l.instances, id, key.shard) && StopsOne(l, n, id)
    else if l.capacity <= |l.pending| then n == l
    else Launches(l, n, key, identity)
  }

  /** In every reachable state a pass does exactly one of these: it refuses a generation that may not be asked for;
      joins its launch; leaves a serving process or another launch of the shard alone; asks the one process in the way
      to stop; finds too many launches; or begins its own. */
  lemma EnsureDecided(capacity: nat, steps: seq<Step>, key: Key, identity: Name, ids: seq<nat>)
    requires forall id | id in Run(Begin(capacity), steps).instances :: id in ids
    ensures var l := Run(Begin(capacity), steps); Ensures(l, Next(l, EnsureStep(key, identity, ids)), key, identity)
  {
    hide Run, Begin, Sound, Offered, Ensures, Ensure;
    var l := Run(Begin(capacity), steps);
    RunOffered(capacity, steps);
    EnsureCases(l, key, identity, ids);
  }

  lemma EnsureCases(l: Launcher, key: Key, identity: Name, ids: seq<nat>)
    requires Sound(l) && Offered(l.instances, l.current) && (forall id | id in l.instances :: id in ids)
    ensures Ensures(l, Ensure(l, key, identity, ids), key, identity)
  {
    hide Sound, Offered, RetireAll, Launch, Launches, StopsOne, Available, Serving, Alive, Unresolved;
    assert Admissible(l, key, identity) <==> Asked(l, key, identity);
    ServingIsAvailable(l, key);
    assert Busy(l, key.shard) <==> exists other :: other in l.pending && OfShard(other, key.shard);
    if Asked(l, key, identity) && key !in l.pending && !Available(l, key) && !Busy(l, key.shard) {
      if id :| Alive(l.instances, id, key.shard) {
        TheOneInTheWay(l, id, key.shard, ids);
      } else {
        AliveMeansUnresolved(l, key.shard);
        LaunchesExactly(l, key, identity);
      }
    }
  }

  lemma ServingIsAvailable(l: Launcher, key: Key)
    requires Sound(l) && Offered(l.instances, l.current)
    ensures Available(l, key) <==> exists id :: Serving(l, key, id)
  {
    hide Watched, Barred, Fenced, Untouched, OneEach;
    if Available(l, key) {
      assert Serving(l, key, l.current[key.shard]);
    }
  }

  lemma AliveMeansUnresolved(l: Launcher, shard: Name)
    requires Sound(l) && !Busy(l, shard)
    ensures forall id :: Alive(l.instances, id, shard) <==> Unresolved(l, id, shard)
  {
    hide Barred, Fenced, Untouched, OneEach, Published;
  }

  lemma TheOneInTheWay(l: Launcher, id: nat, shard: Name, ids: seq<nat>)
    requires Sound(l) && !Busy(l, shard) && Alive(l.instances, id, shard) && (forall i | i in l.instances :: i in ids)
    ensures StopsOne(l, RetireAll(l, ids, shard), id) && Unresolved(l, id, shard)
  {
    hide Barred, Watched, Fenced, Untouched, Published, RetireAll;
    AliveMeansUnresolved(l, shard);
    RetireOnly(l, ids, shard, id);
  }

  lemma {:induction false} RetireOnly(l: Launcher, ids: seq<nat>, shard: Name, id: nat)
    requires forall other | Unresolved(l, other, shard) :: other == id
    ensures RetireAll(l, ids, shard) == if id in ids then RetireOne(l, id, shard) else l
  {
    if ids != [] {
      var front, last := ids[..|ids| - 1], ids[|ids| - 1];
      RetireOnly(l, front, shard, id);
      assert id in ids <==> id in front || id == last;
      RetireTwice(l, shard, id);
      if last != id {
        PassedBy(l, shard, id, last);
      }
    }
  }

  lemma RetireTwice(l: Launcher, shard: Name, id: nat)
    ensures RetireOne(RetireOne(l, id, shard), id, shard) == RetireOne(l, id, shard)
  {
    if Unresolved(l, id, shard) {
      var instance := l.instances[id];
      assert l.instances[id := AskedToStop(instance)][id := AskedToStop(AskedToStop(instance))]
             == l.instances[id := AskedToStop(instance)];
    }
  }

  lemma PassedBy(l: Launcher, shard: Name, id: nat, last: nat)
    requires last != id && !Unresolved(l, last, shard)
    ensures RetireOne(l, last, shard) == l && RetireOne(RetireOne(l, id, shard), last, shard) == RetireOne(l, id, shard)
  {
  }

  lemma LaunchesExactly(l: Launcher, key: Key, identity: Name)
    requires Asked(l, key, identity)
    ensures Launches(l, Launch(l, key, identity), key, identity)
  {
    assert Mark(l.latest, key.shard) < key.generation
           <==> (key.shard in l.latest ==> l.latest[key.shard] < key.generation);
    assert Raise(l.latest, key.shard, key.generation) == l.latest[key.shard := key.generation];
  }

  // ----- what a launch comes to -----

  lemma RunStep(l: Launcher, steps: seq<Step>, k: nat)
    requires k < |steps|
    ensures Run(l, steps[..k + 1]) == Next(Run(l, steps[..k]), steps[k])
  {
    hide Next;
    assert steps[..k + 1][..k] == steps[..k];
  }

  lemma NoStep(l: Launcher)
    ensures Run(l, []) == l
  {
  }

  /** Nothing of the shard is launching or alive, and there is room for one more launch. */
  ghost predicate Vacant(l: Launcher, shard: Name) {
    && (forall other | other in l.pending :: !OfShard(other, shard))
    && (forall id :: !Alive(l.instances, id, shard)) && |l.pending| < l.capacity
  }

  function LaunchSteps(key: Key, identity: Name, ids: seq<nat>, id: nat): seq<Step> {
    [EnsureStep(key, identity, ids), SpawnStep(key), TrackStep(key, id), PublishStep(key, id), EndStep(key)]
  }

  /** One process more, the published one of its shard, and no other trace. */
  predicate Served(l: Launcher, n: Launcher, key: Key, identity: Name) {
    && n == l.(latest := l.latest[key.shard := key.generation], identities := n.identities,
               current := l.current[key.shard := l.next], next := l.next + 1,
               instances := l.instances[l.next := Instance(key, true, true, false, false, false)],
               starts := l.starts + [key])
    && key in n.identities && n.identities[key] == identity && Serving(n, key, l.next)
  }

  /** Left alone, the first caller of a vacant shard starts one process, which then serves this generation. */
  lemma LaunchCompletes(capacity: nat, before: seq<Step>, key: Key, identity: Name, ids: seq<nat>)
    requires var l := Run(Begin(capacity), before);
             && Asked(l, key, identity) && Vacant(l, key.shard) && (forall id | id in l.instances :: id in ids)
    ensures var l := Run(Begin(capacity), before);
            Served(l, Run(l, LaunchSteps(key, identity, ids, l.next)), key, identity)
  {
    hide Run, Begin, Sound, Offered, Next, Vacant, Launches, Served, Asked;
    var l := Run(Begin(capacity), before);
    RunOffered(capacity, before);
    FiveSteps(l, LaunchSteps(key, identity, ids, l.next));
    VacantLaunches(capacity, before, key, identity, ids);
    VacantShard(l, key);
    LaunchRuns(l, Next(l, EnsureStep(key, identity, ids)), key, identity);
  }

  lemma FiveSteps(l: Launcher, steps: seq<Step>)
    requires |steps| == 5
    ensures Run(l, steps) == Next(Next(Next(Next(Next(l, steps[0]), steps[1]), steps[2]), steps[3]), steps[4])
  {
    hide Run, Next;
    NoStep(l);
    assert steps[..0] == [] && steps[..5] == steps;
    RunStep(l, steps, 0);
    RunStep(l, steps, 1);
    RunStep(l, steps, 2);
    RunStep(l, steps, 3);
    RunStep(l, steps, 4);
  }

  lemma ThreeSteps(l: Launcher, steps: seq<Step>)
    requires |steps| == 3
    ensures Run(l, steps) == Next(Next(Next(l, steps[0]), steps[1]), steps[2])
  {
    hide Run, Next;
    NoStep(l);
    assert steps[..0] == [] && steps[..3] == steps;
    RunStep(l, steps, 0);
    RunStep(l, steps, 1);
    RunStep(l, steps, 2);
  }

  lemma LaunchRuns(l: Launcher, n: Launcher, key: Key, identity: Name)
    requires Asked(l, key, identity) && Launches(l, n, key, identity)
    requires key.shard !in l.current && l.next !in l.instances && key !in l.pending
    ensures Served(l, Next(Next(Next(Next(n, SpawnStep(key)), TrackStep(key, l.next)), PublishStep(key, l.next)),
                           EndStep(key)), key, identity)
  {
    hide Next;
    Spawns(n, key);
    Tracks(n, key);
    Publishes(n, key);
    Ends(n, key, l.pending);
  }

  lemma VacantLaunches(capacity: nat, before: seq<Step>, key: Key, identity: Name, ids: seq<nat>)
    requires var l := Run(Begin(capacity), before);
             && Asked(l, key, identity) && Vacant(l, key.shard) && (forall id | id in l.instances :: id in ids)
    ensures var l := Run(Begin(capacity), before);
            Launches(l, Next(l, EnsureStep(key, identity, ids)), key, identity)
  {
    hide Run, Begin, Next, Launches, Asked, StopsOne;
    var l := Run(Begin(capacity), before);
    EnsureDecided(capacity, before, key, identity, ids);
    assert OfShard(key, key.shard);
    forall id
      ensures !Serving(l, key, id)
    {
      assert !Alive(l.instances, id, key.shard);
    }
  }

  lemma VacantShard(l: Launcher, key: Key)
    requires Sound(l) && Vacant(l, key.shard)
    ensures key.shard !in l.current && l.next !in l.instances && key !in l.pending
  {
    hide Watched, Barred, Fenced, Untouched, OneEach;
    assert OfShard(key, key.shard);
  }

  /** The launcher while this launch is in this phase. */
  function During(l: Launcher, key: Key, phase: Phase, instance: Instance): Launcher {
    l.(instances := l.instances[l.next := instance], next := l.next + 1, starts := l.starts + [key],
       pending := l.pending[key := Pending(phase, false, 1)])
  }

  lemma Spawns(l: Launcher, key: Key)
    requires key in l.pending && l.pending[key] == Pending(Begun, false, 1)
    ensures Next(l, SpawnStep(key))
            == During(l, key, Spawned(l.next), Instance(key, false, false, false, false, false))
  {
  }

  lemma Tracks(l: Launcher, key: Key)
    ensures Next(During(l, key, Spawned(l.next), Instance(key, false, false, false, false, false)),
                 TrackStep(key, l.next))
            == During(l, key, Tracked(l.next), Instance(key, true, false, false, false, false))
  {
    var k := During(l, key, Spawned(l.next), Instance(key, false, false, false, false, false));
    assert k.instances[l.next := Instance(key, true, false, false, false, false)]
           == l.instances[l.next := Instance(key, true, false, false, false, false)];
    assert k.pending[key := Pending(Tracked(l.next), false, 1)] == l.pending[key := Pending(Tracked(l.next), false, 1)];
  }

  lemma Publishes(l: Launcher, key: Key)
    requires !l.closed && Mark(l.latest, key.shard) == key.generation && key.shard !in l.current
    ensures Next(During(l, key, Tracked(l.next), Instance(key, true, false, false, false, false)),
                 PublishStep(key, l.next))
            == During(l, key, Tracked(l.next), Instance(key, true, true, false, false, false))
               .(current := l.current[key.shard := l.next])
  {
    var k := During(l, key, Tracked(l.next), Instance(key, true, false, false, false, false));
    assert Publishable(k, key, l.next);
    assert k.instances[l.next := Instance(key, true, true, false, false, false)]
           == l.instances[l.next := Instance(key, true, true, false, false, false)];
  }

  lemma Ends(l: Launcher, key: Key, pending: map<Key, Pending>)
    requires key !in pending && l.pending == pending[key := Pending(Begun, false, 1)]
    ensures var k := During(l, key, Tracked(l.next), Instance(key, true, true, false, false, false))
                     .(current := l.current[key.shard := l.next]);
            Next(k, EndStep(key)) == k.(pending := pending)
  {
    var k := During(l, key, Tracked(l.next), Instance(key, true, true, false, false, false))
             .(current := l.current[key.shard := l.next]);
    assert Over(k, key);
    assert k.pending - {key} == pending;
  }

  // ----- what a stop comes to -----

  /** A published process that is stopped, exits and leaves no group behind frees its shard for a later generation
      and bars its own. */
  lemma StopCompletes(capacity: nat, before: seq<Step>, id: nat)
    requires var l := Run(Begin(capacity), before);
             id in l.instances && l.instances[id].handed && !l.instances[id].gone
    ensures var l := Run(Begin(capacity), before);
            var instance := l.instances[id];
            var n := Run(l, [StopStep(id), ExitStep(id), GoneStep(id)]);
            && n == l.(instances := l.instances[id := Instance(instance.key, false, true, true, true, true)],
                       current := l.current - {instance.key.shard}, retired := n.retired)
            && Retires(l.retired, n.retired, instance.key)
            && (forall other :: !Alive(n.instances, other, instance.key.shard))
  {
    hide Run, Begin, Sound, Offered, Next, Retires;
    var l := Run(Begin(capacity), before);
    RunOffered(capacity, before);
    ThreeSteps(l, [StopStep(id), ExitStep(id), GoneStep(id)]);
    HandedIsCurrent(l, id);
    StopsIt(l, id);
    var stopped := l.(instances := l.instances[id := l.instances[id].(stopRequested := true)],
                      retired := Raise(l.retired, l.instances[id].key.shard, l.instances[id].key.generation));
    ExitsIt(stopped, id);
    GoesIt(stopped, id, Exited(stopped.instances[id]));
    NobodyLeft(l, id, Instance(l.instances[id].key, false, true, true, true, true));
  }

  /** A published process that is not gone is the one callers find, and it is tracked. */
  lemma HandedIsCurrent(l: Launcher, id: nat)
    requires Sound(l) && Offered(l.instances, l.current)
    requires id in l.instances && l.instances[id].handed && !l.instances[id].gone
    ensures IsCurrent(l, id) && l.instances[id].tracked
  {
    hide Fenced, Untouched, OneEach, Published;
    if !l.instances[id].tracked {
      PendingOwns(l, l.instances[id].key);
    }
  }

  lemma NobodyLeft(l: Launcher, id: nat, after: Instance)
    requires Sound(l) && id in l.instances && !l.instances[id].gone && after.key == l.instances[id].key && after.gone
    ensures var instances := l.instances[id := after]; forall other :: !Alive(instances, other, after.key.shard)
  {
    hide Watched, Barred, Fenced, Untouched, Published;
  }

  lemma StopsIt(l: Launcher, id: nat)
    requires id in l.instances && l.instances[id].handed && !l.instances[id].gone && IsCurrent(l, id)
    ensures var retired := Raise(l.retired, l.instances[id].key.shard, l.instances[id].key.generation);
            && Next(l, StopStep(id))
               == l.(instances := l.instances[id := l.instances[id].(stopRequested := true)], retired := retired)
            && Retires(l.retired, retired, l.instances[id].key)
  {
  }

  lemma ExitsIt(l: Launcher, id: nat)
    requires id in l.instances && l.instances[id].key.generation <= Mark(l.retired, l.instances[id].key.shard)
    ensures Next(l, ExitStep(id)) == l.(instances := l.instances[id := Exited(l.instances[id])])
  {
  }

  lemma GoesIt(l: Launcher, id: nat, instance: Instance)
    requires instance.tracked && instance.exited
    requires instance.key.shard in l.current && l.current[instance.key.shard] == id
    ensures Next(l.(instances := l.instances[id := instance]), GoneStep(id))
            == l.(instances := l.instances[id := instance.(gone := true, tracked := false)],
                  current := l.current - {instance.key.shard})
  {
    var k := l.(instances := l.instances[id := instance]);
    assert Ending(k, id) && IsCurrent(k, id);
    assert k.instances[id := Gone(instance)] == l.instances[id := Gone(instance)];
  }

  /** A launch that gives up on its process and sees it go leaves nothing of its shard behind. */
  lemma FailureCleansUp(capacity: nat, before: seq<Step>, key: Key, id: nat)
    requires var l := Run(Begin(capacity), before);
             InPhase(l, key, Tracked(id)) && id in l.instances && !l.instances[id].handed && l.instances[id].tracked
             && !l.instances[id].gone
    ensures var l := Run(Begin(capacity), before);
            var n := Run(l, [FailStep(key, id), GoneStep(id), EndStep(key)]);
            && n == l.(pending := l.pending - {key},
                       instances := l.instances[id := l.instances[id].(tracked := false, gone := true)])
            && (forall other :: !Alive(n.instances, other, key.shard))
  {
    hide Run, Begin, Sound, Offered, Next;
    var l := Run(Begin(capacity), before);
    RunOffered(capacity, before);
    ThreeSteps(l, [FailStep(key, id), GoneStep(id), EndStep(key)]);
    NotYetCurrent(l, key, id);
    FailsIt(l, key, id);
    NobodyLeft(l, id, l.instances[id].(tracked := false, gone := true));
  }

  lemma NotYetCurrent(l: Launcher, key: Key, id: nat)
    requires Sound(l) && Offered(l.instances, l.current)
    requires InPhase(l, key, Tracked(id)) && id in l.instances && !l.instances[id].handed
    ensures !IsCurrent(l, id) && l.instances[id].key == key
  {
    hide Watched, Fenced, Untouched, OneEach, Published;
    PendingOwns(l, key);
  }

  lemma FailsIt(l: Launcher, key: Key, id: nat)
    requires InPhase(l, key, Tracked(id)) && id in l.instances && !l.instances[id].handed && l.instances[id].tracked
    requires !IsCurrent(l, id) && l.instances[id].key == key
    ensures Next(Next(Next(l, FailStep(key, id)), GoneStep(id)), EndStep(key))
            == l.(pending := l.pending - {key},
                  instances := l.instances[id := l.instances[id].(tracked := false, gone := true)])
  {
    var first := l.(pending := l.pending[key := WithPhase(l.pending[key], Failing(id))]);
    assert Next(l, FailStep(key, id)) == first;
    assert Ending(first, id) && !IsCurrent(first, id);
    var second := first.(instances := l.instances[id := Gone(l.instances[id])]);
    assert Next(first, GoneStep(id)) == second;
    assert Over(second, key);
    assert second.pending - {key} == l.pending - {key};
  }

  // ----- waiters -----

  /** Nobody waits for a launch that is abandoned; it is, exactly when its last waiter has given up. */
  predicate Wanted(pending: Pending) {
    0 <= pending.waiters && (pending.abandoned <==> pending.waiters == 0)
  }

  ghost predicate Waited(pending: map<Key, Pending>) {
    forall key | key in pending :: Wanted(pending[key])
  }

  lemma OneWaited(pending: map<Key, Pending>, key: Key, after: Pending)
    requires Waited(pending) && Wanted(after)
    ensures Waited(pending[key := after])
  {
  }

  lemma OneLessWaited(pending: map<Key, Pending>, key: Key)
    requires Waited(pending)
    ensures Waited(pending - {key})
  {
  }

  lemma NextWaited(l: Launcher, step: Step)
    requires Waited(l.pending)
    ensures Waited(Next(l, step).pending)
  {
    match step
    case EnsureStep(key, identity, ids) => EnsureWaited(l, key, identity, ids);
    case EndStep(key) => OneLessWaited(l.pending, key);
    case GiveUpStep(key) => PhaseWaited(l, step);
    case SpawnStep(key) => PhaseWaited(l, step);
    case TrackStep(key, id) => PhaseWaited(l, step);
    case FailStep(key, id) => PhaseWaited(l, step);
    case _ => hide Waited, Ensure;
  }

  lemma EnsureWaited(l: Launcher, key: Key, identity: Name, ids: seq<nat>)
    requires Waited(l.pending)
    ensures Waited(Ensure(l, key, identity, ids).pending)
  {
    RetireAllWaits(l, ids, key.shard);
    if key in l.pending {
      OneWaited(l.pending, key, Join(l.pending[key]));
    }
    OneWaited(l.pending, key, Pending(Begun, false, 1));
    hide Available, Busy, Admissible, RetireAll, Waited, Join;
  }

  /** A step of one launch changes its waiters only by one giving up. */
  lemma PhaseWaited(l: Launcher, step: Step)
    requires Waited(l.pending)
    requires step.GiveUpStep? || step.SpawnStep? || step.TrackStep? || step.FailStep?
    ensures Waited(Next(l, step).pending)
  {
    if step.key in l.pending {
      var pending := l.pending[step.key];
      OneWaited(l.pending, step.key, GiveUp(pending));
      OneWaited(l.pending, step.key, WithPhase(pending, Spawned(l.next)));
      if step.TrackStep? || step.FailStep? {
        OneWaited(l.pending, step.key, WithPhase(pending, Tracked(step.id)));
        OneWaited(l.pending, step.key, WithPhase(pending, Failing(step.id)));
      }
    }
    hide Waited, GiveUp, WithPhase;
  }

  lemma {:induction false} RetireAllWaits(l: Launcher, ids: seq<nat>, shard: Name)
    ensures RetireAll(l, ids, shard).pending == l.pending
  {
    if ids != [] {
      RetireAllWaits(l, ids[..|ids| - 1], shard);
    }
  }

  lemma {:induction false} RunWaited(capacity: nat, steps: seq<Step>)
    ensures Waited(Run(Begin(capacity), steps).pending)
  {
    hide Next;
    if steps != [] {
      RunWaited(capacity, steps[..|steps| - 1]);
      NextWaited(Run(Begin(capacity), steps[..|steps| - 1]), steps[|steps| - 1]);
    }
  }

  // ----- the other steps -----

  /** In every reachable state a registered process is published exactly if its launch is still wanted, the launcher
      is open and the process has not exited; nothing else can be in the way. */
  lemma PublishDecided(capacity: nat, steps: seq<Step>, key: Key, id: nat)
    requires var l := Run(Begin(capacity), steps);
             InPhase(l, key, Tracked(id)) && id in l.instances && !l.instances[id].handed
    ensures var l := Run(Begin(capacity), steps);
            Next(l, PublishStep(key, id))
            == if l.pending[key].waiters == 0 || l.closed || l.instances[id].exited then l
               else l.(instances := l.instances[id := l.instances[id].(handed := true)],
                       current := l.current[key.shard := id])
  {
    hide Run, Begin, Watched, Barred, Untouched, OneEach, Published;
    var l := Run(Begin(capacity), steps);
    RunOffered(capacity, steps);
    RunWaited(capacity, steps);
    assert Wanted(l.pending[key]);
    CurrentIsMine(l, key, id);
  }

  /** A launch ends exactly when it has started no process, has given up on it, or has published it. */
  lemma EndDecided(capacity: nat, steps: seq<Step>, key: Key)
    requires key in Run(Begin(capacity), steps).pending
    ensures var l := Run(Begin(capacity), steps);
            var phase := l.pending[key].phase;
            Next(l, EndStep(key))
            == if phase.Spawned? || (phase.Tracked? && IsUnpublished(l, phase.instance)) then l
               else l.(pending := l.pending - {key})
  {
    hide Run, Begin, Watched, Fenced, Untouched, OneEach, Published;
    RunOffered(capacity, steps);
    PendingOwns(Run(Begin(capacity), steps), key);
  }

  predicate IsUnpublished(l: Launcher, id: nat) {
    id in l.instances && !l.instances[id].handed
  }

  /** A launch gives up on its process exactly between its registration and its publication. */
  lemma FailDecided(capacity: nat, steps: seq<Step>, key: Key, id: nat)
    ensures var l := Run(Begin(capacity), steps);
            Next(l, FailStep(key, id))
            == if key in l.pending && l.pending[key].phase == Tracked(id) && IsUnpublished(l, id)
               then l.(pending := l.pending[key := l.pending[key].(phase := Failing(id))]) else l
  {
    hide Run;
  }

  /** A process group is taken for gone only after somebody began to stop the process or it exited; then its shard
      has no process, and no published one. */
  lemma GoneDecided(capacity: nat, steps: seq<Step>, id: nat)
    requires id in Run(Begin(capacity), steps).instances && Run(Begin(capacity), steps).instances[id].tracked
    ensures var l := Run(Begin(capacity), steps);
            var instance := l.instances[id];
            var n := Next(l, GoneStep(id));
            var given := instance.key in l.pending && l.pending[instance.key].phase == Failing(id);
            if instance.exited || instance.stopRequested || l.closed || given
            then && n == l.(instances := l.instances[id := instance.(gone := true, tracked := false)],
                            current := n.current)
                 && (instance.gone || instance.key.shard !in n.current)
                 && (forall shard | shard != instance.key.shard ::
                       shard in n.current <==> shard in l.current)
                 && (forall shard | shard in n.current :: n.current[shard] == l.current[shard])
            else n == l
  {
    hide Run, Begin, Watched, Barred, Fenced, Untouched;
    RunOffered(capacity, steps);
  }

  /** Callers stop exactly the published process that is not gone; its generation is barred at once. */
  lemma StopDecided(capacity: nat, steps: seq<Step>, id: nat)
    ensures var l := Run(Begin(capacity), steps);
            var n := Next(l, StopStep(id));
            if id in l.instances && l.instances[id].handed && !l.instances[id].gone
            then && n == l.(instances := l.instances[id := l.instances[id].(stopRequested := true)],
                            retired := n.retired)
                 && Retires(l.retired, n.retired, l.instances[id].key)
            else n == l
  {
    hide Run, Begin, Sound, Offered;
    var l := Run(Begin(capacity), steps);
    RunOffered(capacity, steps);
    if id in l.instances && l.instances[id].handed && !l.instances[id].gone {
      HandedIsCurrent(l, id);
    }
  }

  /** A caller that gives up is one waiter less, and the last one abandons the launch for good. */
  lemma GiveUpDecided(capacity: nat, steps: seq<Step>, key: Key)
    requires key in Run(Begin(capacity), steps).pending
    ensures var l := Run(Begin(capacity), steps);
            var waiters := l.pending[key].waiters;
            Next(l, GiveUpStep(key))
            == if waiters == 0 then l
               else l.(pending := l.pending[key := Pending(l.pending[key].phase, waiters == 1, waiters - 1)])
  {
    hide Run;
    RunWaited(capacity, steps);
    assert Wanted(Run(Begin(capacity), steps).pending[key]);
  }

  /** No launch and no published process is added. */
  predicate Winding(l: Launcher, n: Launcher) {
    l.closed && n.closed && n.pending.Keys <= l.pending.Keys && n.current.Keys <= l.current.Keys
  }

  lemma ClosedStep(l: Launcher, step: Step)
    requires l.closed
    ensures Winding(l, Next(l, step))
  {
  }

  /** Once closed, a launcher stays closed and only winds down, however the run goes on. */
  lemma {:induction false} ClosedWindsDown(capacity: nat, before: seq<Step>, after: seq<Step>)
    ensures Winding(Run(Begin(capacity), before + [CloseStep]), Run(Begin(capacity), before + [CloseStep] + after))
    decreases |after|
  {
    hide Next;
    var steps := before + [CloseStep];
    if after == [] {
      assert steps + after == steps && steps[..|steps| - 1] == before;
      Closes(Run(Begin(capacity), before));
    } else {
      var front := after[..|after| - 1];
      ClosedWindsDown(capacity, before, front);
      assert (steps + after)[..|steps + after| - 1] == steps + front;
      ClosedStep(Run(Begin(capacity), steps + front), after[|after| - 1]);
    }
  }

  lemma Closes(l: Launcher)
    ensures Next(l, CloseStep) == l.(closed := true)
  {
  }
}
