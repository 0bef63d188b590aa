/** The process launcher below the manager: pending launches, instances and
    generations per shard. Each step is a stretch of code under the launcher's mutex,
    or a process event; at most one process of a shard is not known to be gone. */
module ShardLauncher {
  import opened Common

  datatype Key = Key(shard: Name, generation: nat)

  /** A launch before, during and after the start of its process; `Failing` once it has decided to stop it. */
  datatype Phase = Begun | Spawned(instance: nat) | Tracked(instance: nat) | Failing(instance: nat)

  datatype Pending = Pending(phase: Phase, abandoned: bool, waiters: int)

  /** `handed` once published to callers, `gone` once the process group is known to be absent. */
  datatype Instance = Instance(key: Key, tracked: bool, handed: bool, exited: bool, gone: bool, stopRequested: bool)

  datatype Launcher = Launcher(
    closed: bool, capacity: nat, pending: map<Key, Pending>, instances: map<nat, Instance>,
    current: map<Name, nat>, latest: map<Name, nat>, retired: map<Name, nat>, identities: map<Key, Name>,
    next: nat, starts: seq<Key>)

  function Begin(capacity: nat): Launcher {
    Launcher(false, capacity, map[], map[], map[], map[], map[], map[], 0, [])
  }

  function Mark(generations: map<Name, nat>, shard: Name): nat {
    if shard in generations then generations[shard] else 0
  }

  function Raise(generations: map<Name, nat>, shard: Name, generation: nat): map<Name, nat> {
    if Mark(generations, shard) < generation then generations[shard := generation] else generations
  }

  // ----- Ensure -----

  predicate Admissible(l: Launcher, key: Key, identity: Name) {
    && !l.closed && key.generation != 0
    && (key.shard in l.latest || |l.latest| < l.capacity)
    && Mark(l.retired, key.shard) < key.generation && Mark(l.latest, key.shard) <= key.generation
    && (key in l.identities ==> l.identities[key] == identity)
  }

  /** The published instance of this very generation can be handed out. */
  predicate Available(l: Launcher, key: Key) {
    && key.shard in l.current && l.current[key.shard] in l.instances
    && l.instances[l.current[key.shard]].key == key
    && !l.instances[l.current[key.shard]].exited && !l.instances[l.current[key.shard]].gone
    && !l.instances[l.current[key.shard]].stopRequested
  }

  ghost predicate Busy(l: Launcher, shard: Name) {
    exists key :: key in l.pending && key.shard == shard
  }

  predicate Unresolved(l: Launcher, id: nat, shard: Name) {
    id in l.instances && l.instances[id].tracked && l.instances[id].key.shard == shard && !l.instances[id].gone
  }

  function AskedToStop(instance: Instance): Instance {
    instance.(stopRequested := true)
  }

  /** An instance in the way is asked to stop and its generation retired. */
  function RetireOne(l: Launcher, id: nat, shard: Name): Launcher {
    if Unresolved(l, id, shard)
    then l.(instances := l.instances[id := AskedToStop(l.instances[id])],
            retired := Raise(l.retired, shard, l.instances[id].key.generation))
    else l
  }

  function RetireAll(l: Launcher, ids: seq<nat>, shard: Name): Launcher {
    if ids == [] then l else RetireOne(RetireAll(l, ids[..|ids| - 1], shard), ids[|ids| - 1], shard)
  }

  /** A launch of a newer generation forgets the identities of the older ones. */
  function Forget(identities: map<Key, Name>, key: Key, newer: bool): map<Key, Name> {
    map k | k in identities && !(newer && k.shard == key.shard && k.generation < key.generation) :: identities[k]
  }

  function Launch(l: Launcher, key: Key, identity: Name): Launcher {
    l.(latest := Raise(l.latest, key.shard, key.generation),
       identities := Forget(l.identities, key, Mark(l.latest, key.shard) < key.generation)[key := identity],
       pending := l.pending[key := Pending(Begun, false, 1)])
  }

  function Join(pending: Pending): Pending {
    if pending.abandoned then pending else pending.(waiters := pending.waiters + 1)
  }

  /** One pass of the Ensure loop; `ids` is the order in which the instances are walked. */
  ghost function Ensure(l: Launcher, key: Key, identity: Name, ids: seq<nat>): Launcher {
    if !Admissible(l, key, identity) || !(forall id | id in l.instances :: id in ids) then l
    else if key in l.pending then l.(pending := l.pending[key := Join(l.pending[key])])
    else if Available(l, key) || Busy(l, key.shard) then l
    else if exists id :: Unresolved(l, id, key.shard) then RetireAll(l, ids, key.shard)
    else if |l.pending| >= l.capacity then l
    else Launch(l, key, identity)
  }

  /** A waiter gives up; the last one abandons the launch. */
  function GiveUp(pending: Pending): Pending {
    if pending.abandoned then pending
    else pending.(waiters := pending.waiters - 1, abandoned := pending.waiters == 1)
  }

  // ----- runLaunch -----

  predicate InPhase(l: Launcher, key: Key, phase: Phase) {
    key in l.pending && l.pending[key].phase == phase
  }

  function WithPhase(pending: Pending, phase: Phase): Pending {
    pending.(phase := phase)
  }

  /** The process starts; it is not registered yet. */
  function Spawn(l: Launcher, key: Key): Launcher
    requires key in l.pending
  {
    l.(instances := l.instances[l.next := Instance(key, false, false, false, false, false)], next := l.next + 1,
       pending := l.pending[key := WithPhase(l.pending[key], Spawned(l.next))], starts := l.starts + [key])
  }

  function Registered(instance: Instance): Instance {
    instance.(tracked := true)
  }

  function Track(l: Launcher, key: Key, id: nat): Launcher
    requires key in l.pending && id in l.instances
  {
    l.(instances := l.instances[id := Registered(l.instances[id])],
       pending := l.pending[key := WithPhase(l.pending[key], Tracked(id))])
  }

  /** A launch publishes once, and only while it is wanted, current and alive. */
  predicate Publishable(l: Launcher, key: Key, id: nat) {
    && InPhase(l, key, Tracked(id)) && id in l.instances && !l.instances[id].handed
    && !l.pending[key].abandoned && Mark(l.latest, key.shard) == key.generation && !l.closed && !l.instances[id].exited
    && (key.shard in l.current && l.current[key.shard] in l.instances && l.current[key.shard] != id
        ==> l.instances[l.current[key.shard]].gone)
  }

  function HandedOut(instance: Instance): Instance {
    instance.(handed := true)
  }

  function Publish(l: Launcher, key: Key, id: nat): Launcher
    requires id in l.instances
  {
    l.(instances := l.instances[id := HandedOut(l.instances[id])], current := l.current[key.shard := id])
  }

  /** A launch is over when it failed, or its instance has been published. */
  predicate Over(l: Launcher, key: Key) {
    && key in l.pending
    && match l.pending[key].phase
       case Begun => true
       case Spawned(_) => false
       case Tracked(id) => id in l.instances && l.instances[id].handed
       case Failing(_) => true
  }

  // ----- process events -----

  /** Somebody has begun to stop the process, or it has exited. */
  predicate Ending(l: Launcher, id: nat) {
    && id in l.instances && l.instances[id].tracked
    && (l.instances[id].exited || l.instances[id].stopRequested || l.closed
        || InPhase(l, l.instances[id].key, Failing(id)))
  }

  function Exited(instance: Instance): Instance {
    instance.(exited := true)
  }

  function Gone(instance: Instance): Instance {
    instance.(gone := true, tracked := false)
  }

  predicate IsCurrent(l: Launcher, id: nat) {
    id in l.instances && l.instances[id].key.shard in l.current && l.current[l.instances[id].key.shard] == id
  }

  /** A published instance that ends or is told to end retires its generation. */
  function RetiredBy(l: Launcher, id: nat): map<Name, nat>
    requires id in l.instances
  {
    if IsCurrent(l, id) then Raise(l.retired, l.instances[id].key.shard, l.instances[id].key.generation) else l.retired
  }

  function CurrentWithout(l: Launcher, id: nat): map<Name, nat>
    requires id in l.instances
  {
    if IsCurrent(l, id) then l.current - {l.instances[id].key.shard} else l.current
  }

  // ----- runs -----

  datatype Step =
    | EnsureStep(key: Key, identity: Name, ids: seq<nat>)
    | GiveUpStep(key: Key)
    | SpawnStep(key: Key)
    | TrackStep(key: Key, id: nat)
    | FailStep(key: Key, id: nat)
    | PublishStep(key: Key, id: nat)
    | EndStep(key: Key)
    | ExitStep(id: nat)
    | GoneStep(id: nat)
    | StopStep(id: nat)
    | CloseStep

  ghost function Next(l: Launcher, step: Step): Launcher {
    match step
    case EnsureStep(key, identity, ids) => Ensure(l, key, identity, ids)
    case GiveUpStep(key) => if key in l.pending then l.(pending := l.pending[key := GiveUp(l.pending[key])]) else l
    case SpawnStep(key) => if InPhase(l, key, Begun) then Spawn(l, key) else l
    case TrackStep(key, id) => if InPhase(l, key, Spawned(id)) && id in l.instances then Track(l, key, id) else l
    case FailStep(key, id) =>
      if InPhase(l, key, Tracked(id)) && id in l.instances && !l.instances[id].handed
      then l.(pending := l.pending[key := WithPhase(l.pending[key], Failing(id))]) else l
    case PublishStep(key, id) => if Publishable(l, key, id) then Publish(l, key, id) else l
    case EndStep(key) => if Over(l, key) then l.(pending := l.pending - {key}) else l
    case ExitStep(id) =>
      if id in l.instances then l.(instances := l.instances[id := Exited(l.instances[id])],
                                   retired := RetiredBy(l, id)) else l
    case GoneStep(id) =>
      if Ending(l, id) then l.(instances := l.instances[id := Gone(l.instances[id])], current := CurrentWithout(l, id))
      else l
    case StopStep(id) =>
      if id in l.instances && l.instances[id].handed && !l.instances[id].gone
      then l.(instances := l.instances[id := AskedToStop(l.instances[id])], retired := RetiredBy(l, id)) else l
    case CloseStep => l.(closed := true)
  }

  ghost function Run(l: Launcher, steps: seq<Step>): Launcher {
    if steps == [] then l else Next(Run(l, steps[..|steps| - 1]), steps[|steps| - 1])
  }

  // ----- invariant -----

  predicate Alive(instances: map<nat, Instance>, id: nat, shard: Name) {
    id in instances && instances[id].key.shard == shard && !instances[id].gone
  }

  /** The process has just started: nobody but its launch has seen it. */
  predicate Unseen(instance: Instance) {
    !instance.tracked && !instance.handed && !instance.stopRequested && !instance.gone
  }

  /** No process of the shard is alive, except this one. */
  ghost predicate Only(instances: map<nat, Instance>, shard: Name, mine: nat) {
    forall id | id in instances && instances[id].key.shard == shard && !instances[id].gone :: id == mine
  }

  ghost predicate Empty(instances: map<nat, Instance>, shard: Name) {
    forall id | id in instances && instances[id].key.shard == shard :: instances[id].gone
  }

  /** What a pending launch knows of its shard's processes. */
  ghost predicate Owns(instances: map<nat, Instance>, key: Key, phase: Phase) {
    match phase
    case Begun => Empty(instances, key.shard)
    case Spawned(mine) => mine in instances && instances[mine].key == key && Unseen(instances[mine])
      && Only(instances, key.shard, mine)
    case Tracked(mine) => mine in instances && instances[mine].key == key && Only(instances, key.shard, mine)
    case Failing(mine) => mine in instances && instances[mine].key == key && Only(instances, key.shard, mine)
  }

  ghost predicate OneEach(instances: map<nat, Instance>) {
    forall id, other | id in instances && other in instances && instances[id].key.shard == instances[other].key.shard
                       && !instances[id].gone && !instances[other].gone :: id == other
  }

  /** A process that is not registered belongs to a launch that is about to register it. */
  ghost predicate Watched(instances: map<nat, Instance>, pending: map<Key, Pending>) {
    forall id | id in instances && !instances[id].gone && !instances[id].tracked ::
      instances[id].key in pending && pending[instances[id].key].phase == Spawned(id)
  }

  ghost predicate Barred(instances: map<nat, Instance>, pending: map<Key, Pending>) {
    && (forall key, other | key in pending && other in pending && key.shard == other.shard :: key == other)
    && (forall key | key in pending :: Owns(instances, key, pending[key].phase))
  }

  /** Pending launches are at the latest generation, and not retired before their start. */
  ghost predicate Fenced(pending: map<Key, Pending>, latest: map<Name, nat>, retired: map<Name, nat>) {
    forall key | key in pending ::
      Mark(latest, key.shard) == key.generation
        && (pending[key].phase == Begun ==> Mark(retired, key.shard) < key.generation)
  }

  ghost predicate Published(current: map<Name, nat>, instances: map<nat, Instance>) {
    forall shard | shard in current :: Alive(instances, current[shard], shard)
  }

  /** Nobody stops a process between its registration and its publication, except a launcher that is closing. */
  ghost predicate Untouched(instances: map<nat, Instance>, pending: map<Key, Pending>, closed: bool) {
    && (forall id | id in instances && !instances[id].handed && instances[id].stopRequested ::
          !(instances[id].key in pending && pending[instances[id].key].phase == Tracked(id)))
    && (forall id | id in instances && !instances[id].handed && instances[id].gone && instances[id].key in pending
                    && pending[instances[id].key].phase == Tracked(id) :: instances[id].exited || closed)
  }

  ghost predicate Sound(l: Launcher) {
    && OneEach(l.instances) && Watched(l.instances, l.pending) && Barred(l.instances, l.pending)
    && Fenced(l.pending, l.latest, l.retired) && Published(l.current, l.instances)
    && Untouched(l.instances, l.pending, l.closed)
    && (forall id | id in l.instances :: id < l.next)
  }

  // ----- what one step keeps -----

  lemma BeginSound(capacity: nat)
    ensures Sound(Begin(capacity))
  {
  }

  /** The same processes of the same shards are alive. */
  ghost predicate SameAlive(before: map<nat, Instance>, after: map<nat, Instance>) {
    before.Keys == after.Keys && forall id | id in before ::
      after[id].key == before[id].key && after[id].gone == before[id].gone
  }

  lemma AliveKeeps(before: map<nat, Instance>, after: map<nat, Instance>, current: map<Name, nat>)
    requires SameAlive(before, after) && OneEach(before) && Published(current, before)
    ensures OneEach(after) && Published(current, after)
  {
  }

  lemma AliveOwns(before: map<nat, Instance>, after: map<nat, Instance>, key: Key, phase: Phase)
    requires SameAlive(before, after) && Owns(before, key, phase)
    requires phase.Spawned? ==> Unseen(after[phase.instance])
    ensures Owns(after, key, phase)
  {
  }

  /** An instance changes without starting, ending or being registered. */
  lemma InstanceBarred(l: Launcher, id: nat, instance: Instance)
    requires Barred(l.instances, l.pending) && id in l.instances
    requires instance.key == l.instances[id].key && instance.gone == l.instances[id].gone
    requires Unseen(l.instances[id]) ==> Unseen(instance)
    ensures SameAlive(l.instances, l.instances[id := instance]) && Barred(l.instances[id := instance], l.pending)
  {
    hide Owns;
    var after := l.instances[id := instance];
    forall key | key in l.pending ensures Owns(after, key, l.pending[key].phase) {
      InstanceOwns(l.instances, id, instance, key, l.pending[key].phase);
    }
  }

  lemma InstanceOwns(instances: map<nat, Instance>, id: nat, instance: Instance, key: Key, phase: Phase)
    requires Owns(instances, key, phase) && id in instances
    requires instance.key == instances[id].key && instance.gone == instances[id].gone
    requires Unseen(instances[id]) ==> Unseen(instance)
    ensures Owns(instances[id := instance], key, phase)
  {
    AliveOwns(instances, instances[id := instance], key, phase);
  }

  lemma PendingKeeps(l: Launcher, key: Key, pending: Pending)
    requires Sound(l) && key in l.pending && pending.phase == l.pending[key].phase
    ensures Sound(l.(pending := l.pending[key := pending]))
  {
    hide OneEach, Published, Owns;
  }

  lemma GoneOwns(instances: map<nat, Instance>, id: nat, key: Key, phase: Phase)
    requires Owns(instances, key, phase) && id in instances && instances[id].tracked
    ensures Owns(instances[id := Gone(instances[id])], key, phase)
  {
  }

  lemma GoneKeeps(l: Launcher, id: nat)
    requires Sound(l) && Ending(l, id)
    ensures Sound(l.(instances := l.instances[id := Gone(l.instances[id])], current := CurrentWithout(l, id)))
  {
    hide Fenced, Owns;
    var after := l.instances[id := Gone(l.instances[id])];
    forall key | key in l.pending ensures Owns(after, key, l.pending[key].phase) {
      GoneOwns(l.instances, id, key, l.pending[key].phase);
    }
  }

  /** Retiring a published instance's generation leaves launches that have not started alone. */
  lemma RetireKeepsFence(l: Launcher, id: nat)
    requires Sound(l) && id in l.instances
    ensures Fenced(l.pending, l.latest, RetiredBy(l, id))
  {
    hide OneEach, Watched, Untouched;
    if IsCurrent(l, id) {
      var shard := l.instances[id].key.shard;
      assert Alive(l.instances, id, shard);
      forall key | key in l.pending && key.shard == shard ensures l.pending[key].phase != Begun {
        assert Owns(l.instances, key, l.pending[key].phase);
      }
    }
  }

  /** Marks on an instance that say it has ended or should end. */
  lemma MarkKeeps(l: Launcher, id: nat, instance: Instance, retired: map<Name, nat>)
    requires Sound(l) && id in l.instances && Fenced(l.pending, l.latest, retired)
    requires instance == Exited(l.instances[id]) || (instance == AskedToStop(l.instances[id]) && l.instances[id].handed)
    ensures Sound(l.(instances := l.instances[id := instance], retired := retired))
  {
    hide Fenced, OneEach, Barred, Published;
    InstanceBarred(l, id, instance);
    AliveKeeps(l.instances, l.instances[id := instance], l.current);
  }

  lemma SpawnOwns(instances: map<nat, Instance>, id: nat, mine: Key, key: Key, phase: Phase)
    requires Owns(instances, key, phase) && id !in instances && key.shard != mine.shard
    ensures Owns(instances[id := Instance(mine, false, false, false, false, false)], key, phase)
  {
  }

  lemma SpawnMine(instances: map<nat, Instance>, id: nat, key: Key)
    requires Owns(instances, key, Begun) && id !in instances
    ensures Owns(instances[id := Instance(key, false, false, false, false, false)], key, Spawned(id))
  {
  }

  lemma SpawnBarred(l: Launcher, key: Key)
    requires Barred(l.instances, l.pending) && InPhase(l, key, Begun) && l.next !in l.instances
    ensures Barred(Spawn(l, key).instances, Spawn(l, key).pending)
  {
    hide Owns;
    var n := Spawn(l, key);
    forall k | k in n.pending ensures Owns(n.instances, k, n.pending[k].phase) {
      if k == key {
        SpawnMine(l.instances, l.next, key);
      } else {
        SpawnOwns(l.instances, l.next, key, k, l.pending[k].phase);
      }
    }
  }

  lemma SpawnOneEach(l: Launcher, key: Key)
    requires OneEach(l.instances) && Barred(l.instances, l.pending) && InPhase(l, key, Begun) && l.next !in l.instances
    ensures OneEach(Spawn(l, key).instances)
  {
    PendingOwns(l, key);
    SpawnMine(l.instances, l.next, key);
    assert Only(Spawn(l, key).instances, key.shard, l.next);
  }

  lemma SpawnKeeps(l: Launcher, key: Key)
    requires Sound(l) && InPhase(l, key, Begun)
    ensures Sound(Spawn(l, key))
  {
    hide OneEach, Barred, Owns;
    assert l.next !in l.instances;
    SpawnBarred(l, key);
    SpawnOneEach(l, key);
  }

  lemma TrackOwns(instances: map<nat, Instance>, id: nat, key: Key)
    requires Owns(instances, key, Spawned(id))
    ensures Owns(instances[id := Registered(instances[id])], key, Tracked(id))
  {
  }

  lemma TrackBarred(l: Launcher, key: Key, id: nat)
    requires Barred(l.instances, l.pending) && InPhase(l, key, Spawned(id)) && id in l.instances
    ensures Barred(Track(l, key, id).instances, Track(l, key, id).pending) && l.instances[id].key == key
  {
    hide Owns;
    var n := Track(l, key, id);
    MineOf(l.instances, key, Spawned(id));
    forall k | k in n.pending ensures Owns(n.instances, k, n.pending[k].phase) {
      if k == key {
        TrackOwns(l.instances, id, key);
      } else {
        TrackElsewhere(l.instances, k, l.pending[k].phase, id);
      }
    }
  }

  lemma MineOf(instances: map<nat, Instance>, key: Key, phase: Phase)
    requires Owns(instances, key, phase) && phase != Begun
    ensures phase.instance in instances && instances[phase.instance].key == key
  {
  }

  lemma TrackElsewhere(instances: map<nat, Instance>, key: Key, phase: Phase, id: nat)
    requires Owns(instances, key, phase) && id in instances && instances[id].key != key
    ensures Owns(instances[id := Registered(instances[id])], key, phase)
  {
    var after := instances[id := Registered(instances[id])];
    assert phase != Begun ==> phase.instance in instances && phase.instance != id;
    AliveOwns(instances, after, key, phase);
  }

  /** A registered process has not been asked to stop and is alive. */
  lemma TrackUntouched(l: Launcher, key: Key, id: nat)
    requires Watched(l.instances, l.pending) && Untouched(l.instances, l.pending, l.closed)
    requires InPhase(l, key, Spawned(id)) && id in l.instances && l.instances[id].key == key && Unseen(l.instances[id])
    ensures var n := Track(l, key, id); Watched(n.instances, n.pending) && Untouched(n.instances, n.pending, n.closed)
  {
  }

  lemma SpawnedUnseen(instances: map<nat, Instance>, key: Key, id: nat)
    requires Owns(instances, key, Spawned(id))
    ensures id in instances && instances[id].key == key && Unseen(instances[id])
  {
  }

  lemma TrackKeeps(l: Launcher, key: Key, id: nat)
    requires Sound(l) && InPhase(l, key, Spawned(id)) && id in l.instances
    ensures Sound(Track(l, key, id))
  {
    hide OneEach, Barred, Owns, Published, Watched, Untouched;
    PendingOwns(l, key);
    SpawnedUnseen(l.instances, key, id);
    TrackBarred(l, key, id);
    TrackUntouched(l, key, id);
    AliveKeeps(l.instances, Track(l, key, id).instances, l.current);
  }

  lemma FailKeeps(l: Launcher, key: Key, id: nat)
    requires Sound(l) && InPhase(l, key, Tracked(id))
    ensures Sound(l.(pending := l.pending[key := WithPhase(l.pending[key], Failing(id))]))
  {
    hide OneEach, Published, Owns;
    PendingOwns(l, key);
    FailOwns(l.instances, key, id);
  }

  lemma FailOwns(instances: map<nat, Instance>, key: Key, id: nat)
    requires Owns(instances, key, Tracked(id))
    ensures Owns(instances, key, Failing(id))
  {
  }

  lemma PublishPublished(l: Launcher, key: Key, id: nat)
    requires Published(l.current, l.instances) && Publishable(l, key, id) && l.instances[id].key == key
    requires Untouched(l.instances, l.pending, l.closed)
    ensures Published(Publish(l, key, id).current, Publish(l, key, id).instances)
  {
    assert !l.instances[id].gone;
  }

  lemma PublishUntouched(l: Launcher, key: Key, id: nat)
    requires Watched(l.instances, l.pending) && Untouched(l.instances, l.pending, l.closed) && Publishable(l, key, id)
    requires l.instances[id].key == key
    ensures var n := Publish(l, key, id); Watched(n.instances, n.pending) && Untouched(n.instances, n.pending, n.closed)
    ensures !Unseen(l.instances[id])
  {
  }

  lemma PublishKeeps(l: Launcher, key: Key, id: nat)
    requires Sound(l) && Publishable(l, key, id)
    ensures Sound(Publish(l, key, id))
  {
    hide OneEach, Barred, Owns, Fenced, Published, Watched, Untouched;
    PendingOwns(l, key);
    MineOf(l.instances, key, Tracked(id));
    PublishPublished(l, key, id);
    PublishUntouched(l, key, id);
    InstanceBarred(l, id, HandedOut(l.instances[id]));
    AliveKeeps(l.instances, Publish(l, key, id).instances, l.current);
  }

  lemma PendingOwns(l: Launcher, key: Key)
    requires Barred(l.instances, l.pending) && key in l.pending
    ensures Owns(l.instances, key, l.pending[key].phase)
  {
  }

  lemma EndKeeps(l: Launcher, key: Key)
    requires Sound(l) && Over(l, key)
    ensures Sound(l.(pending := l.pending - {key}))
  {
    hide OneEach, Published, Owns;
    assert forall id | id in l.instances && !l.instances[id].gone && !l.instances[id].tracked ::
             l.pending[l.instances[id].key].phase == Spawned(id);
  }

  // ----- Ensure -----

  /** With no launch in the shard, its instances can be retired without touching any other launch. */
  lemma RetireOneKeeps(l: Launcher, id: nat, shard: Name)
    requires Sound(l) && !Busy(l, shard)
    ensures Sound(RetireOne(l, id, shard)) && RetireOne(l, id, shard).pending == l.pending
    ensures RetireOne(l, id, shard).latest == l.latest
  {
    hide OneEach, Barred, Published, Fenced, Watched, Untouched, Busy, Raise;
    if Unresolved(l, id, shard) {
      var instance := AskedToStop(l.instances[id]);
      InstanceBarred(l, id, instance);
      AliveKeeps(l.instances, l.instances[id := instance], l.current);
      RetireOneFenced(l, id, shard);
    }
  }

  lemma RetireOneFenced(l: Launcher, id: nat, shard: Name)
    requires Watched(l.instances, l.pending) && Untouched(l.instances, l.pending, l.closed)
             && Fenced(l.pending, l.latest, l.retired)
    requires !Busy(l, shard) && Unresolved(l, id, shard)
    ensures Fenced(l.pending, l.latest, Raise(l.retired, shard, l.instances[id].key.generation))
    ensures var after := l.instances[id := AskedToStop(l.instances[id])];
            Watched(after, l.pending) && Untouched(after, l.pending, l.closed)
  {
    assert forall key | key in l.pending :: key.shard != shard;
  }

  lemma {:induction false} RetireAllKeeps(l: Launcher, ids: seq<nat>, shard: Name)
    requires Sound(l) && !Busy(l, shard)
    ensures Sound(RetireAll(l, ids, shard)) && RetireAll(l, ids, shard).pending == l.pending
    ensures RetireAll(l, ids, shard).latest == l.latest
  {
    hide Sound, RetireOne;
    if ids != [] {
      RetireAllKeeps(l, ids[..|ids| - 1], shard);
      RetireOneKeeps(RetireAll(l, ids[..|ids| - 1], shard), ids[|ids| - 1], shard);
    }
  }

  /** A launch begins only over a shard without a launch and without an unresolved instance: none is alive. */
  lemma ClearMeansDead(l: Launcher, shard: Name)
    requires Sound(l) && !Busy(l, shard) && !(exists id :: Unresolved(l, id, shard))
    ensures Empty(l.instances, shard)
  {
    hide OneEach, Barred, Published, Fenced, Untouched;
    forall id | id in l.instances && l.instances[id].key.shard == shard ensures l.instances[id].gone {
      assert !Unresolved(l, id, shard);
    }
  }

  lemma NothingAlive(instances: map<nat, Instance>, key: Key)
    requires Empty(instances, key.shard)
    ensures Owns(instances, key, Begun)
  {
  }

  lemma LaunchBarred(l: Launcher, key: Key)
    requires Barred(l.instances, l.pending) && !Busy(l, key.shard) && Empty(l.instances, key.shard)
    ensures Barred(l.instances, l.pending[key := Pending(Begun, false, 1)])
  {
    hide Owns, Empty;
    NothingAlive(l.instances, key);
    assert forall other | other in l.pending :: other.shard != key.shard;
  }

  lemma LaunchFenced(l: Launcher, key: Key)
    requires Fenced(l.pending, l.latest, l.retired) && !Busy(l, key.shard)
    requires Mark(l.retired, key.shard) < key.generation && Mark(l.latest, key.shard) <= key.generation
    ensures Fenced(l.pending[key := Pending(Begun, false, 1)], Raise(l.latest, key.shard, key.generation), l.retired)
  {
    assert forall other | other in l.pending :: other.shard != key.shard;
  }

  lemma LaunchWatched(l: Launcher, key: Key)
    requires Watched(l.instances, l.pending) && Untouched(l.instances, l.pending, l.closed) && !Busy(l, key.shard)
    ensures var pending := l.pending[key := Pending(Begun, false, 1)];
            Watched(l.instances, pending) && Untouched(l.instances, pending, l.closed)
  {
    assert key !in l.pending;
  }

  lemma LaunchKeeps(l: Launcher, key: Key, identity: Name)
    requires Sound(l) && Admissible(l, key, identity) && !Busy(l, key.shard) && Empty(l.instances, key.shard)
    ensures Sound(Launch(l, key, identity))
  {
    hide OneEach, Published, Forget, Owns, Empty, Barred, Watched, Untouched, Fenced, Busy, Raise;
    LaunchBarred(l, key);
    LaunchFenced(l, key);
    LaunchWatched(l, key);
  }

  lemma EnsureKeeps(l: Launcher, key: Key, identity: Name, ids: seq<nat>)
    requires Sound(l)
    ensures Sound(Ensure(l, key, identity, ids))
  {
    hide Sound, RetireAll, Launch, Available;
    if Admissible(l, key, identity) {
      if key in l.pending {
        PendingKeeps(l, key, Join(l.pending[key]));
      } else if !Busy(l, key.shard) {
        if exists id :: Unresolved(l, id, key.shard) {
          RetireAllKeeps(l, ids, key.shard);
        } else {
          ClearMeansDead(l, key.shard);
          LaunchKeeps(l, key, identity);
        }
      }
    }
  }

  lemma CloseKeeps(l: Launcher)
    requires Sound(l)
    ensures Sound(l.(closed := true))
  {
  }

  lemma NextSound(l: Launcher, step: Step)
    requires Sound(l)
    ensures Sound(Next(l, step))
  {
    hide Sound, Ensure, RetiredBy, CurrentWithout, Publish, Spawn, Track;
    match step
    case EnsureStep(key, identity, ids) => EnsureKeeps(l, key, identity, ids);
    case GiveUpStep(key) => if key in l.pending { PendingKeeps(l, key, GiveUp(l.pending[key])); }
    case SpawnStep(key) => if InPhase(l, key, Begun) { SpawnKeeps(l, key); }
    case TrackStep(key, id) => if InPhase(l, key, Spawned(id)) && id in l.instances { TrackKeeps(l, key, id); }
    case FailStep(key, id) => if InPhase(l, key, Tracked(id)) { FailKeeps(l, key, id); }
    case PublishStep(key, id) => if Publishable(l, key, id) { PublishKeeps(l, key, id); }
    case EndStep(key) => if Over(l, key) { EndKeeps(l, key); }
    case ExitStep(id) =>
      if id in l.instances {
        RetireKeepsFence(l, id);
        MarkKeeps(l, id, Exited(l.instances[id]), RetiredBy(l, id));
      }
    case GoneStep(id) => if Ending(l, id) { GoneKeeps(l, id); }
    case StopStep(id) =>
      if id in l.instances && l.instances[id].handed {
        RetireKeepsFence(l, id);
        MarkKeeps(l, id, AskedToStop(l.instances[id]), RetiredBy(l, id));
      }
    case CloseStep => CloseKeeps(l);
  }

  lemma {:induction false} RunSound(l: Launcher, steps: seq<Step>)
    requires Sound(l)
    ensures Sound(Run(l, steps))
  {
    hide Sound, Next;
    if steps != [] {
      RunSound(l, steps[..|steps| - 1]);
      NextSound(Run(l, steps[..|steps| - 1]), steps[|steps| - 1]);
    }
  }

  // ----- what the invariant means -----

  /** In every reachable state a shard has at most one process that is not known to be gone. */
  lemma OneProcessPerShard(capacity: nat, steps: seq<Step>, id: nat, other: nat, shard: Name)
    requires var l := Run(Begin(capacity), steps); Alive(l.instances, id, shard) && Alive(l.instances, other, shard)
    ensures id == other
  {
    hide Run, Begin, Watched, Barred, Published, Fenced, Untouched;
    BeginSound(capacity);
    RunSound(Begin(capacity), steps);
  }

  /** The launch of a registered process finds no other instance published for its shard. */
  lemma CurrentIsMine(l: Launcher, key: Key, id: nat)
    requires Sound(l) && InPhase(l, key, Tracked(id))
    ensures key.shard in l.current ==> l.current[key.shard] == id
  {
    hide OneEach, Watched, Fenced, Untouched;
    PendingOwns(l, key);
  }

  /** Over every run a launch that comes to publish its process has no older one to stop. */
  lemma NothingToReplace(capacity: nat, steps: seq<Step>, key: Key, id: nat)
    requires InPhase(Run(Begin(capacity), steps), key, Tracked(id))
    ensures var l := Run(Begin(capacity), steps); key.shard in l.current ==> l.current[key.shard] == id
  {
    hide Run, Begin, Sound;
    BeginSound(capacity);
    RunSound(Begin(capacity), steps);
    CurrentIsMine(Run(Begin(capacity), steps), key, id);
  }

  // ----- generations only move forward -----

  /** The generation of this shard cannot be asked for any more. */
  predicate Past(l: Launcher, key: Key) {
    key.generation <= Mark(l.retired, key.shard) || key.generation < Mark(l.latest, key.shard)
  }

  ghost predicate Later(before: map<Name, nat>, after: map<Name, nat>) {
    forall shard :: Mark(before, shard) <= Mark(after, shard)
  }

  lemma RaiseLater(marks: map<Name, nat>, shard: Name, generation: nat)
    ensures Later(marks, Raise(marks, shard, generation)) && Mark(Raise(marks, shard, generation), shard) >= generation
  {
  }

  lemma {:induction false} RetireAllLater(l: Launcher, ids: seq<nat>, shard: Name)
    ensures var n := RetireAll(l, ids, shard);
            Later(l.retired, n.retired) && n.latest == l.latest && n.starts == l.starts
  {
    if ids != [] {
      var before := RetireAll(l, ids[..|ids| - 1], shard);
      var id := ids[|ids| - 1];
      RetireAllLater(l, ids[..|ids| - 1], shard);
      if Unresolved(before, id, shard) {
        RaiseLater(before.retired, shard, before.instances[id].key.generation);
      }
    }
  }

  /** Exactly the unresolved instances are asked to stop, and their generations are past. */
  lemma {:induction false} RetireAsks(l: Launcher, ids: seq<nat>, id: nat, shard: Name)
    ensures var n := RetireAll(l, ids, shard);
            && n.instances.Keys == l.instances.Keys && n.pending == l.pending
            && (Unresolved(n, id, shard) <==> Unresolved(l, id, shard))
            && (id in l.instances ==>
                  n.instances[id] == if id in ids && Unresolved(l, id, shard) then AskedToStop(l.instances[id])
                                     else l.instances[id])
            && (id in ids && Unresolved(l, id, shard) ==>
                  l.instances[id].key.generation <= Mark(n.retired, shard))
  {
    if ids != [] {
      var before, last := RetireAll(l, ids[..|ids| - 1], shard), ids[|ids| - 1];
      RetireAsks(l, ids[..|ids| - 1], id, shard);
      assert ids == ids[..|ids| - 1] + [last];
      if Unresolved(before, last, shard) {
        RaiseLater(before.retired, shard, before.instances[last].key.generation);
      }
    }
  }

  /** In every reachable state an Ensure for a later generation, on a shard with an unresolved instance and
      no launch under way, asks that instance to stop and retires its generation before anything starts. */
  lemma EnsureStopsTheOlder(capacity: nat, steps: seq<Step>, key: Key, identity: Name, ids: seq<nat>, id: nat)
    requires var l := Run(Begin(capacity), steps);
             && Admissible(l, key, identity) && (forall i | i in l.instances :: i in ids) && !Busy(l, key.shard)
             && Unresolved(l, id, key.shard) && l.instances[id].key.generation < key.generation
    ensures var l := Run(Begin(capacity), steps);
            var n := Ensure(l, key, identity, ids);
            && n.pending == l.pending && id in n.instances && n.instances[id] == AskedToStop(l.instances[id])
            && Past(n, l.instances[id].key)
  {
    hide Run, Begin, RetireAll, Watched, Barred, Fenced, Untouched, Mark, Join, Launch;
    var l := Run(Begin(capacity), steps);
    BeginSound(capacity);
    RunSound(Begin(capacity), steps);
    assert key !in l.pending;
    assert !Available(l, key);
    RetireAsks(l, ids, id, key.shard);
  }

  lemma RetiredByLater(l: Launcher, id: nat)
    requires id in l.instances
    ensures Later(l.retired, RetiredBy(l, id))
  {
    RaiseLater(l.retired, l.instances[id].key.shard, l.instances[id].key.generation);
  }

  lemma LaunchLater(l: Launcher, key: Key, identity: Name)
    ensures var n := Launch(l, key, identity);
            n.retired == l.retired && Later(l.latest, n.latest) && n.starts == l.starts
  {
    hide Raise, Later, Forget;
    RaiseLater(l.latest, key.shard, key.generation);
  }

  lemma EnsureLater(l: Launcher, key: Key, identity: Name, ids: seq<nat>)
    ensures var n := Ensure(l, key, identity, ids);
            Later(l.retired, n.retired) && Later(l.latest, n.latest) && n.starts == l.starts
  {
    hide Raise, Later, RetireAll, Admissible, Available, Busy, Unresolved, Join, Launch;
    RetireAllLater(l, ids, key.shard);
    LaunchLater(l, key, identity);
    NotEarlier(l.latest);
    NotEarlier(l.retired);
  }

  lemma NotEarlier(marks: map<Name, nat>)
    ensures Later(marks, marks)
  {
  }

  /** What a step adds to the starts: the key it starts, if it is a start. */
  ghost function StartedBy(l: Launcher, step: Step): seq<Key> {
    if step.SpawnStep? && InPhase(l, step.key, Begun) then [step.key] else []
  }

  lemma NextLater(l: Launcher, step: Step)
    ensures var n := Next(l, step);
            Later(l.retired, n.retired) && Later(l.latest, n.latest) && n.starts == l.starts + StartedBy(l, step)
  {
    hide Later, Ensure, RetiredBy, CurrentWithout, Publishable, Over, Ending;
    NotEarlier(l.retired);
    NotEarlier(l.latest);
    match step
    case EnsureStep(key, identity, ids) => EnsureLater(l, key, identity, ids);
    case ExitStep(id) => if id in l.instances { RetiredByLater(l, id); }
    case StopStep(id) => if id in l.instances { RetiredByLater(l, id); }
    case GiveUpStep(_) =>
    case SpawnStep(_) =>
    case TrackStep(_, _) =>
    case FailStep(_, _) =>
    case PublishStep(_, _) =>
    case EndStep(_) =>
    case GoneStep(_) =>
    case CloseStep =>
  }

  /** A start is of the latest generation of its shard, and of one that has not been retired. */
  lemma StartsAreCurrent(l: Launcher, step: Step, key: Key)
    requires Sound(l) && StartedBy(l, step) == [key]
    ensures Mark(l.latest, key.shard) == key.generation && Mark(l.retired, key.shard) < key.generation
  {
    hide OneEach, Watched, Barred, Published, Untouched, Mark;
  }

  /** Once a generation has been retired or superseded, no later step of any run starts a process of it. */
  lemma {:induction false} PastNeverStarts(l: Launcher, steps: seq<Step>, key: Key)
    requires Sound(l) && Past(l, key)
    ensures Past(Run(l, steps), key) && multiset(Run(l, steps).starts)[key] == multiset(l.starts)[key]
  {
    hide Sound, Next, Mark;
    if steps != [] {
      var before, step := Run(l, steps[..|steps| - 1]), steps[|steps| - 1];
      PastNeverStarts(l, steps[..|steps| - 1], key);
      RunSound(l, steps[..|steps| - 1]);
      NextLater(before, step);
      if StartedBy(before, step) == [key] {
        StartsAreCurrent(before, step, key);
        assert false;
      }
    }
  }

  /** The starts of a shard are in the order of their generations. */
  ghost predicate InOrder(starts: seq<Key>, latest: map<Name, nat>) {
    && (forall i, j | 0 <= i < j < |starts| && starts[i].shard == starts[j].shard ::
        starts[i].generation <= starts[j].generation)
    && (forall i | 0 <= i < |starts| :: starts[i].generation <= Mark(latest, starts[i].shard))
  }

  lemma {:induction false} StartsInOrder(capacity: nat, steps: seq<Step>)
    ensures var l := Run(Begin(capacity), steps); InOrder(l.starts, l.latest)
  {
    hide Sound, Next, Mark;
    if steps != [] {
      var before, step := Run(Begin(capacity), steps[..|steps| - 1]), steps[|steps| - 1];
      StartsInOrder(capacity, steps[..|steps| - 1]);
      BeginSound(capacity);
      RunSound(Begin(capacity), steps[..|steps| - 1]);
      NextLater(before, step);
      if StartedBy(before, step) != [] {
        StartsAreCurrent(before, step, step.key);
      }
    }
  }
}
