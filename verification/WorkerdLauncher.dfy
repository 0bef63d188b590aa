/** The process launcher itself: pending launches, instances and generation marks
    change in place, one method per stretch of code under its mutex. Each method is
    the matching step of ShardLauncher and keeps its invariant. */
module WorkerdLauncher {
  import opened Common
  import opened ShardLauncher

  datatype Refusal = Closed | InvalidRequest | HistoryCapacity | StaleGeneration | LaunchConflict

  /** What one pass of Ensure comes to. */
  datatype Verdict = Refused(why: Refusal) | Shares | Hands(instance: nat) | AwaitsLaunch
    | AwaitsStops(instances: set<nat>) | Launches

  /** These are the shard's unresolved instances, and each has now been asked to stop. */
  ghost predicate StopsOf(before: ShardLauncher.Launcher, after: ShardLauncher.Launcher, shard: Name, ids: set<nat>) {
    && ids != {} && (forall id :: id in ids <==> Unresolved(before, id, shard))
    && (forall id | id in ids :: id in after.instances && after.instances[id].stopRequested)
  }

  class Launcher {
    const capacity: nat
    var closed: bool
    var pending: map<Key, Pending>
    var instances: map<nat, Instance>
    var current: map<Name, nat>
    var latest: map<Name, nat>
    var retired: map<Name, nat>
    var identities: map<Key, Name>
    var next: nat
    ghost var starts: seq<Key>

    ghost function View(): ShardLauncher.Launcher
      reads this
    {
      ShardLauncher.Launcher.Launcher(closed, capacity, pending, instances, current, latest, retired, identities, next,
                                      starts)
    }

    ghost predicate Valid()
      reads this
    {
      Sound(View())
    }

    constructor (capacity: nat)
      ensures Valid() && View() == Begin(capacity)
    {
      this.capacity := capacity;
      closed, pending, instances, current := false, map[], map[], map[];
      latest, retired, identities, next, starts := map[], map[], map[], 0, [];
      new;
      hide Sound;
      BeginSound(capacity);
    }

    // ----- Ensure -----

    /** Whether some launch of the shard is under way. */
    method FindPending(shard: Name) returns (found: bool)
      ensures found <==> Busy(View(), shard)
    {
      found := false;
      var todo := pending.Keys;
      while todo != {} && !found
        invariant todo <= pending.Keys
        invariant found ==> Busy(View(), shard)
        invariant !found ==> forall key | key in pending.Keys - todo :: key.shard != shard
        decreases |todo|
      {
        var key :| key in todo;
        found := key.shard == shard;
        todo := todo - {key};
      }
    }

    /** Asks every unresolved instance of the shard to stop and retires its generation. */
    method RetireInstances(shard: Name) returns (stopping: set<nat>, ghost ids: seq<nat>)
      modifies this`instances, this`retired
      ensures View() == RetireAll(old(View()), ids, shard) && (forall id | id in old(instances) :: id in ids)
      ensures forall id :: id in stopping <==> Unresolved(old(View()), id, shard)
      ensures forall id | id in stopping :: id in instances && instances[id].stopRequested
    {
      hide RetireAll, RetireOne, Unresolved;
      ghost var l := View();
      stopping, ids := {}, [];
      RetireNothing(l, shard);
      var todo := instances.Keys;
      while todo != {}
        invariant todo <= l.instances.Keys && View() == RetireAll(l, ids, shard)
        invariant forall id | id in l.instances :: id in todo || id in ids
        invariant forall id :: id in stopping <==> id in l.instances.Keys - todo && Unresolved(l, id, shard)
        decreases |todo|
      {
        var id :| id in todo;
        RetireNext(l, ids, id, shard);
        RetireAsks(l, ids, id, shard);
        var waits := RetireInstance(id, shard);
        if waits {
          stopping := stopping + {id};
        }
        ids := ids + [id];
        todo := todo - {id};
      }
      UnresolvedIsKnown(l, shard);
      forall id | id in stopping ensures id in instances && instances[id].stopRequested {
        RetireAsks(l, ids, id, shard);
      }
    }

    method RetireInstance(id: nat, shard: Name) returns (waits: bool)
      requires id in instances
      modifies this`instances, this`retired
      ensures View() == RetireOne(old(View()), id, shard) && waits == Unresolved(old(View()), id, shard)
    {
      var instance := instances[id];
      if !instance.tracked || instance.key.shard != shard || instance.gone {
        return false;
      }
      instances := instances[id := AskedToStop(instance)];
      if Mark(retired, shard) < instance.key.generation {
        retired := retired[shard := instance.key.generation];
      }
      return true;
    }

    /** The request is refused whatever the state of its shard. */
    method Screen(key: Key, identity: Name) returns (refused: bool, why: Refusal)
      ensures refused <==> !Admissible(View(), key, identity)
    {
      if closed {
        return true, Closed;
      }
      if key.generation == 0 {
        return true, InvalidRequest;
      }
      if key.shard !in latest && |latest| >= capacity {
        return true, HistoryCapacity;
      }
      if key.generation <= Mark(retired, key.shard) || key.generation < Mark(latest, key.shard) {
        return true, StaleGeneration;
      }
      return key in identities && identities[key] != identity, LaunchConflict;
    }

    method Launch(key: Key, identity: Name)
      modifies this`latest, this`identities, this`pending
      ensures View() == ShardLauncher.Launch(old(View()), key, identity)
    {
      hide Forget;
      var newer := Mark(latest, key.shard) < key.generation;
      identities := Forget(identities, key, newer)[key := identity];
      if newer {
        latest := latest[key.shard := key.generation];
      }
      pending := pending[key := Pending(Begun, false, 1)];
    }

    /** One pass of Ensure under the mutex. */
    method Ensure(key: Key, identity: Name) returns (verdict: Verdict, ghost ids: seq<nat>)
      requires Valid()
      modifies this
      ensures Valid() && View() == ShardLauncher.Ensure(old(View()), key, identity, ids)
      ensures verdict.Refused? || verdict.Hands? || verdict.AwaitsLaunch? ==> View() == old(View())
      ensures verdict.Shares? ==> key in old(pending) && !old(pending)[key].abandoned
      ensures verdict.AwaitsLaunch? ==> Busy(View(), key.shard)
      ensures verdict.AwaitsStops? ==> StopsOf(old(View()), View(), key.shard, verdict.instances)
      ensures verdict.Hands? ==> Alive(instances, verdict.instance, key.shard) && instances[verdict.instance].key == key
      ensures verdict.Launches?
              ==> InPhase(View(), key, Begun) && Empty(instances, key.shard) && !Busy(old(View()), key.shard)
    {
      hide Sound, Admissible, RetireAll, ShardLauncher.Launch, Unresolved, Busy, Empty;
      ghost var l := View();
      ids := Enumerated(l.instances.Keys);
      var refused, why := Screen(key, identity);
      if refused {
        EnsureRefuses(l, key, identity, ids);
        return Refused(why), ids;
      }
      if key in pending {
        PendingKeeps(l, key, Join(pending[key]));
        if pending[key].abandoned {
          assert pending == pending[key := pending[key]];
          PendingIsBusy(l, key);
          return AwaitsLaunch, ids;
        }
        pending := pending[key := Join(pending[key])];
        return Shares, ids;
      }
      if key.shard in current && current[key.shard] in instances && instances[current[key.shard]].key == key {
        var instance := instances[current[key.shard]];
        if !instance.exited && !instance.gone && !instance.stopRequested {
          return Hands(current[key.shard]), ids;
        }
      }
      verdict, ids := Replace(key, identity);
    }

    /** No instance of this generation can be handed out: wait, stop what is in the way, or launch. */
    method Replace(key: Key, identity: Name) returns (verdict: Verdict, ghost ids: seq<nat>)
      requires Valid() && Admissible(View(), key, identity) && key !in pending && !Available(View(), key)
      modifies this
      ensures Valid() && View() == ShardLauncher.Ensure(old(View()), key, identity, ids)
      ensures verdict.Refused? || verdict.AwaitsLaunch? ==> View() == old(View())
      ensures verdict.AwaitsLaunch? ==> Busy(View(), key.shard)
      ensures verdict.AwaitsStops? ==> StopsOf(old(View()), View(), key.shard, verdict.instances)
      ensures verdict.Launches?
              ==> InPhase(View(), key, Begun) && Empty(instances, key.shard) && !Busy(old(View()), key.shard)
      ensures !verdict.Hands? && !verdict.Shares?
    {
      hide Sound, Admissible, Available, RetireAll, ShardLauncher.Launch, Unresolved, Busy, Empty;
      ghost var l := View();
      ids := Enumerated(l.instances.Keys);
      EnsureKeeps(l, key, identity, ids);
      var busy := FindPending(key.shard);
      if busy {
        return AwaitsLaunch, ids;
      }
      var stopping;
      stopping, ids := RetireInstances(key.shard);
      EnsureKeeps(l, key, identity, ids);
      if stopping != {} {
        return AwaitsStops(stopping), ids;
      }
      NothingRetired(l, ids, key.shard);
      ClearMeansDead(l, key.shard);
      if |pending| >= capacity {
        return Refused(HistoryCapacity), ids;
      }
      LaunchBegins(l, key, identity);
      Launch(key, identity);
      return Launches, ids;
    }

    /** A waiter gives up. */
    method Abandon(key: Key)
      requires Valid() && key in pending
      modifies this`pending
      ensures Valid() && View() == Next(old(View()), GiveUpStep(key))
    {
      hide Sound;
      NextSound(View(), GiveUpStep(key));
      if !pending[key].abandoned {
        var waiters := pending[key].waiters - 1;
        pending := pending[key := pending[key].(waiters := waiters, abandoned := waiters == 0)];
      }
    }

    // ----- runLaunch -----

    method Start(key: Key) returns (id: nat)
      requires Valid() && InPhase(View(), key, Begun)
      modifies this`instances, this`next, this`pending, this`starts
      ensures Valid() && View() == Next(old(View()), SpawnStep(key))
      ensures forall other | Alive(instances, other, key.shard) :: other == id
    {
      hide Sound;
      ghost var l := View();
      NextSound(l, SpawnStep(key));
      id := next;
      instances := instances[id := Instance(key, false, false, false, false, false)];
      next := next + 1;
      pending := pending[key := WithPhase(pending[key], Spawned(id))];
      starts := starts + [key];
      StartsAlone(l, key);
    }

    method Register(key: Key, id: nat)
      requires Valid() && InPhase(View(), key, Spawned(id)) && id in instances
      modifies this`instances, this`pending
      ensures Valid() && View() == Next(old(View()), TrackStep(key, id))
    {
      hide Sound;
      NextSound(View(), TrackStep(key, id));
      instances := instances[id := Registered(instances[id])];
      pending := pending[key := WithPhase(pending[key], Tracked(id))];
    }

    /** The launch has failed its readiness or a later check, and stops its process. */
    method GiveUpProcess(key: Key, id: nat)
      requires Valid() && InPhase(View(), key, Tracked(id)) && id in instances && !instances[id].handed
      modifies this`pending
      ensures Valid() && View() == Next(old(View()), FailStep(key, id))
    {
      hide Sound;
      NextSound(View(), FailStep(key, id));
      pending := pending[key := WithPhase(pending[key], Failing(id))];
    }

    /** The last check of a launch; on success its process is the shard's current one. */
    method Publish(key: Key, id: nat) returns (published: bool)
      requires Valid() && InPhase(View(), key, Tracked(id)) && id in instances && !instances[id].handed
      modifies this
      ensures Valid() && View() == if published then Next(old(View()), PublishStep(key, id))
              else Next(old(View()), FailStep(key, id))
      ensures published ==> Available(View(), key)
    {
      hide Sound;
      NextSound(View(), PublishStep(key, id));
      if pending[key].abandoned || Mark(latest, key.shard) != key.generation || closed || instances[id].exited {
        GiveUpProcess(key, id);
        return false;
      }
      CurrentIsMine(View(), key, id);
      PublishesLive(View(), key, id);
      instances := instances[id := HandedOut(instances[id])];
      current := current[key.shard := id];
      return true;
    }

    method End(key: Key)
      requires Valid() && Over(View(), key)
      modifies this`pending
      ensures Valid() && View() == Next(old(View()), EndStep(key))
    {
      hide Sound, Over;
      NextSound(View(), EndStep(key));
      pending := pending - {key};
    }

    // ----- process events -----

    method RetireCurrent(id: nat)
      requires id in instances
      modifies this`retired
      ensures retired == RetiredBy(old(View()), id)
    {
      var key := instances[id].key;
      if key.shard in current && current[key.shard] == id && Mark(retired, key.shard) < key.generation {
        retired := retired[key.shard := key.generation];
      }
    }

    /** Process.Wait returned. */
    method Exit(id: nat)
      requires Valid() && id in instances
      modifies this`instances, this`retired
      ensures Valid() && View() == Next(old(View()), ExitStep(id))
    {
      hide Sound, RetiredBy;
      NextSound(View(), ExitStep(id));
      RetireCurrent(id);
      instances := instances[id := Exited(instances[id])];
    }

    /** A stop has found the process group gone. */
    method GroupGone(id: nat)
      requires Valid() && Ending(View(), id)
      modifies this`instances, this`current
      ensures Valid() && View() == Next(old(View()), GoneStep(id))
    {
      hide Sound, Ending;
      NextSound(View(), GoneStep(id));
      EndingIsKnown(View(), id);
      var shard := instances[id].key.shard;
      instances := instances[id := Gone(instances[id])];
      if shard in current && current[shard] == id {
        current := current - {shard};
      }
    }

    /** A handle asks its own instance to stop. */
    method Stop(id: nat)
      requires Valid() && id in instances && instances[id].handed && !instances[id].gone
      modifies this`instances, this`retired
      ensures Valid() && View() == Next(old(View()), StopStep(id))
    {
      hide Sound, RetiredBy;
      NextSound(View(), StopStep(id));
      RetireCurrent(id);
      instances := instances[id := AskedToStop(instances[id])];
    }

    method Close()
      requires Valid()
      modifies this`closed
      ensures Valid() && View() == Next(old(View()), CloseStep)
    {
      hide Sound;
      NextSound(View(), CloseStep);
      closed := true;
    }
  }

  /** Some order of a finite set. */
  ghost function Enumerated(ids: set<nat>): (s: seq<nat>)
    ensures forall id | id in ids :: id in s
  {
    if ids == {} then [] else
    var id :| id in ids;
    [id] + Enumerated(ids - {id})
  }

  lemma RetireNothing(l: ShardLauncher.Launcher, shard: Name)
    ensures RetireAll(l, [], shard) == l
  {
  }

  lemma RetireNext(l: ShardLauncher.Launcher, ids: seq<nat>, id: nat, shard: Name)
    ensures RetireAll(l, ids + [id], shard) == RetireOne(RetireAll(l, ids, shard), id, shard)
  {
    hide RetireOne;
    assert (ids + [id])[..|ids|] == ids;
  }

  lemma PendingIsBusy(l: ShardLauncher.Launcher, key: Key)
    requires key in l.pending
    ensures Busy(l, key.shard)
  {
  }

  lemma UnresolvedIsKnown(l: ShardLauncher.Launcher, shard: Name)
    ensures forall id | Unresolved(l, id, shard) :: id in l.instances
  {
  }

  lemma {:induction false} NothingRetired(l: ShardLauncher.Launcher, ids: seq<nat>, shard: Name)
    requires !(exists id :: Unresolved(l, id, shard))
    ensures RetireAll(l, ids, shard) == l
  {
    if ids != [] {
      NothingRetired(l, ids[..|ids| - 1], shard);
      assert !Unresolved(l, ids[|ids| - 1], shard);
    }
  }

  lemma EnsureRefuses(l: ShardLauncher.Launcher, key: Key, identity: Name, ids: seq<nat>)
    requires !Admissible(l, key, identity)
    ensures ShardLauncher.Ensure(l, key, identity, ids) == l
  {
    hide RetireAll, ShardLauncher.Launch;
  }

  lemma LaunchBegins(l: ShardLauncher.Launcher, key: Key, identity: Name)
    ensures var n := ShardLauncher.Launch(l, key, identity); InPhase(n, key, Begun) && n.instances == l.instances
  {
    hide Forget;
  }

  /** The process of a launch that has just begun is the only live one of its shard. */
  lemma StartsAlone(l: ShardLauncher.Launcher, key: Key)
    requires Sound(l) && InPhase(l, key, Begun)
    ensures forall other | Alive(Spawn(l, key).instances, other, key.shard) :: other == l.next
  {
    hide OneEach, Watched, Fenced, Published, Untouched;
    PendingOwns(l, key);
  }

  lemma PublishesLive(l: ShardLauncher.Launcher, key: Key, id: nat)
    requires Sound(l) && Publishable(l, key, id)
    ensures !l.instances[id].gone && !l.instances[id].stopRequested && l.instances[id].key == key
  {
    hide OneEach, Watched, Fenced, Published;
    PendingOwns(l, key);
  }

  lemma EndingIsKnown(l: ShardLauncher.Launcher, id: nat)
    requires Ending(l, id)
    ensures id in l.instances
  {
  }
}
