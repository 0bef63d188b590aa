/** The two critical sections of Shutdown in every reachable state: closing sends exactly the finished launches to
    the ledger, draining exactly the live processes, and from then on Shutdown waits for every stop there is. */
module AgentShutdown {
  import opened Common
  import opened AgentManager
  import opened AgentOwnership
  import Safety = AgentSafety

  // ----- closing -----

  lemma TransferOne(m: Manager, last: nat)
    requires Barred(m, last)
    ensures var n := Transfer(m, last);
            && n.launches == m.launches[last := GiveOnce(m.launches[last], |m.epochs|)]
            && n.pendingScopes == m.pendingScopes - {m.launches[last].spec.scope}
            && n.ledger == FileOnce(m.ledger, m.launches[last], |m.epochs|)
            && n.shards == m.shards && n.placements == m.placements && n.closed == m.closed
  {
    hide SessionsWithout, TrackOnce, FileOnce, GiveOnce;
    GivenKeepsSpec(m.launches[last], |m.epochs|);
  }

  lemma GivenKeepsSpec(launch: Launch, epoch: nat)
    ensures GiveOnce(launch, epoch).spec == launch.spec && GiveOnce(launch, epoch).phase == launch.phase
            && GiveOnce(launch, epoch).adopted == launch.adopted
  {
  }

  /** What the transfers have made of one launch and of its scope's barrier. */
  predicate Sent(m: Manager, n: Manager, g: nat, sent: bool) {
    && g in m.launches && g in n.launches
    && var scope := m.launches[g].spec.scope;
       if sent && Barred(m, g)
       then scope !in n.pendingScopes && (m.launches[g].cleanup.Kept? ==> KeyOf(m.launches[g].spec) in n.ledger)
       else && n.launches[g] == m.launches[g]
            && (scope in m.pendingScopes && m.pendingScopes[scope] == g
                <==> scope in n.pendingScopes && n.pendingScopes[scope] == g)
  }

  lemma FiledKeeps(ledger: map<Key, nat>, launch: Launch, epoch: nat)
    ensures ledger.Keys <= FileOnce(ledger, launch, epoch).Keys
    ensures launch.cleanup.Kept? ==> KeyOf(launch.spec) in FileOnce(ledger, launch, epoch)
  {
  }

  lemma {:induction false} TransferAllElsewhere(m: Manager, finished: seq<nat>)
    ensures var n := TransferAll(m, finished);
            && (forall scope | scope in n.pendingScopes ::
                  scope in m.pendingScopes && n.pendingScopes[scope] == m.pendingScopes[scope])
            && m.ledger.Keys <= n.ledger.Keys
            && n.shards == m.shards && n.placements == m.placements && n.closed == m.closed
  {
    hide Transfer, FileOnce, GiveOnce;
    if finished != [] {
      var before, last := TransferAll(m, finished[..|finished| - 1]), finished[|finished| - 1];
      TransferAllElsewhere(m, finished[..|finished| - 1]);
      if Barred(before, last) {
        TransferOne(before, last);
        FiledKeeps(before.ledger, before.launches[last], |before.epochs|);
      }
    }
  }

  lemma {:induction false} TransferAllSends(m: Manager, finished: seq<nat>, g: nat)
    requires g in m.launches
    ensures Sent(m, TransferAll(m, finished), g, g in finished)
  {
    hide Transfer, FileOnce, GiveOnce, KeyOf;
    if finished != [] {
      var front, last := finished[..|finished| - 1], finished[|finished| - 1];
      var before := TransferAll(m, front);
      TransferAllSends(m, front, g);
      assert finished == front + [last];
      if Barred(before, last) {
        TransferOne(before, last);
        FiledKeeps(before.ledger, before.launches[last], |before.epochs|);
        SentOn(m, before, Transfer(before, last), front, last, g);
      }
    }
  }

  lemma SentOn(m: Manager, before: Manager, n: Manager, front: seq<nat>, last: nat, g: nat)
    requires Sent(m, before, g, g in front) && Barred(before, last)
    requires n.launches == before.launches[last := GiveOnce(before.launches[last], |before.epochs|)]
    requires n.pendingScopes == before.pendingScopes - {before.launches[last].spec.scope}
    requires before.ledger.Keys <= n.ledger.Keys
    requires before.launches[last].cleanup.Kept? ==> KeyOf(before.launches[last].spec) in n.ledger
    ensures Sent(m, n, g, g in front || g == last)
  {
    hide GiveOnce;
    GivenKeepsSpec(before.launches[last], |before.epochs|);
  }

  /** The launch of a scope has a process to show and nobody has adopted it. */
  predicate Finished(m: Manager, scope: ScopeKey) {
    && scope in m.pendingScopes && m.pendingScopes[scope] in m.launches
    && m.launches[m.pendingScopes[scope]].phase == Ran && !m.launches[m.pendingScopes[scope]].adopted
  }

  /** In every reachable state closing fences admission, sends the process of every finished launch to the ledger and
      leaves exactly the unfinished ones to wait for; it is cleared exactly when there is none. */
  lemma CloseDecided(limits: Limits, steps: seq<Step>, finished: seq<nat>, scope: ScopeKey)
    requires var m := Run(Initial(limits), steps);
             (m.gate == Free || m.gate == Closing) && forall g | Barred(m, g) :: g in finished
    ensures var m := Run(Initial(limits), steps);
            var n := Close(m, finished);
            && n.closed && n.gate == (if n.pendingScopes == map[] then Cleared else Closing)
            && n.shards == m.shards && n.placements == m.placements && m.ledger.Keys <= n.ledger.Keys
            && (scope in n.pendingScopes <==> scope in m.pendingScopes && !Finished(m, scope))
            && (scope in n.pendingScopes ==> n.pendingScopes[scope] == m.pendingScopes[scope])
            && (Finished(m, scope) ==> KeyOf(m.launches[m.pendingScopes[scope]].spec) in n.ledger)
  {
    hide Run, Initial, Sound, TransferAll, KeyOf;
    var m := Run(Initial(limits), steps);
    Safety.RunSound(limits, steps);
    var n := TransferAll(Closed(m), finished);
    ClosedKeeps(m);
    TransferAllElsewhere(Closed(m), finished);
    Regated(n);
    if scope in m.pendingScopes {
      BarrierIsKept(m, scope);
      TransferAllSends(Closed(m), finished, m.pendingScopes[scope]);
    }
  }

  lemma ClosedKeeps(m: Manager)
    ensures var c := Closed(m);
            && c.closed && c.launches == m.launches && c.pendingScopes == m.pendingScopes && c.ledger == m.ledger
            && c.shards == m.shards && c.placements == m.placements && (forall g :: Barred(c, g) <==> Barred(m, g))
  {
  }

  lemma Regated(m: Manager)
    ensures var n := Regate(m);
            && n.gate == (if m.pendingScopes == map[] then Cleared else Closing) && n.pendingScopes == m.pendingScopes
            && n.closed == m.closed && n.shards == m.shards && n.placements == m.placements && n.ledger == m.ledger
  {
  }

  lemma BarrierIsKept(m: Manager, scope: ScopeKey)
    requires Sound(m) && scope in m.pendingScopes
    ensures var g := m.pendingScopes[scope];
            && g in m.launches && m.launches[g].spec.scope == scope
            && (Finished(m, scope) <==> Barred(m, g)) && (Barred(m, g) ==> m.launches[g].cleanup.Kept?)
  {
    hide Numbered, Phased, Filed, Chained, Traced, Housed, Waiting, Renounced, Gated, Ticketed;
  }

  // ----- draining -----

  lemma {:induction false} RetireAllFiles(m: Manager, ids: seq<Name>, id: Name)
    requires id in m.shards
    ensures var n := RetireAll(m, ids);
            && m.ledger.Keys <= n.ledger.Keys
            && (id in ids ==> KeyOf(m.shards[id].spec) in n.ledger)
            && (id !in ids ==> id in n.shards && n.shards[id] == m.shards[id])
  {
    hide KeyOf;
    if ids != [] {
      RetireAllFiles(m, ids[..|ids| - 1], id);
      assert ids == ids[..|ids| - 1] + [ids[|ids| - 1]];
    }
  }

  /** The ledger points at an epoch that is there, and the ones named have not failed retryably. */
  predicate Ready(m: Manager, key: Key) {
    key in m.ledger ==> m.ledger[key] < |m.epochs| && m.epochs[m.ledger[key]].outcome != Retryable
  }

  lemma {:induction false} RetireAllReady(m: Manager, ids: seq<Name>, key: Key)
    ensures key !in m.ledger || Ready(m, key) ==> Ready(RetireAll(m, ids), key)
  {
    hide KeyOf;
    if ids != [] {
      RetireAllReady(m, ids[..|ids| - 1], key);
    }
  }

  lemma ReselectReadies(m: Manager, last: Key, key: Key)
    requires last in m.ledger ==> m.ledger[last] < |m.epochs|
    ensures var n := Reselect(m, last);
            && (key == last || Ready(m, key) ==> Ready(n, key))
            && (key in n.ledger ==> key in m.ledger)
            && (key in m.ledger && m.ledger[key] < |m.epochs| && key in n.ledger ==> n.ledger[key] < |n.epochs|)
  {
  }

  lemma {:induction false} ReselectAllReadies(m: Manager, keys: seq<Key>, key: Key)
    requires Sound(m) && !m.gate.Draining?
    ensures key in keys || Ready(m, key) ==> Ready(ReselectAll(m, keys), key)
  {
    hide Sound, Reselect, Ready;
    if keys != [] {
      var front, last := keys[..|keys| - 1], keys[|keys| - 1];
      ReselectAllReadies(m, front, key);
      Safety.ReselectAllSound(m, front);
      FiledIsThere(ReselectAll(m, front), last);
      assert keys == front + [last];
      ReselectReadies(ReselectAll(m, front), last, key);
    }
  }

  lemma FiledIsThere(m: Manager, key: Key)
    requires Sound(m)
    ensures key in m.ledger ==> m.ledger[key] < |m.epochs|
  {
    hide Numbered, Phased, Housed, Owned, Chained, Traced, Callers, Gated;
  }

  /** In every reachable state draining leaves no live process and no placement, has every process that was live or
      being stopped in the ledger with a stop that may still succeed or has failed for good, and makes Shutdown wait
      for all of them. */
  lemma DrainDecided(limits: Limits, steps: seq<Step>, ids: seq<Name>, keys: seq<Key>, id: Name, key: Key)
    requires var m := Run(Initial(limits), steps);
             && m.gate == Cleared && (forall i | i in m.shards :: i in ids) && (forall k | k in m.ledger :: k in keys)
    ensures var m := Run(Initial(limits), steps);
            var n := Drain(m, ids, keys);
            && n.shards == map[] && n.placements == map[] && n.gate == Draining(n.ledger.Values)
            && m.ledger.Keys <= n.ledger.Keys && (id in m.shards ==> KeyOf(m.shards[id].spec) in n.ledger)
            && Ready(n, key)
  {
    hide Run, Initial, Sound, RetireAll, ReselectAll, Ready, KeyOf;
    var m := Run(Initial(limits), steps);
    Safety.RunSound(limits, steps);
    Safety.RetireAllSound(m, ids);
    var retired := RetireAll(m, ids);
    Safety.ReselectAllSound(retired, keys);
    if id in m.shards {
      RetireAllFiles(m, ids, id);
    }
    assert retired.shards == map[];
    RetireAllReady(m, ids, key);
    NotFiledIsReady(m, key);
    ReselectAllReadies(retired, keys, key);
    DrainedAt(ReselectAll(retired, keys), key);
  }

  lemma NotFiledIsReady(m: Manager, key: Key)
    ensures key !in m.ledger ==> Ready(m, key)
  {
  }

  lemma DrainedAt(taken: Manager, key: Key)
    ensures var n := taken.(placements := map[], gate := Draining(taken.ledger.Values));
            && n.shards == taken.shards && n.ledger == taken.ledger && (Ready(n, key) <==> Ready(taken, key))
  {
  }

  // ----- a stop -----

  lemma RunOne(limits: Limits, before: seq<Step>, step: Step)
    ensures Run(Initial(limits), before + [step]) == Next(Run(Initial(limits), before), step)
  {
    hide Next, Initial;
    assert (before + [step])[..|before|] == before;
  }

  /** From every reachable state a stop that is still open, is started and returns without an error takes its process
      out of the ledger, and nothing else. */
  lemma StopCompletes(limits: Limits, before: seq<Step>, key: Key)
    requires var m := Run(Initial(limits), before);
             key in m.ledger && m.ledger[key] < |m.epochs| && m.epochs[m.ledger[key]].outcome == Unresolved
    ensures var m := Run(Initial(limits), before);
            var e := m.ledger[key];
            var n := Run(Initial(limits), before + [StartStopStep(e)] + [StopReturnsStep(e, Stopped)]);
            && n == m.(epochs := n.epochs, ledger := m.ledger - {key}, gone := m.gone + {key.generation})
            && n.epochs == m.epochs[e := Epoch(m.epochs[e].spec, true, Stopped)]
  {
    hide Run, Initial, Sound;
    var m := Run(Initial(limits), before);
    var e := m.ledger[key];
    Safety.RunSound(limits, before);
    FiledUnderItsKey(m, key);
    RunOne(limits, before, StartStopStep(e));
    RunOne(limits, before + [StartStopStep(e)], StopReturnsStep(e, Stopped));
    StopRuns(m, key);
  }

  lemma FiledUnderItsKey(m: Manager, key: Key)
    requires Sound(m) && key in m.ledger && m.ledger[key] < |m.epochs|
    ensures KeyOf(m.epochs[m.ledger[key]].spec) == key
  {
    hide Numbered, Phased, Housed, Owned, Chained, Traced, Callers, Gated;
  }

  lemma StopRuns(m: Manager, key: Key)
    requires key in m.ledger && m.ledger[key] < |m.epochs| && m.epochs[m.ledger[key]].outcome == Unresolved
    requires KeyOf(m.epochs[m.ledger[key]].spec) == key
    ensures var e := m.ledger[key];
            var n := StopReturns(StartStop(m, e), e, Stopped);
            && n == m.(epochs := n.epochs, ledger := m.ledger - {key}, gone := m.gone + {key.generation})
            && n.epochs == m.epochs[e := Epoch(m.epochs[e].spec, true, Stopped)]
  {
    var e := m.ledger[key];
    var epoch := m.epochs[e];
    assert StartedAt(m.epochs, e) == m.epochs[e := epoch.(started := true)];
    assert m.epochs[e := epoch.(started := true)][e := Epoch(epoch.spec, true, Stopped)]
           == m.epochs[e := Epoch(epoch.spec, true, Stopped)];
  }
}
