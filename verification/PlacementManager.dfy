/** The placement manager itself: its maps and flags change in place, one method
    per stretch of code under the mutex. Each method is the matching step of
    AgentManager, and keeps the invariants the run theorems rest on. */
module PlacementManager {
  import opened Common
  import opened AgentManager
  import opened AgentOwnership
  import AgentSafety
  import AgentAdmission
  import Decisions = AgentDecisions

  datatype Refusal =
    | InvalidRequest | InvalidProfile | OverCapacity | ManagerClosed | StalePlacement | PlacementConflict |
    PlacementNotFound
    | ShardNotFound | StaleObservation | StaleSequence | Exhausted

  datatype Reply = Done | Refused(why: Refusal)

  /** What one pass of Acquire comes to: an answer, a ticket to wait with, or a wait before the next pass. */
  datatype Outcome = Rejected(why: Refusal) | Placed(placement: Placement, replayed: bool) | Waits(ticket: nat) | Retry

  ghost predicate Indexed(ledger: map<Key, nat>, epochs: seq<Epoch>) {
    forall key | key in ledger :: ledger[key] < |epochs|
  }

  ghost predicate Labelled(ledger: map<Key, nat>, epochs: seq<Epoch>) {
    forall key | key in ledger && ledger[key] < |epochs| :: KeyOf(epochs[ledger[key]].spec) == key
  }

  lemma SoundIndexed(m: AgentManager.Manager)
    requires Sound(m)
    ensures Indexed(m.ledger, m.epochs) && Labelled(m.ledger, m.epochs)
  {
    hide Callers, Gated, Numbered, Phased, Housed, Owned, Chained, Traced;
  }

  /** The process of a live shard is not in the ledger. */
  lemma LiveNotFiled(m: AgentManager.Manager, id: Name)
    requires Sound(m) && id in m.shards
    ensures KeyOf(m.shards[id].spec) !in m.ledger
  {
    hide Callers, Gated, Numbered, Phased, Filed, Chained, Traced;
  }

  /** A running process that has not been kept yet has no owner at all. */
  lemma StartingNotFiled(m: AgentManager.Manager, g: nat)
    requires Sound(m) && g in m.launches && m.launches[g].phase == Starting
    ensures KeyOf(m.launches[g].spec) !in m.ledger
  {
    hide Callers, Gated, Numbered, Filed, Chained, Traced;
  }

  class Manager {
    const limits: Limits
    var closed: bool
    var gate: Gate
    var shards: map<Name, Shard>
    var placements: map<Name, Placement>
    var latest: map<Name, nat>
    var released: map<Name, nat>
    var identities: map<Name, Fingerprint>
    var cleanups: map<Name, Released>
    var pendingSessions: map<Name, nat>
    var pendingScopes: map<ScopeKey, nat>
    var ledger: map<Key, nat>
    var retryIds: map<ScopeKey, Name>
    var nextSequence: nat
    var nextGeneration: nat
    var launches: map<nat, Launch>
    var epochs: seq<Epoch>
    var claims: map<nat, Claim>
    var nextTicket: nat
    ghost var spawned: set<nat>
    ghost var gone: set<nat>

    ghost function View(): AgentManager.Manager
      reads this
    {
      AgentManager.Manager.Manager(
        limits, closed, gate, shards, placements, latest, released, identities, cleanups, pendingSessions,
        pendingScopes,
        ledger, retryIds, nextSequence, nextGeneration, launches, epochs, claims, nextTicket, spawned, gone)
    }

    ghost predicate Valid()
      reads this
    {
      Sound(View()) && AgentAdmission.Booked(View())
    }

    constructor (limits: Limits)
      requires ValidLimits(limits)
      ensures Valid() && View() == Initial(limits)
    {
      this.limits := limits;
      closed, gate := false, Free;
      shards, placements := map[], map[];
      latest, released, identities, cleanups := map[], map[], map[], map[];
      pendingSessions, pendingScopes, ledger, retryIds := map[], map[], map[], map[];
      nextSequence, nextGeneration := 1, 1;
      launches, epochs, claims, nextTicket := map[], [], map[], 0;
      spawned, gone := {}, {};
      new;
      hide Sound, AgentAdmission.Booked;
      AgentSafety.InitialSound(limits);
      AgentAdmission.InitialBooked(limits);
    }

    // ----- the stop ledger -----

    /** Joins unresolved work, replays a terminal result, or installs a new epoch. */
    method SelectStopEpoch(spec: Spec, create: bool) returns (found: bool, epoch: nat)
      requires Indexed(ledger, epochs)
      modifies this`epochs, this`ledger
      ensures Indexed(ledger, epochs)
      ensures !create ==> View() == Reselect(old(View()), KeyOf(spec))
      ensures create && KeyOf(spec) !in old(ledger) ==> View() == AgentManager.Track(old(View()), spec)
      ensures found <==> KeyOf(spec) in ledger
      ensures found ==> epoch == ledger[KeyOf(spec)]
    {
      var key := KeyOf(spec);
      if key !in ledger {
        if !create {
          return false, 0;
        }
        epochs, ledger := epochs + [Epoch(spec, false, Unresolved)], ledger[key := |epochs|];
        return true, |epochs| - 1;
      }
      epoch := ledger[key];
      if epochs[epoch].outcome == Unresolved || epochs[epoch].outcome == Terminal {
        return true, epoch;
      }
      if epochs[epoch].outcome == Stopped {
        ledger := ledger - {key};
        if !create {
          return false, 0;
        }
      }
      epochs, ledger := epochs + [Epoch(epochs[epoch].spec, false, Unresolved)], ledger[key := |epochs|];
      return true, |epochs| - 1;
    }

    method TrackStop(spec: Spec) returns (epoch: nat)
      requires Indexed(ledger, epochs) && KeyOf(spec) !in ledger
      modifies this`epochs, this`ledger
      ensures Indexed(ledger, epochs)
      ensures View() == AgentManager.Track(old(View()), spec) && epoch == old(|epochs|)
    {
      var found;
      found, epoch := SelectStopEpoch(spec, true);
    }

    method StartStop(e: nat)
      requires Valid() && e < |epochs|
      modifies this`epochs
      ensures Valid() && View() == AgentManager.StartStop(old(View()), e)
    {
      hide Sound, AgentAdmission.Booked;
      AgentSafety.StartStopSound(View(), e);
      AgentAdmission.StopsBooked(View(), e, Unresolved);
      epochs := epochs[e := epochs[e].(started := true)];
    }

    /** Process.Stop returned. */
    method StopReturned(e: nat, outcome: StopOutcome)
      requires Valid() && e < |epochs| && epochs[e].started && epochs[e].outcome == Unresolved && outcome != Unresolved
      modifies this`epochs, this`ledger, this`gone
      ensures Valid() && View() == StopReturns(old(View()), e, outcome)
    {
      hide Sound, AgentAdmission.Booked, StopReturns;
      AgentSafety.StopReturnsSound(View(), e, outcome);
      AgentAdmission.StopsBooked(View(), e, outcome);
      Resolve(e, outcome);
    }

    method Resolve(e: nat, outcome: StopOutcome)
      requires e < |epochs| && epochs[e].started && epochs[e].outcome == Unresolved && outcome != Unresolved
      modifies this`epochs, this`ledger, this`gone
      ensures View() == StopReturns(old(View()), e, outcome)
    {
      var key := KeyOf(epochs[e].spec);
      epochs := epochs[e := epochs[e].(outcome := outcome)];
      if outcome == Stopped {
        gone := gone + {epochs[e].spec.generation};
        if key in ledger && ledger[key] == e {
          ledger := ledger - {key};
        }
      }
    }

    // ----- launch records -----

    /** The waiting sessions of a launch stop waiting for it. */
    method ForgetSessions(sessions: set<Name>, g: nat)
      modifies this`pendingSessions
      ensures pendingSessions == SessionsWithout(old(pendingSessions), sessions, g)
    {
      var todo := sessions;
      while todo != {}
        invariant todo <= sessions
        invariant pendingSessions == SessionsWithout(old(pendingSessions), sessions - todo, g)
        decreases |todo|
      {
        var session :| session in todo;
        if session in pendingSessions && pendingSessions[session] == g {
          pendingSessions := pendingSessions - {session};
        }
        todo := todo - {session};
      }
    }

    /** Releases only the launch barrier. */
    method RemovePending(g: nat)
      requires g in launches
      modifies this`pendingScopes, this`pendingSessions
      ensures View() == AgentManager.RemovePending(old(View()), g)
    {
      hide SessionsWithout;
      if launches[g].spec.scope in pendingScopes && pendingScopes[launches[g].spec.scope] == g {
        pendingScopes := pendingScopes - {launches[g].spec.scope};
      }
      ForgetSessions(launches[g].sessions, g);
    }

    /** Moves one finished, unadopted process into the ledger. */
    method Transfer(g: nat) returns (epoch: nat)
      requires g in launches && Indexed(ledger, epochs)
      requires launches[g].cleanup.Kept? ==> KeyOf(launches[g].spec) !in ledger
      modifies this`pendingScopes, this`pendingSessions, this`retryIds, this`launches, this`epochs, this`ledger
      ensures View() == AgentManager.Transfer(old(View()), g) && Indexed(ledger, epochs)
    {
      hide SessionsWithout, ScopesWithout;
      var launch := launches[g];
      launches := launches[g := Abandon(launch)];
      retryIds := retryIds[launch.spec.scope := launch.spec.shardId];
      RemovePending(g);
      if launch.cleanup.Kept? {
        epoch := TrackStop(launch.spec);
        launches := launches[g := Give(launch, epoch)];
      } else {
        epoch := launch.cleanup.epoch;
      }
    }

    /** The launch ended in an error. */
    method Fail(g: nat)
      requires g in launches
      modifies this`pendingScopes, this`pendingSessions, this`retryIds, this`launches
      ensures View() == AgentManager.Fail(old(View()), g)
    {
      hide SessionsWithout, ScopesWithout;
      launches := launches[g := InPhase(launches[g], Errored)];
      retryIds := retryIds[launches[g].spec.scope := launches[g].spec.shardId];
      RemovePending(g);
    }

    /** The process stays in its launch record. */
    method Keep(g: nat)
      requires g in launches
      modifies this`launches, this`spawned
      ensures View() == AgentManager.Keep(old(View()), g)
    {
      spawned := spawned + {g};
      launches := launches[g := InPhase(launches[g], Ran)];
    }

    /** The process is not wanted: its stop comes first. */
    method Reject(g: nat)
      requires g in launches && Indexed(ledger, epochs) && KeyOf(launches[g].spec) !in ledger
      modifies this`launches, this`spawned, this`epochs, this`ledger
      ensures View() == AgentManager.Reject(old(View()), g)
    {
      spawned := spawned + {g};
      var epoch := TrackStop(launches[g].spec);
      launches := launches[g := InPhase(launches[g], Rejecting(epoch))];
    }

    /** Launcher.Start returned. */
    method LaunchReturned(g: nat, present: bool, valid: bool)
      requires Valid() && g in launches && launches[g].phase == Starting
      modifies this
      ensures Valid() && View() == LaunchReturns(old(View()), g, present, valid)
    {
      hide Sound, AgentAdmission.Booked, AgentManager.Keep, AgentManager.Reject, AgentManager.Fail;
      AgentSafety.LaunchReturnsSound(View(), g, present, valid);
      AgentAdmission.LaunchReturnsBooked(View(), g, present, valid);
      SoundIndexed(View());
      StartingNotFiled(View(), g);
      if !present {
        Fail(g);
        return;
      }
      if valid && !closed && !launches[g].abandoned && launches[g].waiters != 0 {
        Keep(g);
      } else {
        Reject(g);
      }
    }

    /** The stop of a rejected process has been resolved. */
    method LaunchEnded(g: nat)
      requires Valid() && g in launches && launches[g].phase.Rejecting?
      requires launches[g].phase.stop < |epochs| && epochs[launches[g].phase.stop].outcome != Unresolved
      modifies this`pendingScopes, this`pendingSessions, this`retryIds, this`launches
      ensures Valid() && View() == LaunchEnds(old(View()), g)
    {
      hide Sound, AgentAdmission.Booked;
      AgentSafety.LaunchEndsSound(View(), g);
      AgentAdmission.LaunchReturnsBooked(View(), g, true, true);
      Fail(g);
    }

    // ----- waiting for a launch -----

    method PunchTicket(ticket: nat)
      requires ticket in claims && claims[ticket].launch in launches
      modifies this`launches, this`claims
      ensures View() == AgentManager.PunchTicket(old(View()), ticket)
    {
      var g := claims[ticket].launch;
      launches := launches[g := WithoutTicket(launches[g], ticket)];
      claims := claims - {ticket};
    }

    /** The last caller of an unadopted launch has been cancelled. */
    method GiveUp(g: nat)
      requires g in launches && Indexed(ledger, epochs)
      requires Holds(launches[g]) ==> KeyOf(launches[g].spec) !in ledger
      modifies this`pendingScopes, this`pendingSessions, this`retryIds, this`launches, this`epochs, this`ledger
      ensures View() == AgentManager.GiveUp(old(View()), g)
    {
      hide AgentManager.Transfer;
      if launches[g].waiters != 0 || launches[g].adopted {
        return;
      }
      if launches[g].phase == Ran {
        var _ := Transfer(g);
        return;
      }
      retryIds := retryIds[launches[g].spec.scope := launches[g].spec.shardId];
      if launches[g].phase != Errored {
        launches := launches[g := Abandon(launches[g])];
      }
    }

    /** The launch becomes a live shard with the claim's session in it. */
    method Adopt(claim: Claim)
      requires claim.launch in launches
      modifies this`shards, this`placements, this`launches, this`retryIds, this`pendingScopes, this`pendingSessions
      ensures View() == AgentManager.Adopt(old(View()), claim)
      ensures placements == old(placements)[claim.request.session :=
                                            PlacementOf(claim.request, old(launches)[claim.launch].spec.shardId)]
    {
      hide AgentManager.RemovePending;
      Admit(claim);
      RemovePending(claim.launch);
    }

    method Admit(claim: Claim)
      requires claim.launch in launches
      modifies this`shards, this`placements, this`launches, this`retryIds
      ensures View() == AgentManager.Admit(old(View()), claim)
    {
      hide PlacementOf, NewShard, Adopted, Forget;
      var launch := launches[claim.launch];
      var placement := PlacementOf(claim.request, launch.spec.shardId);
      shards := shards[launch.spec.shardId := NewShard(launch.spec, claim.request)];
      placements := placements[claim.request.session := placement];
      launches := launches[claim.launch := Adopted(launch)];
      ForgetRetry(launch.spec);
    }

    method ForgetRetry(spec: Spec)
      modifies this`retryIds
      ensures retryIds == Forget(old(retryIds), spec)
    {
      if spec.scope in retryIds && retryIds[spec.scope] == spec.shardId {
        retryIds := retryIds - {spec.scope};
      }
    }

    /** The launch is over; `adopted` when this caller has its placement from it. */
    method Conclude(claim: Claim) returns (adopted: bool)
      requires claim.launch in launches && Indexed(ledger, epochs)
      requires Holds(launches[claim.launch]) ==> KeyOf(launches[claim.launch].spec) !in ledger
      requires launches[claim.launch].phase == Ran || launches[claim.launch].phase == Errored
      modifies this`shards, this`placements, this`launches, this`retryIds, this`pendingScopes, this`pendingSessions,
      this`epochs, this`ledger
      ensures View() == Concludes(old(View()), claim)
      ensures adopted ==>
                && claim.request.session !in old(placements) && claim.request.session in placements
                && placements[claim.request.session]
                   == PlacementOf(claim.request, old(launches)[claim.launch].spec.shardId)
    {
      hide AgentManager.Transfer, AgentManager.Adopt, PlacementOf, FingerprintOf;
      var launch := launches[claim.launch];
      if launch.phase == Errored {
        return false;
      }
      if closed {
        if !launch.adopted {
          var _ := Transfer(claim.launch);
        }
        return false;
      }
      if launch.adopted {
        return false;
      }
      var session, generation := claim.request.session, claim.request.generation;
      var current := Count(latest, session) == generation && Count(released, session) != generation;
      var same := session in identities && identities[session] == FingerprintOf(claim.request);
      if current && same && launch.spec.shardId !in shards && session !in placements {
        Adopt(claim);
        return true;
      }
      if launch.waiters == 0 {
        var _ := Transfer(claim.launch);
      }
      return false;
    }

    /** A caller leaves waitForLaunch: it was cancelled, or the launch is over. */
    method WaitForLaunch(ticket: nat, cancelled: bool) returns (adopted: bool)
      requires Valid() && ticket in claims
      requires cancelled || (claims[ticket].launch in launches
                             ==> launches[claims[ticket].launch].phase == Ran
                                 || launches[claims[ticket].launch].phase == Errored)
      modifies this
      ensures Valid() && View() == Leaves(old(View()), ticket, cancelled)
      ensures adopted ==>
                && old(claims)[ticket].request.session in placements
                && placements[old(claims)[ticket].request.session].generation == old(claims)[ticket].request.generation
    {
      hide Sound, AgentAdmission.Booked, AgentManager.GiveUp, Concludes, AgentManager.PunchTicket;
      AgentSafety.LeavesSound(View(), ticket, cancelled);
      AgentAdmission.LeavesBooked(View(), ticket, cancelled);
      SoundIndexed(View());
      var claim := claims[ticket];
      TicketHolds(View(), ticket);
      PunchTicket(ticket);
      PunchKeeps(old(View()), ticket);
      if cancelled {
        GiveUp(claim.launch);
        adopted := false;
      } else {
        adopted := Conclude(claim);
      }
    }

    // ----- shards -----

    /** A shard has changed; an emptied draining one goes to the ledger. */
    method Rehouse(id: Name, shard: Shard) returns (stopped: bool)
      requires Indexed(ledger, epochs) && KeyOf(shard.spec) !in ledger
      modifies this`shards, this`epochs, this`ledger
      ensures View() == AgentManager.Rehouse(old(View()), id, shard) && Indexed(ledger, epochs)
      ensures stopped == Emptied(shard)
    {
      if shard.draining && shard.sessions == map[] {
        shards := shards - {id};
        var _ := TrackStop(shard.spec);
        return true;
      }
      shards := shards[id := shard];
      return false;
    }

    /** A session leaves its shard; `stopped` when that sent the shard to the ledger, under `key`. */
    method Leave(session: Name, memory: nat) returns (stopped: bool, key: Key)
      requires session in placements && placements[session].shardId in shards && Indexed(ledger, epochs)
      requires KeyOf(shards[placements[session].shardId].spec) !in ledger
      modifies this`placements, this`shards, this`epochs, this`ledger
      ensures View() == AgentManager.Leave(old(View()), session, memory) && Indexed(ledger, epochs)
      ensures |epochs| == old(|epochs|) + (if stopped then 1 else 0)
      ensures stopped ==> key == KeyOf(epochs[old(|epochs|)].spec) && key in ledger
    {
      hide ShardsWith;
      var placement := placements[session];
      placements := placements - {session};
      var shard := Without(shards[placement.shardId], session, memory, placement.profile);
      key := KeyOf(shard.spec);
      stopped := Rehouse(placement.shardId, shard);
    }

    method Release(session: Name, generation: nat) returns (reply: Reply)
      requires Valid()
      modifies this
      ensures Valid() && View() == AgentManager.Release(old(View()), session, generation)
      ensures reply == if generation == 0 then Refused(InvalidRequest) else if old(closed) then Refused(ManagerClosed)
                       else if generation < Count(old(latest), session) then Refused(StalePlacement)
                       else if Count(old(latest), session) < generation then Refused(PlacementNotFound) else Done
      ensures reply.Done? ==> session !in placements && Count(released, session) == generation
      ensures reply.Done? && session in old(placements) && |epochs| != old(|epochs|)
              ==> Awaited(cleanups, ledger, session, generation)
      ensures reply.Refused? ==> View() == old(View())
    {
      hide Sound, AgentAdmission.Booked, ReleasePlaced, Reselect, MarkReleased;
      AgentSafety.ReleaseSound(View(), session, generation);
      AgentAdmission.ReleaseBooked(View(), session, generation);
      SoundIndexed(View());
      if generation == 0 {
        return Refused(InvalidRequest);
      }
      if closed {
        return Refused(ManagerClosed);
      }
      if generation < Count(latest, session) {
        return Refused(StalePlacement);
      }
      if generation > Count(latest, session) {
        return Refused(PlacementNotFound);
      }
      if session in placements {
        PlacedIsHoused(View(), session);
        ReleaseHeld(session, generation);
      } else {
        ReleaseAbsent(session, generation);
      }
      return Done;
    }

    /** A session without a placement is released, and waits for the stop an earlier release began. */
    method ReleaseAbsent(session: Name, generation: nat)
      requires Indexed(ledger, epochs) && Labelled(ledger, epochs)
      modifies this`released, this`epochs, this`ledger
      ensures AwaitsCleanup(old(View()), session, generation) ==>
                View() == Reselect(MarkReleased(old(View()), session, generation), old(cleanups)[session].key)
      ensures !AwaitsCleanup(old(View()), session, generation)
              ==> View() == MarkReleased(old(View()), session, generation)
      ensures Count(released, session) == generation
    {
      hide Reselect;
      released := released[session := generation];
      if session in cleanups && cleanups[session].generation == generation {
        Rejoin(cleanups[session].key);
      }
    }

    method ReleaseHeld(session: Name, generation: nat)
      requires session in placements && placements[session].shardId in shards && Indexed(ledger, epochs)
      requires KeyOf(shards[placements[session].shardId].spec) !in ledger
      modifies this`released, this`placements, this`shards, this`epochs, this`ledger, this`cleanups
      ensures View() == ReleasePlaced(MarkReleased(old(View()), session, generation), session, generation)
      ensures session !in placements && Count(released, session) == generation
      ensures |epochs| != old(|epochs|) ==> Awaited(cleanups, ledger, session, generation)
    {
      hide ReleasePlaced;
      released := released[session := generation];
      LeaveReleased(session, generation);
    }

    /** Joins the stop of this process, if it is still in the ledger. */
    method Rejoin(key: Key)
      requires Indexed(ledger, epochs) && Labelled(ledger, epochs)
      modifies this`epochs, this`ledger
      ensures View() == Reselect(old(View()), key)
    {
      if key in ledger {
        var _, _ := SelectStopEpoch(epochs[ledger[key]].spec, false);
      }
    }

    method LeaveReleased(session: Name, generation: nat)
      requires session in placements && placements[session].shardId in shards && Indexed(ledger, epochs)
      requires KeyOf(shards[placements[session].shardId].spec) !in ledger
      modifies this`placements, this`shards, this`epochs, this`ledger, this`cleanups
      ensures View() == ReleasePlaced(old(View()), session, generation)
      ensures placements == old(placements) - {session}
      ensures |epochs| != old(|epochs|) ==> Awaited(cleanups, ledger, session, generation)
    {
      hide Without;
      var memory := if session in identities then identities[session].memory else 0;
      var stopped, key := Leave(session, memory);
      if stopped {
        cleanups := cleanups[session := Released(generation, key)];
      }
    }

    method Observe(sample: Sample) returns (reply: Reply)
      requires Valid()
      modifies this`shards, this`epochs, this`ledger
      ensures Valid() && View() == AgentManager.Observe(old(View()), sample)
      ensures reply.Done? <==> !old(closed) && Fresh(old(View()), sample)
      ensures reply == if old(closed) then Refused(ManagerClosed)
                       else if sample.shardId !in old(shards) then Refused(ShardNotFound)
                       else if sample.generation != old(shards)[sample.shardId].spec.generation
                       then Refused(StaleObservation)
                       else if sample.sequence <= old(shards)[sample.shardId].sequence then Refused(StaleSequence)
                       else Done
      ensures reply.Done? && sample.shardId in shards ==> Measured(shards[sample.shardId], sample, limits.watermark)
      ensures reply.Done? && sample.shardId !in shards
              ==> sample.shardId in old(shards) && KeyOf(old(shards)[sample.shardId].spec) in ledger
      ensures reply.Refused? ==> View() == old(View())
    {
      hide Sound, AgentAdmission.Booked, AgentManager.Rehouse;
      AgentSafety.ObserveSound(View(), sample);
      AgentAdmission.ObserveBooked(View(), sample);
      SoundIndexed(View());
      if closed {
        return Refused(ManagerClosed);
      }
      if sample.shardId !in shards {
        return Refused(ShardNotFound);
      }
      var shard := shards[sample.shardId];
      if sample.generation != shard.spec.generation {
        return Refused(StaleObservation);
      }
      if sample.sequence <= shard.sequence {
        return Refused(StaleSequence);
      }
      LiveNotFiled(View(), sample.shardId);
      RehouseOutcome(View(), sample.shardId, Seen(shard, sample, limits.watermark));
      var _ := Rehouse(sample.shardId, Seen(shard, sample, limits.watermark));
      return Done;
    }

    // ----- Acquire -----

    /** A newer generation takes over; `stopped` when its displaced placement left an emptied shard behind. */
    method Supersede(request: Request) returns (stopped: bool)
      requires Valid() && Advances(View(), request)
      modifies this`latest, this`identities, this`placements, this`shards, this`epochs, this`ledger
      ensures View() == AgentManager.Supersede(old(View()), request)
      ensures stopped == (|epochs| != old(|epochs|))
    {
      hide Sound, AgentAdmission.Booked, AgentManager.Leave, AgentManager.Fence;
      SoundIndexed(View());
      var memory := if request.session in identities then identities[request.session].memory else 0;
      if request.session !in placements {
        Fence(request);
        return false;
      }
      PlacedIsHoused(View(), request.session);
      PlacedIsCovered(View(), request.session);
      assert memory <= shards[placements[request.session].shardId].estimated;
      Fence(request);
      var key;
      stopped, key := Leave(request.session, memory);
    }

    method Fence(request: Request)
      modifies this`latest, this`identities
      ensures View() == AgentManager.Fence(old(View()), request)
    {
      latest := latest[request.session := request.generation];
      identities := identities[request.session := FingerprintOf(request)];
    }

    /** The first unresolved stop of the scope, by shard and generation. */
    method FindPrior(scope: ScopeKey) returns (found: bool, prior: Key)
      requires Indexed(ledger, epochs)
      ensures found <==> exists key :: Prior(View(), scope, key)
      ensures found ==> Prior(View(), scope, prior)
      ensures found ==> forall key | Prior(View(), scope, key) :: key == prior || Precedes(prior, key)
    {
      found, prior := false, Key(NO_NAME, 0);
      var todo := ledger.Keys;
      while todo != {}
        invariant todo <= ledger.Keys
        invariant found ==> prior in ledger.Keys - todo && Prior(View(), scope, prior)
        invariant forall key | key in ledger.Keys - todo && Prior(View(), scope, key) ::
                  found && (key == prior || Precedes(prior, key))
        decreases |todo|
      {
        var key :| key in todo;
        todo := todo - {key};
        if epochs[ledger[key]].spec.scope == scope && (!found || Precedes(key, prior)) {
          found, prior := true, key;
        }
      }
    }

    /** Drains the expired shards, sends the empty ones to the ledger, and collects the shards that can take the
        request. */
    method Scan(request: Request) returns (candidates: set<Name>, stopped: bool, ghost order: seq<Name>)
      requires Sound(View()) && !closed
      modifies this`shards, this`epochs, this`ledger
      ensures View() == ExpireAll(old(View()), order, request.now)
      ensures Covers(old(View()), order)
      ensures forall id :: id in candidates <==> Candidate(View(), id, request)
      ensures stopped == (|epochs| != old(|epochs|))
    {
      hide Sound, AgentManager.Rehouse, Candidate, Suits, ExpireAll, ExpireOne;
      ghost var m := View();
      candidates, order := {}, [];
      ScanNothing(m, request.now);
      var todo, count := shards.Keys, |epochs|;
      while todo != {}
        invariant todo <= m.shards.Keys && View() == ExpireAll(m, order, request.now)
        invariant forall id | id in order :: id in m.shards && id !in todo
        invariant forall id | id in m.shards :: id in todo || id in order
        invariant forall id | id in candidates :: id in m.shards && id !in todo && Candidate(m, id, request)
        invariant forall id | id in m.shards && Candidate(m, id, request) :: id in todo || id in candidates
        decreases |todo|
      {
        var id :| id in todo;
        ScanUnvisited(m, order, request.now, id);
        AgentSafety.ExpireAllSound(m, order, request.now);
        ScanNext(m, order, request.now, id);
        CandidateSuits(m, id, request);
        var shard := shards[id];
        Visit(id, request.now);
        if Suits(shard, limits, request) {
          candidates := candidates + {id};
        }
        order := order + [id];
        todo := todo - {id};
      }
      ScanCandidates(m, order, request);
      CandidatesHoused(m, request);
      stopped := |epochs| != count;
    }

    /** The scan's visit to one shard. */
    method Visit(id: Name, now: int)
      requires Sound(View()) && id in shards
      modifies this`shards, this`epochs, this`ledger
      ensures View() == ExpireOne(old(View()), id, now)
    {
      hide Sound, AgentManager.Rehouse;
      SoundIndexed(View());
      LiveNotFiled(View(), id);
      if shards[id].spec.createdAt + limits.lifetime <= now {
        var _ := Rehouse(id, Drained(shards[id]));
      }
    }

    /** The least loaded of the candidates, and among those the least identifier. */
    method Least(candidates: set<Name>) returns (id: Name)
      requires candidates != {} && candidates <= shards.Keys
      ensures id in candidates
      ensures forall other | other in candidates && other != id :: Lighter(shards, id, other)
    {
      id :| id in candidates;
      var todo := candidates - {id};
      while todo != {}
        invariant todo <= candidates && id in candidates - todo
        invariant forall other | other in candidates - todo && other != id :: Lighter(shards, id, other)
        decreases |todo|
      {
        var other :| other in todo;
        todo := todo - {other};
        if !Lighter(shards, id, other) {
          forall earlier | earlier in candidates - todo && earlier != other ensures Lighter(shards, other, earlier) {
            assert earlier == id || Lighter(shards, id, earlier);
          }
          id := other;
        }
      }
    }

    method Place(id: Name, request: Request) returns (placement: Placement)
      requires id in shards
      modifies this`shards, this`placements
      ensures View() == AgentManager.Place(old(View()), id, request)
      ensures Honest(View(), request, Placed(placement, false))
    {
      placement := PlacementOf(request, id);
      var shard := shards[id];
      shards := shards[id := shard.(sessions := shard.sessions[request.session := placement],
                                    estimated := Plus(shard.estimated, request.memory))];
      placements := placements[request.session := placement];
    }

    method Join(g: nat, request: Request) returns (ticket: nat)
      requires g in launches
      modifies this`launches, this`pendingSessions, this`claims, this`nextTicket
      ensures View() == AgentManager.Join(old(View()), g, request)
      ensures Honest(View(), request, Waits(ticket)) && ticket == old(nextTicket)
    {
      hide WithTicket;
      ticket := Issue(g, request);
      launches := launches[g := WithTicket(launches[g], request.session, ticket)];
      pendingSessions := pendingSessions[request.session := g];
    }

    method Issue(g: nat, request: Request) returns (ticket: nat)
      modifies this`claims, this`nextTicket
      ensures ticket == old(nextTicket) && nextTicket == ticket + 1
              && claims == old(claims)[ticket := Claim(g, request)]
    {
      ticket := nextTicket;
      claims := claims[ticket := Claim(g, request)];
      nextTicket := nextTicket + 1;
    }

    method BeginLaunch(request: Request) returns (ticket: nat)
      modifies this`nextGeneration, this`nextSequence, this`launches, this`pendingScopes, this`pendingSessions,
      this`claims, this`nextTicket
      ensures View() == AgentManager.BeginLaunch(old(View()), request) && ticket == old(nextTicket)
    {
      hide ScopeOf, NewSpec, After, SequenceAfter, FirstLaunch;
      var g := nextGeneration;
      var spec := TakeSpec(request);
      ticket := Issue(g, request);
      Announce(FirstLaunch(spec, request.session, ticket), spec.scope, g, request.session);
    }

    method Announce(launch: Launch, scope: ScopeKey, g: nat, session: Name)
      modifies this`launches, this`pendingScopes, this`pendingSessions
      ensures launches == old(launches)[g := launch]
      ensures pendingScopes == old(pendingScopes)[scope := g] && pendingSessions == old(pendingSessions)[session := g]
    {
      launches := launches[g := launch];
      pendingScopes := pendingScopes[scope := g];
      pendingSessions := pendingSessions[session := g];
    }

    /** Spends a generation, and a sequence number unless an identifier can be tried again. */
    method TakeSpec(request: Request) returns (spec: Spec)
      modifies this`nextGeneration, this`nextSequence
      ensures spec == NewSpec(old(View()), request) && spec.scope == ScopeOf(request)
      ensures nextGeneration == After(old(nextGeneration))
              && nextSequence == SequenceAfter(retryIds, spec.scope, old(nextSequence))
    {
      hide ScopeOf;
      var scope, now, generation := ScopeOf(request), request.now, nextGeneration;
      if generation == WORD - 1 {
        nextGeneration := 0;
      } else {
        nextGeneration := nextGeneration + 1;
      }
      if scope in retryIds {
        return Spec(retryIds[scope], generation, scope, now);
      }
      spec := Spec(nextSequence, generation, scope, now);
      nextSequence := nextSequence + 1;
    }

    /** Without a candidate: share a launch of the scope, or begin one. */
    method Share(request: Request) returns (outcome: Outcome)
      requires Sound(View())
      modifies this
      ensures View() == Shared(old(View()), request)
      ensures Honest(View(), request, outcome) && SharedAs(old(View()), request, outcome)
    {
      hide Sound, AgentManager.Join, AgentManager.BeginLaunch, ScopeOf;
      if ScopeOf(request) in pendingScopes {
        AgentSafety.ScopeActive(View(), ScopeOf(request));
        var g := pendingScopes[ScopeOf(request)];
        if launches[g].abandoned {
          return Retry;
        }
        var ticket := Join(g, request);
        return Waits(ticket);
      }
      if nextGeneration == 0 {
        return Rejected(Exhausted);
      }
      BeginIsHonest(View(), request);
      var ticket := BeginLaunch(request);
      return Waits(ticket);
    }

    /** With no stop in the way: place the request, share a launch of its scope, or begin one. */
    method Settle(request: Request, ghost prior: Key) returns (outcome: Outcome, ghost choice: Choice)
      requires Sound(View()) && !closed
      modifies this
      ensures View() == AgentManager.Settle(old(View()), request, choice) && choice.prior == prior
      ensures Honest(View(), request, outcome) && Covers(old(View()), choice.order)
      ensures SettledAs(old(View()), ExpireAll(old(View()), choice.order, request.now), request, outcome)
      ensures outcome.Rejected? ==> outcome.why == Exhausted
    {
      hide Sound, AgentManager.Settle, AgentManager.Place, Shared, ExpireAll, Candidate;
      ghost var m := View();
      var candidates, stopped;
      ghost var order;
      candidates, stopped, order := Scan(request);
      AgentSafety.ExpireAllSound(m, order, request.now);
      choice := Choice(order, prior, NO_NAME);
      ghost var scanned := View();
      ScanKeeps(m, order, request);
      CandidatesHoused(scanned, request);
      if stopped {
        SettleStops(m, request, choice);
        outcome := Retry;
      } else if candidates != {} {
        var least := Least(candidates);
        choice := Choice(order, prior, least);
        SettlePlaces(m, request, choice);
        var placement := Place(least, request);
        outcome := Placed(placement, false);
      } else {
        SettleShares(m, request, choice);
        outcome := Share(request);
      }
    }

    /** The part of the pass that is past the session's fences. */
    method Proceed(request: Request) returns (outcome: Outcome, ghost choice: Choice)
      requires Valid() && !closed && Current(View(), request)
      modifies this
      ensures var fenced := AgentManager.Supersede(old(View()), request);
              View() == if |fenced.epochs| != |old(View()).epochs| then fenced
                        else if exists key :: Prior(fenced, ScopeOf(request), key) then
                          if Prior(fenced, ScopeOf(request), choice.prior) then Reselect(fenced, choice.prior)
                          else old(View())
                        else AgentManager.Settle(fenced, request, choice)
      ensures Honest(View(), request, outcome) && Continued(old(View()), request, choice, outcome)
      ensures outcome.Rejected? ==> outcome.why == Exhausted
    {
      hide Sound, AgentAdmission.Booked, AgentManager.Supersede, AgentManager.Settle, Reselect, Prior, ScopeOf, Covers,
           SettledAs;
      AgentSafety.SupersedeSound(View(), request);
      choice := Choice([], Key(NO_NAME, 0), NO_NAME);
      if Count(latest, request.session) < request.generation {
        var stopped := Supersede(request);
        if stopped {
          return Retry, choice;
        }
      } else {
        NotSuperseded(View(), request);
      }
      SoundIndexed(View());
      var found, prior := FindPrior(ScopeOf(request));
      if found {
        choice := Choice([], prior, NO_NAME);
        Rejoin(prior);
        return Retry, choice;
      }
      outcome, choice := Settle(request, prior);
    }

    /** One pass of Acquire under the mutex. */
    method Acquire(request: Request) returns (outcome: Outcome, ghost choice: Choice)
      requires Valid()
      modifies this
      ensures Valid() && View() == AgentManager.Acquire(old(View()), request, choice)
      ensures Honest(View(), request, outcome) && Answers(old(View()), request, outcome)
      ensures outcome.Rejected? && outcome.why != Exhausted ==> View() == old(View())
    {
      hide Sound, AgentAdmission.Booked, AgentManager.Supersede, AgentManager.Settle, Reselect, Prior, ScopeOf,
           ValidProfile, FingerprintOf, AgentManager.Join, Honest, Continued, Screened, Fenced, Proceeds;
      ghost var m := View();
      choice := Choice([], Key(NO_NAME, 0), NO_NAME);
      outcome := Screen(request);
      if outcome == Retry {
        if request.session in pendingSessions {
          outcome := Attend(request);
        } else {
          outcome := Present(request);
          if outcome == Retry {
            outcome, choice := Proceed(request);
            ContinuedMeans(m, request, choice, outcome);
          }
        }
      }
      AgentSafety.AcquireSound(m, request, choice);
      AgentAdmission.AcquireBooked(m, request, choice);
    }

    /** Requests that are refused without looking at the session. */
    method Screen(request: Request) returns (outcome: Outcome)
      ensures outcome == Retry <==> Admissible(View(), request) && !closed
      ensures outcome == Retry || (outcome.Rejected? && outcome.why != Exhausted)
      ensures Honest(View(), request, outcome) && outcome == Screened(View(), request)
    {
      ProfilePermitted(request.trust, request.profile);
      hide ValidProfile, Decisions.Permitted;
      if request.generation == 0 || request.memory == 0 {
        return Rejected(InvalidRequest);
      }
      if !ValidProfile(request.trust, request.profile) {
        return Rejected(InvalidProfile);
      }
      if request.memory > limits.watermark || request.memory > limits.memory {
        return Rejected(OverCapacity);
      }
      if request.worker == NO_NAME {
        return Rejected(InvalidRequest);
      }
      return if closed then Rejected(ManagerClosed) else Retry;
    }

    /** The session already waits for a launch: join it, or wait until it is over. */
    method Attend(request: Request) returns (outcome: Outcome)
      requires Valid() && request.session in pendingSessions
      modifies this
      ensures View() == if Rejoins(old(View()), request)
              then AgentManager.Join(old(View()), old(pendingSessions)[request.session], request) else old(View())
      ensures Honest(View(), request, outcome)
      ensures outcome == if Decisions.MayShare(old(View()), request) then Waits(old(nextTicket)) else Retry
    {
      hide Sound, AgentAdmission.Booked, AgentManager.Join, ScopeOf;
      AgentSafety.SessionActive(View(), request.session);
      var g, session := pendingSessions[request.session], request.session;
      var current := Count(latest, session) == request.generation && Count(released, session) != request.generation;
      var same := session in identities && identities[session] == FingerprintOf(request);
      if !launches[g].abandoned && launches[g].spec.scope == ScopeOf(request) && current && same {
        var ticket := Join(g, request);
        return Waits(ticket);
      }
      return Retry;
    }

    /** The session's fences: stale, released, in conflict, already placed, or free to go on. */
    method Present(request: Request) returns (outcome: Outcome)
      requires Valid()
      ensures outcome == Retry <==> Current(View(), request)
      ensures Honest(View(), request, outcome) && outcome == Fenced(View(), request)
    {
      hide Sound, AgentAdmission.AllLoaded, AgentAdmission.Seated, AgentAdmission.Scoped, AgentAdmission.Claimed;
      var session, newest := request.session, Count(latest, request.session);
      if request.generation < newest || Count(released, session) == request.generation {
        return Rejected(StalePlacement);
      }
      if request.generation == newest {
        if session !in identities || identities[session] != FingerprintOf(request) {
          return Rejected(PlacementConflict);
        }
        if session in placements {
          PlacedIsTimely(View(), session);
          return Placed(placements[session], true);
        }
      }
      return Retry;
    }

    // ----- Shutdown -----

    /** Fences admission and sends every finished launch to the ledger; `running` are the launches to wait for. */
    method CloseLaunches() returns (running: set<nat>, ghost finished: seq<nat>)
      requires Valid() && (gate == Free || gate == Closing)
      modifies this
      ensures Valid() && View() == Close(old(View()), finished)
      ensures forall g | g in running :: g in launches && Unfinished(launches[g])
      ensures running == {} <==> gate == Cleared
    {
      hide Sound, AgentAdmission.Booked, AgentManager.Transfer, TransferAll, Regate, Barred, Close, Untried, Tried,
           Unfinished;
      ghost var m := View();
      closed := true;
      running, finished := {}, [];
      CloseNothing(m);
      AgentSafety.ClosedSound(m);
      UntriedAtFirst(m);
      var todo := pendingScopes.Keys;
      while todo != {}
        invariant todo <= m.pendingScopes.Keys && gate == m.gate && View() == TransferAll(Closed(m), finished)
        invariant Untried(m, pendingScopes, launches, todo) && Tried(m, todo, finished)
                  && Runs(pendingScopes, launches, todo, running)
        decreases |todo|
      {
        var scope :| scope in todo;
        AgentSafety.TransferAllSound(Closed(m), finished);
        SoundIndexed(View());
        UntriedHas(m, pendingScopes, launches, todo, scope);
        BarrierHolds(View(), scope);
        var g := pendingScopes[scope];
        if launches[g].phase == Ran {
          CloseNext(m, finished, g);
          FinishedNext(m, View(), todo, finished, running, scope);
          var _ := Transfer(g);
          finished := finished + [g];
        } else {
          RunningNext(m, View(), todo, finished, running, scope);
          running := running + {g};
        }
        todo := todo - {scope};
      }
      AllTried(m, finished);
      gate := if running == {} then Cleared else Closing;
      CloseDone(m, finished, View(), running);
      AgentSafety.CloseSound(m, finished);
      AgentAdmission.CloseBooked(m, finished);
    }

    /** Sends every live shard to the ledger. */
    method RetireShards() returns (stops: set<nat>, ghost ids: seq<Name>)
      requires Sound(View()) && !gate.Draining?
      modifies this`shards, this`epochs, this`ledger
      ensures View() == RetireAll(old(View()), ids) && Covers(old(View()), ids)
      ensures Held(ledger, old(ledger).Keys, stops)
    {
      hide Sound, RetireAll, RetireShard;
      ghost var m := View();
      stops, ids := {}, [];
      RetireNothing(m);
      var todo := shards.Keys;
      while todo != {}
        invariant todo == shards.Keys && View() == RetireAll(m, ids)
        invariant forall id | id in m.shards :: id in todo || id in ids
        invariant Held(ledger, m.ledger.Keys, stops)
        decreases |todo|
      {
        var id :| id in todo;
        AgentSafety.RetireAllSound(m, ids);
        SoundIndexed(View());
        LiveNotFiled(View(), id);
        RetireNext(m, ids, id);
        var spec := shards[id].spec;
        HeldNext(ledger, m.ledger.Keys, stops, KeyOf(spec), |epochs|);
        var epoch := Retire(id);
        stops := stops + {epoch};
        ids := ids + [id];
        todo := todo - {id};
      }
    }

    method Retire(id: Name) returns (epoch: nat)
      requires id in shards && Indexed(ledger, epochs) && KeyOf(shards[id].spec) !in ledger
      modifies this`shards, this`epochs, this`ledger
      ensures View() == RetireShard(old(View()), id) && epoch == old(|epochs|)
      ensures ledger == old(ledger)[KeyOf(old(shards)[id].spec) := epoch] && shards == old(shards) - {id}
    {
      var spec := shards[id].spec;
      shards := shards - {id};
      epoch := TrackStop(spec);
    }

    /** Takes hold of every stop that was in the ledger before. */
    method SelectStops(keys: set<Key>, before: set<nat>) returns (stops: set<nat>, ghost order: seq<Key>)
      requires Sound(View()) && !gate.Draining? && keys <= ledger.Keys && Held(ledger, keys, before)
      modifies this`epochs, this`ledger
      ensures View() == ReselectAll(old(View()), order) && (forall key | key in keys :: key in order)
      ensures Held(ledger, {}, stops)
    {
      hide Sound, ReselectAll, Reselect;
      ghost var m := View();
      stops, order := before, [];
      ReselectNothing(m);
      var todo := keys;
      while todo != {}
        invariant todo <= ledger.Keys && View() == ReselectAll(m, order) && Held(ledger, todo, stops)
        invariant forall key | key in keys :: key in todo || key in order
        decreases |todo|
      {
        var key :| key in todo;
        AgentSafety.ReselectAllSound(m, order);
        SoundIndexed(View());
        ReselectNext(m, order, key);
        ReselectLedger(View(), key);
        ghost var earlier := ledger;
        var found, epoch := SelectStopEpoch(epochs[ledger[key]].spec, false);
        HeldAfter(earlier, ledger, todo, stops, key);
        todo := todo - {key};
        if found {
          stops := stops + {epoch};
        }
        order := order + [key];
      }
    }

    /** Every shard's stop and every stop not yet done, each selected once. */
    method TakeStops() returns (stops: set<nat>, ghost ids: seq<Name>, ghost keys: seq<Key>)
      requires Sound(View()) && !gate.Draining?
      modifies this`shards, this`epochs, this`ledger
      ensures View() == ReselectAll(RetireAll(old(View()), ids), keys) && Covers(old(View()), ids)
      ensures stops == ledger.Values && forall key | key in old(ledger) :: key in keys
    {
      hide Sound, RetireAll, ReselectAll, Held;
      ghost var m := View();
      var filed := ledger.Keys;
      stops, ids := RetireShards();
      AgentSafety.RetireAllSound(m, ids);
      stops, keys := SelectStops(filed, stops);
      HeldValues(ledger, stops);
    }

    /** Takes hold of everything that still has to stop; Shutdown waits for exactly these epochs. */
    method DrainShards() returns (stops: set<nat>, ghost ids: seq<Name>, ghost keys: seq<Key>)
      requires Valid() && gate == Cleared
      modifies this
      ensures Valid() && View() == Drain(old(View()), ids, keys)
      ensures gate == Draining(stops) && stops == ledger.Values
    {
      hide Sound, AgentAdmission.Booked, RetireAll, ReselectAll, Drain;
      ghost var m := View();
      stops, ids, keys := TakeStops();
      DrainTaken(m, ids, keys);
      placements := map[];
      gate := Draining(stops);
      AgentSafety.DrainSound(m, ids, keys);
      AgentAdmission.DrainBooked(m, ids, keys);
    }
  }

  /** `stops` are the ledger's epochs, except those of the keys still to be visited. */
  ghost predicate Held(ledger: map<Key, nat>, todo: set<Key>, stops: set<nat>) {
    && (forall key | key in ledger && key !in todo :: ledger[key] in stops)
    && (forall e | e in stops :: exists key :: key in ledger && key !in todo && ledger[key] == e)
  }

  lemma HeldNext(ledger: map<Key, nat>, todo: set<Key>, stops: set<nat>, key: Key, epoch: nat)
    requires Held(ledger, todo, stops) && key !in ledger && key !in todo
    ensures Held(ledger[key := epoch], todo, stops + {epoch})
  {
    var after := ledger[key := epoch];
    forall e | e in stops + {epoch} ensures exists k :: k in after && k !in todo && after[k] == e {
      if e in stops {
        var k :| k in ledger && k !in todo && ledger[k] == e;
        assert after[k] == e;
      } else {
        assert after[key] == e;
      }
    }
  }

  lemma HeldAfter(before: map<Key, nat>, after: map<Key, nat>, todo: set<Key>, stops: set<nat>, key: Key)
    requires Held(before, todo, stops) && key in todo && after - {key} == before - {key}
    ensures key !in after ==> Held(after, todo - {key}, stops)
    ensures key in after ==> Held(after, todo - {key}, stops + {after[key]})
    ensures todo <= before.Keys ==> todo - {key} <= after.Keys
  {
    forall k | k in todo - {key} && todo <= before.Keys ensures k in after {
      assert k in before - {key};
      assert k in after - {key};
    }
    forall e | e in stops ensures exists k :: k in after && k !in todo - {key} && after[k] == e {
      var k :| k in before && k !in todo && before[k] == e;
      assert k in before - {key} && (before - {key})[k] == e;
      assert k in after - {key} && (after - {key})[k] == e;
    }
    forall k | k in after && k !in todo ensures after[k] in stops {
      assert k in after - {key} && (after - {key})[k] == after[k];
      assert k in before - {key} && (before - {key})[k] == after[k];
    }
  }

  lemma HeldValues(ledger: map<Key, nat>, stops: set<nat>)
    requires Held(ledger, {}, stops)
    ensures stops == ledger.Values
  {
    forall e | e in stops ensures e in ledger.Values {
      var key :| key in ledger && ledger[key] == e;
      assert key in ledger.Keys;
    }
  }

  lemma DrainTaken(m: AgentManager.Manager, ids: seq<Name>, keys: seq<Key>)
    requires m.gate == Cleared && Covers(m, ids) && forall key | key in m.ledger :: key in keys
    ensures var taken := ReselectAll(RetireAll(m, ids), keys);
            Drain(m, ids, keys) == taken.(placements := map[], gate := Draining(taken.ledger.Values))
  {
    hide RetireAll, ReselectAll;
  }

  lemma RetireNothing(m: AgentManager.Manager)
    ensures RetireAll(m, []) == m
  {
  }

  lemma RetireNext(m: AgentManager.Manager, ids: seq<Name>, id: Name)
    requires id in RetireAll(m, ids).shards
    ensures RetireAll(m, ids + [id]) == RetireShard(RetireAll(m, ids), id)
  {
    hide RetireShard;
    assert (ids + [id])[..|ids|] == ids;
  }

  lemma ReselectNothing(m: AgentManager.Manager)
    ensures ReselectAll(m, []) == m
  {
  }

  lemma ReselectNext(m: AgentManager.Manager, keys: seq<Key>, key: Key)
    ensures ReselectAll(m, keys + [key]) == Reselect(ReselectAll(m, keys), key)
  {
    hide Reselect;
    assert (keys + [key])[..|keys|] == keys;
  }

  lemma ReselectLedger(m: AgentManager.Manager, key: Key)
    ensures Reselect(m, key).ledger - {key} == m.ledger - {key}
  {
  }

  lemma UntriedAtFirst(m: AgentManager.Manager)
    requires Sound(m)
    ensures Untried(m, m.pendingScopes, m.launches, m.pendingScopes.Keys) && Tried(m, m.pendingScopes.Keys, [])
    ensures Runs(m.pendingScopes, m.launches, m.pendingScopes.Keys, {})
  {
    hide Sound, Barred;
    forall scope | scope in m.pendingScopes
      ensures m.pendingScopes[scope] in m.launches && m.launches[m.pendingScopes[scope]].spec.scope == scope
    {
      BarrierHolds(m, scope);
    }
  }

  lemma TransferEffect(m: AgentManager.Manager, g: nat)
    requires g in m.launches
    ensures var n := AgentManager.Transfer(m, g);
            && n.pendingScopes == ScopesWithout(m.pendingScopes, m.launches[g].spec.scope, g)
            && n.launches == m.launches[g := GiveOnce(m.launches[g], |m.epochs|)] && n.gate == m.gate
  {
    hide SessionsWithout, ScopesWithout, TrackOnce, FileOnce;
  }

  lemma UntriedHas(m: AgentManager.Manager, scopes: map<ScopeKey, nat>, launches: map<nat, Launch>,
                   todo: set<ScopeKey>, scope: ScopeKey)
    requires Untried(m, scopes, launches, todo) && scope in todo
    ensures scope in scopes
  {
  }

  lemma UntriedNext(m: AgentManager.Manager, scopes: map<ScopeKey, nat>, launches: map<nat, Launch>,
                    todo: set<ScopeKey>, scope: ScopeKey, launch: Launch)
    requires Untried(m, scopes, launches, todo) && scope in todo
    ensures Untried(m, ScopesWithout(scopes, scope, scopes[scope]), launches[scopes[scope] := launch], todo - {scope})
  {
    var after, remaining := launches[scopes[scope] := launch], ScopesWithout(scopes, scope, scopes[scope]);
    forall other | other in todo - {scope}
      ensures other in remaining && remaining[other] == scopes[other] && scopes[other] in after
              && after[scopes[other]] == launches[scopes[other]]
    {
      assert m.launches[m.pendingScopes[other]].spec.scope != m.launches[m.pendingScopes[scope]].spec.scope;
    }
  }

  lemma RunsOn(scopes: map<ScopeKey, nat>, launches: map<nat, Launch>, todo: set<ScopeKey>, running: set<nat>,
               scope: ScopeKey, launch: Launch)
    requires Runs(scopes, launches, todo, running) && scope in todo && scope in scopes
    requires scopes[scope] in launches && !Unfinished(launches[scopes[scope]])
    ensures Runs(ScopesWithout(scopes, scope, scopes[scope]), launches[scopes[scope] := launch], todo - {scope},
                 running)
  {
  }

  lemma TriedNext(m: AgentManager.Manager, todo: set<ScopeKey>, finished: seq<nat>, scope: ScopeKey)
    requires Tried(m, todo, finished) && scope in m.pendingScopes && m.pendingScopes[scope] in m.launches
    ensures Tried(m, todo - {scope}, finished + [m.pendingScopes[scope]])
    ensures m.launches[m.pendingScopes[scope]].phase != Ran ==> Tried(m, todo - {scope}, finished)
  {
  }

  /** A finished launch has been visited. */
  lemma FinishedNext(m: AgentManager.Manager, n: AgentManager.Manager, todo: set<ScopeKey>, finished: seq<nat>,
                     running: set<nat>, scope: ScopeKey)
    requires Untried(m, n.pendingScopes, n.launches, todo) && Tried(m, todo, finished)
             && Runs(n.pendingScopes, n.launches, todo, running)
    requires scope in todo && scope in n.pendingScopes && n.pendingScopes[scope] in n.launches
             && n.launches[n.pendingScopes[scope]].phase == Ran
    requires n.launches[n.pendingScopes[scope]].spec.scope == scope
    ensures var g := n.pendingScopes[scope];
            var after := AgentManager.Transfer(n, g);
            && Untried(m, after.pendingScopes, after.launches, todo - {scope})
            && Tried(m, todo - {scope}, finished + [g])
            && Runs(after.pendingScopes, after.launches, todo - {scope}, running) && after.gate == n.gate
  {
    hide AgentManager.Transfer, GiveOnce, Tried, Runs, ScopesWithout;
    var g := n.pendingScopes[scope];
    var launch := GiveOnce(n.launches[g], |n.epochs|);
    TransferEffect(n, g);
    UntriedNext(m, n.pendingScopes, n.launches, todo, scope, launch);
    RunsOn(n.pendingScopes, n.launches, todo, running, scope, launch);
    TriedNext(m, todo, finished, scope);
  }

  /** A launch that has not finished has been visited. */
  lemma RunningNext(m: AgentManager.Manager, n: AgentManager.Manager, todo: set<ScopeKey>, finished: seq<nat>,
                    running: set<nat>, scope: ScopeKey)
    requires Untried(m, n.pendingScopes, n.launches, todo) && Tried(m, todo, finished)
             && Runs(n.pendingScopes, n.launches, todo, running)
    requires scope in todo && scope in n.pendingScopes && n.pendingScopes[scope] in n.launches
             && Unfinished(n.launches[n.pendingScopes[scope]])
    ensures Untried(m, n.pendingScopes, n.launches, todo - {scope}) && Tried(m, todo - {scope}, finished)
    ensures Runs(n.pendingScopes, n.launches, todo - {scope}, running + {n.pendingScopes[scope]})
  {
    hide Tried;
    TriedNext(m, todo, finished, scope);
  }

  lemma AllTried(m: AgentManager.Manager, finished: seq<nat>)
    requires Tried(m, {}, finished)
    ensures forall g | Barred(m, g) :: g in finished
  {
  }

  lemma CloseDone(m: AgentManager.Manager, finished: seq<nat>, n: AgentManager.Manager, running: set<nat>)
    requires m.gate == Free || m.gate == Closing
    requires forall g | Barred(m, g) :: g in finished
    requires n == TransferAll(Closed(m), finished).(gate := if running == {} then Cleared else Closing)
             && Runs(n.pendingScopes, n.launches, {}, running)
    ensures n == Close(m, finished)
  {
    hide TransferAll, Barred;
    assert n.pendingScopes == TransferAll(Closed(m), finished).pendingScopes;
    if running == {} {
      assert n.pendingScopes == map[];
    } else {
      var g :| g in running;
      assert n.launches[g].spec.scope in n.pendingScopes;
    }
  }

  lemma CloseNothing(m: AgentManager.Manager)
    ensures TransferAll(Closed(m), []) == Closed(m)
  {
  }

  /** The launch behind a barrier is unfinished, or holds a process that is not in the ledger. */
  lemma BarrierHolds(m: AgentManager.Manager, scope: ScopeKey)
    requires Sound(m) && scope in m.pendingScopes
    ensures var g := m.pendingScopes[scope];
            && g in m.launches && m.launches[g].spec.scope == scope
            && (m.launches[g].phase == Ran || Unfinished(m.launches[g]))
            && (m.launches[g].phase == Ran
                ==> Barred(m, g) && m.launches[g].cleanup.Kept? && KeyOf(m.launches[g].spec) !in m.ledger)
  {
    hide Numbered, Phased, Filed, Chained, Traced, Housed, Waiting, Renounced, Gated, Ticketed;
  }

  lemma CloseNext(m: AgentManager.Manager, finished: seq<nat>, g: nat)
    requires Barred(TransferAll(Closed(m), finished), g)
    ensures TransferAll(Closed(m), finished + [g]) == AgentManager.Transfer(TransferAll(Closed(m), finished), g)
  {
    hide AgentManager.Transfer, Barred;
    assert (finished + [g])[..|finished|] == finished;
  }

  /** The scopes that have not been visited are as they were. */
  ghost predicate Untried(m: AgentManager.Manager, scopes: map<ScopeKey, nat>, launches: map<nat, Launch>,
                          todo: set<ScopeKey>) {
    forall scope | scope in todo ::
      && scope in scopes && scope in m.pendingScopes && scopes[scope] == m.pendingScopes[scope]
      && m.pendingScopes[scope] in m.launches && m.pendingScopes[scope] in launches
      && launches[m.pendingScopes[scope]] == m.launches[m.pendingScopes[scope]]
      && m.launches[m.pendingScopes[scope]].spec.scope == scope
  }

  ghost predicate Tried(m: AgentManager.Manager, todo: set<ScopeKey>, finished: seq<nat>) {
    forall scope | scope in m.pendingScopes && scope !in todo ::
      m.pendingScopes[scope] in m.launches
        && (m.launches[m.pendingScopes[scope]].phase == Ran ==> m.pendingScopes[scope] in finished)
  }

  predicate Unfinished(launch: Launch) {
    launch.phase == Starting || launch.phase.Rejecting?
  }

  /** Of the visited scopes, those that still have a barrier are waited for. */
  ghost predicate Runs(scopes: map<ScopeKey, nat>, launches: map<nat, Launch>, todo: set<ScopeKey>, running: set<nat>) {
    && (forall scope | scope in scopes :: scope in todo || scopes[scope] in running)
    && (forall g | g in running ::
          g in launches && Unfinished(launches[g]) && launches[g].spec.scope in scopes
            && launches[g].spec.scope !in todo)
  }

  /** The state after the scan has found no candidate. */
  ghost function Shared(m: AgentManager.Manager, request: Request): AgentManager.Manager {
    if ScopeOf(request) in m.pendingScopes then
      var g := m.pendingScopes[ScopeOf(request)];
      if g in m.launches && !m.launches[g].abandoned then AgentManager.Join(m, g, request) else m
    else if m.nextGeneration == 0 then m
    else AgentManager.BeginLaunch(m, request)
  }

  ghost predicate Covers(m: AgentManager.Manager, order: seq<Name>) {
    forall id | id in m.shards :: id in order
  }

  lemma SettleStops(m: AgentManager.Manager, request: Request, choice: Choice)
    requires Covers(m, choice.order) && |ExpireAll(m, choice.order, request.now).epochs| != |m.epochs|
    ensures AgentManager.Settle(m, request, choice) == ExpireAll(m, choice.order, request.now)
  {
    hide ExpireAll, Candidate, AgentManager.Place, AgentManager.Join, AgentManager.BeginLaunch;
  }

  lemma SettlePlaces(m: AgentManager.Manager, request: Request, choice: Choice)
    requires Covers(m, choice.order) && |ExpireAll(m, choice.order, request.now).epochs| == |m.epochs|
    requires Best(ExpireAll(m, choice.order, request.now), choice.candidate, request)
    ensures choice.candidate in ExpireAll(m, choice.order, request.now).shards
    ensures AgentManager.Settle(m, request, choice)
            == AgentManager.Place(ExpireAll(m, choice.order, request.now), choice.candidate, request)
  {
    hide ExpireAll, AgentManager.Place, AgentManager.Join, AgentManager.BeginLaunch, Candidate, Best;
    AgentSafety.BestPlaced(ExpireAll(m, choice.order, request.now), choice.candidate, request);
    AgentAdmission.BestCandidate(ExpireAll(m, choice.order, request.now), choice.candidate, request);
  }

  lemma SettleShares(m: AgentManager.Manager, request: Request, choice: Choice)
    requires Covers(m, choice.order) && |ExpireAll(m, choice.order, request.now).epochs| == |m.epochs|
    requires forall id :: !Candidate(ExpireAll(m, choice.order, request.now), id, request)
    ensures AgentManager.Settle(m, request, choice) == Shared(ExpireAll(m, choice.order, request.now), request)
  {
    hide ExpireAll, AgentManager.Place, AgentManager.Join, AgentManager.BeginLaunch, Candidate, Best;
  }

  /** A repeated release of the session finds the stop it has to wait for. */
  predicate Awaited(cleanups: map<Name, Released>, ledger: map<Key, nat>, session: Name, generation: nat) {
    session in cleanups && cleanups[session].generation == generation && cleanups[session].key in ledger
  }

  /** The sample is on record, and pressure drains the shard. */
  predicate Measured(shard: Shard, sample: Sample, watermark: nat) {
    shard.rss == sample.rss && shard.sequence == sample.sequence && (Pressing(sample, watermark) ==> shard.draining)
  }

  /** What a caller of Acquire is told is so. */
  ghost predicate Honest(m: AgentManager.Manager, request: Request, outcome: Outcome) {
    && (outcome.Placed? ==>
          && request.session in m.placements && m.placements[request.session] == outcome.placement
          && outcome.placement.generation == request.generation && outcome.placement.session == request.session)
    && (outcome.Waits? ==> outcome.ticket in m.claims && m.claims[outcome.ticket].request == request)
  }

  /** Why a request is refused before its session is looked at. */
  function Screened(m: AgentManager.Manager, request: Request): Outcome {
    if request.generation == 0 || request.memory == 0 then Rejected(InvalidRequest)
    else if !Decisions.Permitted(request.trust, request.profile) then Rejected(InvalidProfile)
    else if m.limits.watermark < request.memory || m.limits.memory < request.memory then Rejected(OverCapacity)
    else if request.worker == NO_NAME then Rejected(InvalidRequest)
    else if m.closed then Rejected(ManagerClosed) else Retry
  }

  lemma ProfilePermitted(trust: Trust, profile: Profile)
    ensures ValidProfile(trust, profile) <==> Decisions.Permitted(trust, profile)
  {
  }

  /** What the session's earlier requests make of this one. */
  function Fenced(m: AgentManager.Manager, request: Request): Outcome {
    var latest := Count(m.latest, request.session);
    if request.generation < latest || request.generation == Count(m.released, request.session)
    then Rejected(StalePlacement)
    else if latest < request.generation then Retry
    else if !Decisions.Repeated(m, request) then Rejected(PlacementConflict)
    else if request.session in m.placements then Placed(m.placements[request.session], true)
    else Retry
  }

  /** Without an open process: a launch of the scope is shared unless it is abandoned, or one begins. */
  predicate SharedAs(m: AgentManager.Manager, request: Request, outcome: Outcome) {
    var scope := ScopeOf(request);
    if scope in m.pendingScopes then
      && m.pendingScopes[scope] in m.launches
      && outcome == if m.launches[m.pendingScopes[scope]].abandoned then Retry else Waits(m.nextTicket)
    else outcome == if m.nextGeneration == 0 then Rejected(Exhausted) else Waits(m.nextTicket)
  }

  ghost predicate SettledAs(m: AgentManager.Manager, scanned: AgentManager.Manager, request: Request,
                            outcome: Outcome) {
    if |scanned.epochs| != |m.epochs| then outcome == Retry
    else if exists id :: Candidate(scanned, id, request) then outcome.Placed? && !outcome.replayed
    else SharedAs(m, request, outcome)
  }

  /** What the part of the pass past the fences comes to. */
  ghost predicate Continued(m: AgentManager.Manager, request: Request, choice: Choice, outcome: Outcome) {
    var fenced := AgentManager.Supersede(m, request);
    if |fenced.epochs| != |m.epochs| || (exists key :: Prior(fenced, ScopeOf(request), key)) then outcome == Retry
    else && Covers(fenced, choice.order)
         && SettledAs(fenced, ExpireAll(fenced, choice.order, request.now), request, outcome)
  }

  /** Past the fences a pass waits for a stop it began or found, or for an idle process past its life to stop; is
      placed exactly when a process is open to it; and otherwise shares a launch of its scope or begins one. */
  ghost predicate Proceeds(m: AgentManager.Manager, request: Request, outcome: Outcome) {
    var fenced := AgentManager.Supersede(m, request);
    if |fenced.epochs| != |m.epochs| || (exists key :: Decisions.InTheWay(fenced, ScopeOf(request), key))
       || (exists id :: Decisions.Spent(fenced, id, request.now)) then outcome == Retry
    else if exists id :: Decisions.Open(fenced, id, request) then outcome.Placed? && !outcome.replayed
    else SharedAs(fenced, request, outcome)
  }

  /** The answer of one pass of Acquire, by what it finds. */
  ghost predicate Answers(m: AgentManager.Manager, request: Request, outcome: Outcome) {
    if Screened(m, request) != Retry then outcome == Screened(m, request)
    else if request.session in m.pendingSessions then
      outcome == if Decisions.MayShare(m, request) then Waits(m.nextTicket) else Retry
    else if Fenced(m, request) != Retry then outcome == Fenced(m, request)
    else Proceeds(m, request, outcome)
  }

  lemma ContinuedMeans(m: AgentManager.Manager, request: Request, choice: Choice, outcome: Outcome)
    requires AgentAdmission.Booked(m) && Current(m, request) && request.memory <= m.limits.watermark
    requires Continued(m, request, choice, outcome)
    ensures Proceeds(m, request, outcome)
  {
    hide AgentAdmission.Booked, AgentManager.Supersede, ScopeOf, Prior, Decisions.InTheWay, Candidate, Decisions.Open,
         Decisions.Spent, ExpireAll, SharedAs;
    var fenced := AgentManager.Supersede(m, request);
    AgentAdmission.SupersedeBooked(m, request);
    Decisions.PriorIsInTheWay(fenced, ScopeOf(request));
    if Covers(fenced, choice.order) {
      Decisions.ScanDone(fenced, choice.order, request.now);
      Decisions.SpentIsLive(fenced, request.now);
      Decisions.ScannedOpen(fenced, choice.order, request);
    }
  }

  /** The scan leaves launches, barriers and counters alone. */
  lemma ScanKeeps(m: AgentManager.Manager, order: seq<Name>, request: Request)
    ensures var scanned := ExpireAll(m, order, request.now);
            forall outcome :: SharedAs(scanned, request, outcome) <==> SharedAs(m, request, outcome)
  {
    hide ExpireAll, ScopeOf;
    Decisions.ScanAges(m, order, request.now, NO_NAME);
    Decisions.SameRest(m, ExpireAll(m, order, request.now));
  }

  lemma BeginIsHonest(m: AgentManager.Manager, request: Request)
    ensures Honest(AgentManager.BeginLaunch(m, request), request, Waits(m.nextTicket))
  {
    hide ScopeOf, NewSpec, After, SequenceAfter, FirstLaunch;
  }

  lemma NotSuperseded(m: AgentManager.Manager, request: Request)
    requires !Advances(m, request)
    ensures AgentManager.Supersede(m, request) == m
  {
  }

  lemma PlacedIsTimely(m: AgentManager.Manager, session: Name)
    requires AgentAdmission.Booked(m) && session in m.placements
    ensures m.placements[session].session == session && m.placements[session].generation == Count(m.latest, session)
  {
    hide AgentAdmission.AllLoaded, AgentAdmission.Scoped, AgentAdmission.Claimed;
  }

  predicate Precedes(left: Key, right: Key) {
    left.shardId < right.shardId || (left.shardId == right.shardId && left.generation < right.generation)
  }

  predicate Lighter(shards: map<Name, Shard>, left: Name, right: Name)
    requires left in shards && right in shards
  {
    || |shards[left].sessions| < |shards[right].sessions|
    || (|shards[left].sessions| == |shards[right].sessions| && left < right)
  }

  /** A shard that is not expired can take the request. */
  predicate Suits(shard: Shard, limits: Limits, request: Request) {
    && !(shard.spec.createdAt + limits.lifetime <= request.now)
    && shard.spec.scope == ScopeOf(request) && !shard.draining && |shard.sessions| < limits.sessions
    && request.memory <= Minus(limits.watermark, Used(shard)) && request.memory <= Minus(limits.memory, Used(shard))
  }

  lemma CandidateSuits(m: AgentManager.Manager, id: Name, request: Request)
    ensures Candidate(m, id, request) <==> id in m.shards && Suits(m.shards[id], m.limits, request)
  {
    hide Minus, Used, ScopeOf;
  }

  lemma CandidatesHoused(m: AgentManager.Manager, request: Request)
    ensures forall id | Candidate(m, id, request) :: id in m.shards
  {
  }

  lemma ScanNothing(m: AgentManager.Manager, now: int)
    ensures ExpireAll(m, [], now) == m
  {
  }

  lemma ScanNext(m: AgentManager.Manager, order: seq<Name>, now: int, id: Name)
    ensures ExpireAll(m, order + [id], now) == ExpireOne(ExpireAll(m, order, now), id, now)
  {
    hide ExpireOne;
    assert (order + [id])[..|order|] == order;
  }

  /** Only expired shards that have been visited are changed, and they stay expired. */
  ghost predicate Scanned(m: AgentManager.Manager, n: AgentManager.Manager, order: seq<Name>, now: int, id: Name) {
    && n.limits == m.limits
    && (id in n.shards ==> id in m.shards && n.shards[id].spec == m.shards[id].spec)
    && (id in m.shards && (id !in order || !Expired(m, m.shards[id], now))
        ==> id in n.shards && n.shards[id] == m.shards[id])
  }

  lemma {:induction false} ScanShards(m: AgentManager.Manager, order: seq<Name>, now: int, id: Name)
    ensures Scanned(m, ExpireAll(m, order, now), order, now, id)
  {
    if order != [] {
      var before := ExpireAll(m, order[..|order| - 1], now);
      ScanShards(m, order[..|order| - 1], now, id);
      VisitShards(before, order[|order| - 1], now, id);
    }
  }

  lemma VisitShards(m: AgentManager.Manager, visited: Name, now: int, id: Name)
    ensures Scanned(m, ExpireOne(m, visited, now), [visited], now, id)
  {
    hide AgentManager.Rehouse, Emptied;
    if visited in m.shards && Expired(m, m.shards[visited], now) {
      RehouseShards(m, visited, Drained(m.shards[visited]));
    }
  }

  lemma RehouseOutcome(m: AgentManager.Manager, id: Name, shard: Shard)
    ensures var n := AgentManager.Rehouse(m, id, shard);
            (id in n.shards ==> n.shards[id] == shard) && (id !in n.shards ==> KeyOf(shard.spec) in n.ledger)
  {
    hide EpochsWith;
  }

  lemma RehouseShards(m: AgentManager.Manager, id: Name, shard: Shard)
    ensures AgentManager.Rehouse(m, id, shard).shards == ShardsWith(m.shards, id, shard)
    ensures AgentManager.Rehouse(m, id, shard).limits == m.limits
  {
    hide ShardsWith, EpochsWith, LedgerWith;
  }

  lemma ScanCandidate(m: AgentManager.Manager, n: AgentManager.Manager, request: Request, id: Name)
    requires exists order :: Scanned(m, n, order, request.now, id)
    ensures Candidate(n, id, request) <==> Candidate(m, id, request)
  {
    hide Minus, Used, ScopeOf;
  }

  lemma ScanUnvisited(m: AgentManager.Manager, order: seq<Name>, now: int, id: Name)
    requires id in m.shards && id !in order
    ensures var n := ExpireAll(m, order, now); n.limits == m.limits && id in n.shards && n.shards[id] == m.shards[id]
  {
    hide ExpireAll;
    ScanShards(m, order, now, id);
  }

  lemma ScanCandidates(m: AgentManager.Manager, order: seq<Name>, request: Request)
    ensures forall id :: Candidate(ExpireAll(m, order, request.now), id, request) <==> Candidate(m, id, request)
  {
    hide Candidate, ExpireAll;
    forall id ensures Candidate(ExpireAll(m, order, request.now), id, request) <==> Candidate(m, id, request) {
      ScanShards(m, order, request.now, id);
      ScanCandidate(m, ExpireAll(m, order, request.now), request, id);
    }
  }

  lemma PlacedIsCovered(m: AgentManager.Manager, session: Name)
    requires AgentAdmission.Booked(m) && session in m.placements
    ensures m.placements[session].shardId in m.shards
            && MemoryOf(m, session) <= m.shards[m.placements[session].shardId].estimated
  {
    hide AgentAdmission.Total, AgentAdmission.AllLoaded, AgentAdmission.Scoped, AgentAdmission.Claimed,
         AgentAdmission.AllTimely, AgentAdmission.Seated;
    AgentAdmission.SeatedOnce(m.shards, m.placements, session);
    var id := m.placements[session].shardId;
    AgentAdmission.BookedLoad(m, id);
    AgentAdmission.TotalTake(m.shards[id].sessions.Keys, m.identities, session);
  }

  /** A placed session is in a live shard, whose process is not in the ledger and whose reservation covers it. */
  lemma PlacedIsHoused(m: AgentManager.Manager, session: Name)
    requires Sound(m) && AgentAdmission.Booked(m) && session in m.placements
    ensures m.placements[session].shardId in m.shards
    ensures KeyOf(m.shards[m.placements[session].shardId].spec) !in m.ledger
  {
    hide Sound, AgentAdmission.AllLoaded, AgentAdmission.AllTimely, AgentAdmission.Scoped, AgentAdmission.Claimed;
    LiveNotFiled(m, m.placements[session].shardId);
  }

  /** A ticket is for a known launch that counts it, and an unadopted process is not in the ledger. */
  lemma TicketHolds(m: AgentManager.Manager, ticket: nat)
    requires Sound(m) && ticket in m.claims
    ensures m.claims[ticket].launch in m.launches && 0 < m.launches[m.claims[ticket].launch].waiters
    ensures Holds(m.launches[m.claims[ticket].launch]) ==> KeyOf(m.launches[m.claims[ticket].launch].spec) !in m.ledger
  {
    hide Numbered, Phased, Filed, Chained, Traced, Housed, Barriers, Waiting, Renounced, Gated;
    assert ticket in m.launches[m.claims[ticket].launch].tickets;
  }

  lemma PunchKeeps(m: AgentManager.Manager, ticket: nat)
    requires ticket in m.claims && m.claims[ticket].launch in m.launches
    ensures var n := AgentManager.PunchTicket(m, ticket);
            var g := m.claims[ticket].launch;
            && g in n.launches && n.launches[g].spec == m.launches[g].spec && n.launches[g].phase == m.launches[g].phase
            && (Holds(n.launches[g]) <==> Holds(m.launches[g])) && n.ledger == m.ledger && n.epochs == m.epochs
  {
  }
}
