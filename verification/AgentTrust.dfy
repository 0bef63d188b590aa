/** Unreviewed code over every run: whichever step admits it, its process runs under
    Firecracker and serves that session only, for as long as it is placed there. */
module AgentTrust {
  import opened Common
  import opened AgentManager
  import opened AgentOwnership
  import opened AgentIdentifiers
  import Admission = AgentAdmission
  import Safety = AgentSafety

  /** Waiting callers carry profiles that their trust class allows. */
  ghost predicate Vetted(claims: map<nat, Claim>) {
    forall t | t in claims :: ValidProfile(claims[t].request.trust, claims[t].request.profile)
  }

  /** The request a step acts for. */
  predicate ActsFor(m: Manager, step: Step, request: Request) {
    || (step.AcquireStep? && step.request == request)
    || (step.LeavesStep? && step.ticket in m.claims && m.claims[step.ticket].request == request)
  }

  /** What is newly placed is placed for this request, as it asked. */
  ghost predicate PlacesOnly(before: map<Name, Placement>, after: map<Name, Placement>, request: Request) {
    forall s | s in after && !(s in before && before[s] == after[s]) ::
      && s == request.session && after[s] == PlacementOf(request, after[s].shardId)
      && ValidProfile(request.trust, request.profile)
  }

  lemma FewerPlaces(before: map<Name, Placement>, after: map<Name, Placement>, request: Request)
    requires Fewer(before, after)
    ensures PlacesOnly(before, after, request)
  {
  }

  lemma FewerThenPlaces(before: map<Name, Placement>, middle: map<Name, Placement>, after: map<Name, Placement>,
                        request: Request)
    requires Fewer(before, middle) && PlacesOnly(middle, after, request)
    ensures PlacesOnly(before, after, request)
  {
  }

  // ----- Acquire -----

  lemma PlacePlaces(m: Manager, id: Name, request: Request)
    requires id in m.shards && ValidProfile(request.trust, request.profile)
    ensures PlacesOnly(m.placements, Place(m, id, request).placements, request)
            && Place(m, id, request).claims == m.claims
  {
  }

  lemma TicketsVetted(m: Manager, g: nat, request: Request)
    requires Vetted(m.claims) && ValidProfile(request.trust, request.profile)
    ensures g in m.launches ==> Vetted(Join(m, g, request).claims) && Join(m, g, request).placements == m.placements
    ensures Vetted(BeginLaunch(m, request).claims) && BeginLaunch(m, request).placements == m.placements
  {
    hide ValidProfile, WithTicket, NewSpec, After, SequenceAfter, FirstLaunch, ScopeOf;
  }

  lemma SettlePlaces(m: Manager, request: Request, choice: Choice)
    requires Sound(m) && !m.closed && Vetted(m.claims) && ValidProfile(request.trust, request.profile)
    ensures var n := Settle(m, request, choice); PlacesOnly(m.placements, n.placements, request) && Vetted(n.claims)
  {
    hide Sound, ExpireAll, Place, Join, BeginLaunch, Best, Candidate, PlacesOnly, Vetted, Fewer, ValidProfile;
    var scanned, n := ExpireAll(m, choice.order, request.now), Settle(m, request, choice);
    Safety.ExpireAllSound(m, choice.order, request.now);
    ExpireAllElsewhere(m, choice.order, request.now);
    TicketsVetted(scanned, 0, request);
    FewerSame(m.placements);
    FewerPlaces(m.placements, m.placements, request);
    FewerPlaces(m.placements, scanned.placements, request);
    if exists id :: Candidate(scanned, id, request) {
      if Best(scanned, choice.candidate, request) {
        Safety.BestPlaced(scanned, choice.candidate, request);
        PlacePlaces(scanned, choice.candidate, request);
        FewerThenPlaces(m.placements, scanned.placements, Place(scanned, choice.candidate, request).placements,
                        request);
      }
    } else if ScopeOf(request) in scanned.pendingScopes {
      TicketsVetted(scanned, scanned.pendingScopes[ScopeOf(request)], request);
    }
  }

  lemma FewerSame(placements: map<Name, Placement>)
    ensures Fewer(placements, placements)
  {
  }

  lemma AcquirePlaces(m: Manager, request: Request, choice: Choice)
    requires Sound(m) && Vetted(m.claims)
    ensures var n := Acquire(m, request, choice); PlacesOnly(m.placements, n.placements, request) && Vetted(n.claims)
  {
    hide Sound, Supersede, Settle, Reselect, Join, PlacesOnly, Vetted, Fewer, ValidProfile;
    FewerSame(m.placements);
    FewerPlaces(m.placements, m.placements, request);
    if !m.closed && Admissible(m, request) {
      if request.session in m.pendingSessions {
        TicketsVetted(m, m.pendingSessions[request.session], request);
      } else if Current(m, request) {
        var fenced := Supersede(m, request);
        Safety.SupersedeSound(m, request);
        SupersedeElsewhere(m, request);
        FewerPlaces(m.placements, fenced.placements, request);
        if exists key :: Prior(fenced, ScopeOf(request), key) {
          ReselectElsewhere(fenced, choice.prior);
          var chosen := Reselect(fenced, choice.prior);
          FewerPlaces(fenced.placements, chosen.placements, request);
          FewerThenPlaces(m.placements, fenced.placements, chosen.placements, request);
        } else {
          SettlePlaces(fenced, request, choice);
          FewerThenPlaces(m.placements, fenced.placements, Settle(fenced, request, choice).placements, request);
        }
      }
    }
  }

  // ----- callers leave -----

  lemma PunchVetted(m: Manager, ticket: nat)
    requires ticket in m.claims && m.claims[ticket].launch in m.launches && Vetted(m.claims)
    ensures Vetted(PunchTicket(m, ticket).claims) && PunchTicket(m, ticket).placements == m.placements
  {
    hide ValidProfile;
  }

  /** Nobody is placed and no claim moves. */
  ghost predicate Still(m: Manager, n: Manager) {
    n.placements == m.placements && n.claims == m.claims
  }

  lemma UnbarStill(m: Manager, g: nat, launch: Launch)
    ensures Still(m, Unbar(m, g, launch))
  {
    hide ScopesWithout, SessionsWithout;
  }

  lemma TransferStill(m: Manager, g: nat)
    requires g in m.launches
    ensures Still(m, Transfer(m, g))
  {
    hide Unbar, GiveOnce, TrackOnce, FileOnce;
    UnbarStill(m, g, GiveOnce(m.launches[g], |m.epochs|));
  }

  lemma FailStill(m: Manager, g: nat)
    requires g in m.launches
    ensures Still(m, Fail(m, g))
  {
    hide Unbar, InPhase, Still;
    UnbarStill(m, g, InPhase(m.launches[g], Errored));
  }

  lemma MarkStill(m: Manager, g: nat)
    requires g in m.launches
    ensures Still(m, MarkAbandoned(m, g))
  {
    hide AbandonUnfinished;
  }

  lemma KeepStill(m: Manager, g: nat)
    requires g in m.launches
    ensures Still(m, Keep(m, g)) && Still(m, Reject(m, g))
  {
    hide InPhase;
  }

  lemma GiveUpStill(m: Manager, g: nat)
    requires g in m.launches
    ensures Still(m, GiveUp(m, g))
  {
    hide Transfer, MarkAbandoned;
    TransferStill(m, g);
    MarkStill(m, g);
  }

  lemma AdoptPlaces(m: Manager, claim: Claim)
    requires claim.launch in m.launches && ValidProfile(claim.request.trust, claim.request.profile)
    ensures PlacesOnly(m.placements, Adopt(m, claim).placements, claim.request) && Adopt(m, claim).claims == m.claims
  {
    hide ScopesWithout, SessionsWithout, Forget, NewShard;
  }

  lemma LeavesPlaces(m: Manager, ticket: nat, cancelled: bool)
    requires ticket in m.claims && Vetted(m.claims)
    ensures var n := Leaves(m, ticket, cancelled);
            PlacesOnly(m.placements, n.placements, m.claims[ticket].request) && Vetted(n.claims)
  {
    hide PlacesOnly, Vetted, Fewer, PunchTicket, GiveUp, Transfer, Adopt, ValidProfile;
    var request := m.claims[ticket].request;
    FewerSame(m.placements);
    FewerPlaces(m.placements, m.placements, request);
    VettedAt(m.claims, ticket);
    if MayLeave(m, ticket, cancelled) {
      var punched, claim := PunchTicket(m, ticket), m.claims[ticket];
      PunchVetted(m, ticket);
      PunchSame(m, ticket);
      GiveUpStill(punched, claim.launch);
      TransferStill(punched, claim.launch);
      AdoptPlaces(punched, claim);
    }
  }

  lemma VettedAt(claims: map<nat, Claim>, ticket: nat)
    requires Vetted(claims) && ticket in claims
    ensures ValidProfile(claims[ticket].request.trust, claims[ticket].request.profile)
  {
  }

  // ----- the other steps -----

  lemma ReturnsStill(m: Manager, g: nat, present: bool, valid: bool)
    ensures Still(m, LaunchReturns(m, g, present, valid)) && Still(m, LaunchEnds(m, g))
  {
    hide Fail, Keep, Reject, Wanted;
    if g in m.launches {
      FailStill(m, g);
      KeepStill(m, g);
    }
  }

  lemma {:induction false} TransferAllStill(m: Manager, finished: seq<nat>)
    ensures Still(m, TransferAll(m, finished))
  {
    hide Transfer;
    if finished != [] {
      var before, g := TransferAll(m, finished[..|finished| - 1]), finished[|finished| - 1];
      TransferAllStill(m, finished[..|finished| - 1]);
      if Barred(before, g) {
        TransferStill(before, g);
      }
    }
  }

  lemma CloseStill(m: Manager, finished: seq<nat>)
    ensures Still(m, Close(m, finished))
  {
    hide TransferAll, Barred;
    TransferAllStill(Closed(m), finished);
  }

  lemma OtherPlaces(m: Manager, step: Step)
    requires !step.AcquireStep? && !step.LeavesStep?
    ensures Fewer(m.placements, Next(m, step).placements) && Next(m, step).claims == m.claims
  {
    hide LaunchReturns, LaunchEnds, StartStop, StopReturns, Release, Observe, Close, Drain, Fewer;
    FewerSame(m.placements);
    match step
    case LaunchReturnsStep(g, present, valid) => ReturnsStill(m, g, present, valid);
    case LaunchEndsStep(g) => ReturnsStill(m, g, true, true);
    case StartStopStep(e) => StopsElsewhere(m, e, Unresolved);
    case StopReturnsStep(e, outcome) => StopsElsewhere(m, e, outcome);
    case ReleaseStep(session, generation) => ReleaseElsewhere(m, session, generation);
    case ObserveStep(sample) => ObserveElsewhere(m, sample);
    case CloseStep(finished) => CloseStill(m, finished);
    case DrainStep(ids, keys) => DrainElsewhere(m, ids, keys);
    case ShutdownReturnsStep => StopsElsewhere(m, 0, Unresolved);
  }

  // ----- runs -----

  /** A placement is the work of a step that acts for its request. */
  lemma NextPlaces(m: Manager, step: Step)
    requires Sound(m) && Vetted(m.claims)
    ensures Vetted(Next(m, step).claims)
    ensures !step.AcquireStep? && !step.LeavesStep? ==> Fewer(m.placements, Next(m, step).placements)
    ensures forall request | ActsFor(m, step, request) :: PlacesOnly(m.placements, Next(m, step).placements, request)
  {
    hide Sound, Vetted, PlacesOnly, Fewer, Acquire, Leaves;
    if step.AcquireStep? {
      AcquirePlaces(m, step.request, step.choice);
    } else if step.LeavesStep? {
      if step.ticket in m.claims {
        LeavesPlaces(m, step.ticket, step.cancelled);
      } else {
        NoTicket(m, step.ticket, step.cancelled);
      }
    } else {
      OtherPlaces(m, step);
    }
  }

  lemma NoTicket(m: Manager, ticket: nat, cancelled: bool)
    requires ticket !in m.claims
    ensures Leaves(m, ticket, cancelled) == m
  {
  }

  lemma {:induction false} RunVetted(limits: Limits, steps: seq<Step>)
    ensures Vetted(Run(Initial(limits), steps).claims)
  {
    hide Next, ActsFor, PlacesOnly;
    if steps != [] {
      var front := steps[..|steps| - 1];
      RunVetted(limits, front);
      Safety.RunSound(limits, front);
      NextPlaces(Run(Initial(limits), front), steps[|steps| - 1]);
    }
  }

  lemma {:induction false} RunJoins(m: Manager, steps: seq<Step>, more: seq<Step>)
    ensures Run(Run(m, steps), more) == Run(m, steps + more)
  {
    hide Next;
    if more == [] {
      assert steps + more == steps;
    } else {
      var front := more[..|more| - 1];
      RunJoins(m, steps, front);
      assert (steps + more)[..|steps + more| - 1] == steps + front;
    }
  }

  /** The request asks for unreviewed code. */
  lemma UnreviewedProfile(request: Request)
    requires request.trust == Unreviewed && ValidProfile(request.trust, request.profile)
    ensures request.profile == Profile(SessionScope, Firecracker)
  {
  }

  /** A step places an unreviewed request; from then on, in every run, as long as the session stays
      where it was placed, its shard is a Firecracker process that holds no other session. */
  lemma UnreviewedIsAlone(limits: Limits, steps: seq<Step>, step: Step, request: Request, more: seq<Step>)
    requires ValidLimits(limits) && request.trust == Unreviewed
    requires var m := Run(Initial(limits), steps);
             var n := Next(m, step);
             && ActsFor(m, step, request) && request.session in n.placements
             && !(request.session in m.placements && m.placements[request.session] == n.placements[request.session])
             && request.session in Run(n, more).placements
             && Run(n, more).placements[request.session] == n.placements[request.session]
    ensures var k := Run(Next(Run(Initial(limits), steps), step), more);
            var id := k.placements[request.session].shardId;
            && id in k.shards && k.shards[id].sessions.Keys == {request.session}
            && k.shards[id].spec.scope == ScopeKey(Profile(SessionScope, Firecracker), request.session)
  {
    hide Next, Sound, Initial, Admission.Booked, ValidProfile;
    var m := Run(Initial(limits), steps);
    var n := Next(m, step);
    Safety.RunSound(limits, steps);
    RunVetted(limits, steps);
    NextPlaces(m, step);
    UnreviewedProfile(request);
    assert Run(Initial(limits), steps + [step]) == n by {
      assert (steps + [step])[..|steps|] == steps;
    }
    RunJoins(Initial(limits), steps + [step], more);
    AloneInShard(limits, steps + [step] + more, request.session);
  }

  /** A session-scoped placement has its shard to itself. */
  lemma AloneInShard(limits: Limits, steps: seq<Step>, session: Name)
    requires ValidLimits(limits) && session in Run(Initial(limits), steps).placements
    requires Run(Initial(limits), steps).placements[session].profile.scope == SessionScope
    ensures var m := Run(Initial(limits), steps);
            var placement := m.placements[session];
            && placement.shardId in m.shards && m.shards[placement.shardId].sessions.Keys == {session}
            && m.shards[placement.shardId].spec.scope == ScopeKey(placement.profile, session)
  {
    hide Run, Initial, Admission.AllLoaded, Admission.AllTimely, Admission.Claimed;
    Admission.RunBooked(limits, steps);
    var m := Run(Initial(limits), steps);
    var id := m.placements[session].shardId;
    forall other | other in m.shards[id].sessions ensures other == session {
      Admission.ScopesIsolated(limits, steps, id, session, other);
    }
  }
}
