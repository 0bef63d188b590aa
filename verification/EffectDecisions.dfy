/** What a decision about an effect comes to: each client's request with the exact condition under
    which the store takes it and the effect it leaves, and which ledger answers stand behind a settlement. */
module EffectDecisions {
  import opened Common
  import opened EffectBroker

  // ----- what is on record -----

  /** A dispatched attempt has its permit, and a reservation is the last event. */
  predicate Recorded(effect: Effect) {
    && (effect.stage == Dispatched || effect.stage == Blocked ==>
          effect.dispatch.Dispatch? && effect.dispatch.attempt == effect.attempt && 1 <= effect.attempt)
    && (effect.retry.Reserved? ==> effect.retry.preparation.sequence == effect.sequence && 1 <= effect.sequence)
    && (effect.stage == Blocked ==> effect.start == NotStarted)
  }

  ghost predicate AllRecorded(w: World) {
    && Recorded(w.effect) && Regular(w.effect) && Chained(w)
    && (forall i | 0 <= i < |w.history| :: Recorded(w.history[i]) && Regular(w.history[i]))
  }

  lemma AcceptRecorded(now: Effect, command: Command)
    requires Recorded(now) && Regular(now)
    ensures Recorded(Accept(now, command))
  {
  }

  lemma NextRecorded(w: World, step: Step)
    requires AllRecorded(w) && Sound(w)
    ensures AllRecorded(Next(w, step))
  {
    hide Accept, Regular, Chained, Fresh, Confirms, CommandOf, Recorded;
    NextSound(w, step);
    NextChained(w, step);
    AcceptRecorded(w.effect, CommandOf(w, step));
    AbortRecorded(w.effect);
  }

  lemma AbortRecorded(effect: Effect)
    requires Recorded(effect)
    ensures Recorded(Advance(effect).(abort := true))
  {
  }

  lemma {:induction false} RunRecorded(policy: Policy, deadline: int, lease: int, steps: seq<Step>)
    ensures var w := Run(Begin(policy, deadline, lease), steps); AllRecorded(w) && Sound(w)
  {
    hide Next, Sound, AllRecorded;
    RunSound(policy, deadline, lease, steps);
    if steps == [] {
      BeginRecorded(policy, deadline, lease);
    } else {
      var front := steps[..|steps| - 1];
      RunRecorded(policy, deadline, lease, front);
      NextRecorded(Run(Begin(policy, deadline, lease), front), steps[|steps| - 1]);
    }
  }

  lemma BeginRecorded(policy: Policy, deadline: int, lease: int)
    ensures AllRecorded(Begin(policy, deadline, lease))
  {
  }

  // ----- decisions -----

  /** The client has seen the effect as it is. */
  predicate UpToDate(w: World, seen: nat) {
    seen < |w.history| && w.history[seen] == w.effect
  }

  /** One event more; whatever was reserved is void. */
  predicate Event(before: Effect, after: Effect) {
    && after.sequence == before.sequence + 1 && after.policy == before.policy && after.lease == before.lease
  }

  /** The attempt after the current one is on its way, under a permit of its own. */
  predicate GoesOut(before: Effect, after: Effect, request: Name, route: Name, deadline: int) {
    && Event(before, after) && after.stage == Dispatched && after.attempt == before.attempt + 1
    && after.start == NotStarted && after.retry == NoRetry
    && after.dispatch == Dispatch(after.attempt, after.sequence, request, route, deadline)
    && after.preparation == before.preparation && after.abort == before.abort
  }

  /** Only the stage moves. */
  predicate Turns(before: Effect, after: Effect, stage: Stage) {
    && Event(before, after) && after.stage == stage && after.retry == NoRetry
    && after.attempt == before.attempt && after.dispatch == before.dispatch && after.start == before.start
    && after.preparation == before.preparation && after.abort == before.abort
  }

  /** A prepared effect goes out exactly for the holder of its preparation, in time, with a route and not aborted. */
  lemma AdmitDecided(policy: Policy, deadline: int, lease: int, steps: seq<Step>, seen: nat, authority: Authority,
                     preparation: Preparation, request: Name, route: Name)
    ensures var w := Run(Begin(policy, deadline, lease), steps);
            var after := After(w, AdmitStep(seen, authority, preparation, request, route));
            if && UpToDate(w, seen) && w.effect.stage == Prepared && !w.effect.abort
               && w.effect.preparation == preparation && preparation.deadline == authority.deadline
               && authority.now < authority.deadline
               && authority.deadline <= authority.expires && authority.now < w.effect.lease && route != NO_NAME
            then GoesOut(w.effect, after, request, route, authority.deadline) else after == w.effect
  {
    hide Run, Chained;
    RunRecorded(policy, deadline, lease, steps);
  }

  /** A start is recorded exactly for the holder of the current permit, before its deadline, while nobody has
      started the attempt, nobody has reserved another and the turn is not aborted. */
  lemma ClaimDecided(policy: Policy, deadline: int, lease: int, steps: seq<Step>, seen: nat, now: int,
                     permit: Dispatch, command: Name, delivered: bool)
    ensures var w := Run(Begin(policy, deadline, lease), steps);
            var step := ClaimStep(seen, now, permit, command, delivered);
            var after := After(w, step);
            if && UpToDate(w, seen) && w.effect.stage == Dispatched && w.effect.start == NotStarted
               && w.effect.retry == NoRetry && !w.effect.abort && command != NO_NAME
               && permit.Dispatch? && permit == w.effect.dispatch && now < permit.deadline
            then && Event(w.effect, after)
                 && after == w.effect.(start := Started(command), sequence := after.sequence)
                 && Next(w, step).claims == (if delivered then w.claims + [w.effect.attempt] else w.claims)
            else after == w.effect && Next(w, step).claims == w.claims
  {
    hide Run, Chained;
    RunRecorded(policy, deadline, lease, steps);
  }

  /** A claim that was delivered starts the provider, once. */
  lemma StartDecided(policy: Policy, deadline: int, lease: int, steps: seq<Step>)
    ensures var w := Run(Begin(policy, deadline, lease), steps);
            var n := Next(w, StartStep);
            if w.claims != [] then w.claims == [w.effect.attempt] && n == w.(claims := [], starts := [w.effect.attempt])
            else n == w
  {
    hide Run;
    RunSound(policy, deadline, lease, steps);
    var w := Run(Begin(policy, deadline, lease), steps);
    if w.claims != [] {
      assert |w.claims| == 1 && w.claims == [w.claims[0]] && w.starts == [];
    }
  }

  /** An external commit is recorded exactly when the ledger has it and the attempt is out or blocked. */
  lemma ConfirmDecided(policy: Policy, deadline: int, lease: int, steps: seq<Step>, seen: nat, ledger: LedgerStatus)
    ensures var w := Run(Begin(policy, deadline, lease), steps);
            var after := After(w, ConfirmStep(seen, ledger));
            if UpToDate(w, seen) && ledger == Committed && (w.effect.stage == Dispatched || w.effect.stage == Blocked)
            then Turns(w.effect, after, ExternallyCommitted) else after == w.effect
  {
    hide Run, Chained;
    RunRecorded(policy, deadline, lease, steps);
  }

  /** An effect is completed exactly after its external commit. */
  lemma SettleDecided(policy: Policy, deadline: int, lease: int, steps: seq<Step>, seen: nat)
    ensures var w := Run(Begin(policy, deadline, lease), steps);
            var after := After(w, SettleStep(seen));
            if UpToDate(w, seen) && w.effect.stage == ExternallyCommitted
            then Turns(w.effect, after, Settled(Completed)) else after == w.effect
  {
    hide Run, Chained;
    RunRecorded(policy, deadline, lease, steps);
  }

  /** A reserved retry goes out exactly for the holder of the reservation. */
  lemma RetryDecided(policy: Policy, deadline: int, lease: int, steps: seq<Step>, seen: nat, authority: Authority,
                     preparation: Preparation, request: Name, route: Name)
    ensures var w := Run(Begin(policy, deadline, lease), steps);
            var after := After(w, RetryStep(seen, authority, preparation, request, route));
            if && w.effect.retry.Reserved? && w.effect.retry.preparation == preparation
               && preparation.deadline == authority.deadline && seen < |w.history|
               && (w.history[seen] == w.effect
                   || w.effect == w.history[seen].(sequence := w.history[seen].sequence + 1, retry := w.effect.retry))
            then GoesOut(w.effect, after, request, route, authority.deadline) else after == w.effect
  {
    hide Run, Chained;
    RunRecorded(policy, deadline, lease, steps);
    var w := Run(Begin(policy, deadline, lease), steps);
    if After(w, RetryStep(seen, authority, preparation, request, route)) != w.effect {
      StaleIsInert(policy, deadline, lease, steps, RetryStep(seen, authority, preparation, request, route));
    }
  }

  /** A turn is aborted for good unless the effect is settled; whatever was reserved is void. */
  lemma AbortDecided(policy: Policy, deadline: int, lease: int, steps: seq<Step>)
    ensures var w := Run(Begin(policy, deadline, lease), steps);
            var after := After(w, AbortStep);
            if w.effect.stage.Settled? then after == w.effect
            else after.abort && Turns(w.effect.(abort := true), after, w.effect.stage)
  {
    hide Run;
  }

  // ----- recovery -----

  /** A live authority: now is before its deadline and its expiry, and neither outlives the lease. */
  predicate Alive(authority: Authority, lease: int) {
    && authority.now < authority.deadline && authority.now < authority.expires && authority.now < lease
    && authority.deadline <= authority.expires && authority.deadline <= lease
  }

  /** The next attempt is reserved under a new preparation; nothing else moves. */
  predicate Reserves(before: Effect, after: Effect, operation: Name, deadline: int) {
    && Event(before, after)
    && after == before.(sequence := after.sequence,
                        retry := Reserved(Preparation(before.attempt + 1, after.sequence, deadline, after.sequence),
                                          operation))
  }

  /** No reservation stands in the way. */
  predicate Vacant(effect: Effect, clock: int) {
    effect.retry == NoRetry || effect.retry.preparation.deadline <= clock
  }

  /** What recovery makes of an effect that has been dispatched and that the ledger does not know. */
  predicate Uncertain(before: Effect, after: Effect, authority: Authority, clock: int, operation: Name) {
    if before.start.Started? then after == before
    else if before.policy == Never then Turns(before, after, Settled(Interrupted))
    else if before.policy == Confirm then Turns(before, after, Blocked)
    else if before.abort then Turns(before, after, Settled(Interrupted))
    else if Alive(authority, before.lease) && Vacant(before, clock)
    then Reserves(before, after, operation, authority.deadline)
    else after == before
  }

  /** What recovery makes of an effect as it is. */
  predicate Recovers(before: Effect, after: Effect, authority: Authority, clock: int, operation: Name,
                     ledger: LedgerStatus, confirmed: bool) {
    match before.stage
    case Prepared =>
      if before.abort then Turns(before, after, Settled(Interrupted))
      else if before.preparation.deadline <= authority.now && before.preparation.deadline <= clock
              && Alive(authority, before.lease)
      then && Event(before, after)
           && after == before.(sequence := after.sequence,
                               preparation := Preparation(1, after.sequence, authority.deadline, after.sequence))
      else after == before
    case Dispatched =>
      (match ledger
       case Committed => Turns(before, after, ExternallyCommitted)
       case Inflight => after == before
       case FailedThere => Turns(before, after, Settled(Failed))
       case Absent => Uncertain(before, after, authority, clock, operation)
       case Unknown => Uncertain(before, after, authority, clock, operation))
    case Blocked =>
      if before.abort then Turns(before, after, Settled(Interrupted))
      else if confirmed && Alive(authority, before.lease) && Vacant(before, clock)
      then Reserves(before, after, operation, authority.deadline)
      else after == before
    case ExternallyCommitted => after == before
    case Settled(_) => after == before
  }

  /** In every reachable state recovery from an up-to-date view has exactly these outcomes, and from any other none. */
  lemma RecoverDecided(policy: Policy, deadline: int, lease: int, steps: seq<Step>, seen: nat, authority: Authority,
                       clock: int, operation: Name, ledger: LedgerStatus, confirmed: bool)
    ensures var w := Run(Begin(policy, deadline, lease), steps);
            var after := After(w, RecoverStep(seen, authority, clock, operation, ledger, confirmed));
            if UpToDate(w, seen) then Recovers(w.effect, after, authority, clock, operation, ledger, confirmed)
            else after == w.effect
  {
    hide Run, Chained;
    RunRecorded(policy, deadline, lease, steps);
    var w := Run(Begin(policy, deadline, lease), steps);
    if UpToDate(w, seen) {
      RecoverTable(w.effect, authority, clock, operation, ledger, confirmed);
    } else {
      RecoverStale(w, RecoverStep(seen, authority, clock, operation, ledger, confirmed));
    }
  }

  lemma RecoverTable(now: Effect, authority: Authority, clock: int, operation: Name, ledger: LedgerStatus,
                     confirmed: bool)
    requires Regular(now) && Recorded(now)
    ensures Recovers(now, Accept(now, Recover(now, authority, clock, operation, ledger, confirmed)), authority, clock,
                     operation, ledger, confirmed)
  {
  }

  lemma RecoverStale(w: World, step: Step)
    requires step.RecoverStep? && !UpToDate(w, step.seen)
    ensures After(w, step) == w.effect
  {
  }

  // ----- what stands behind a settlement -----

  /** A confirmation or a recovery, told this by the ledger, brought the effect to this stage. */
  ghost predicate Told(start: World, steps: seq<Step>, i: nat, ledger: LedgerStatus, stage: Stage) {
    && i < |steps| && (steps[i].ConfirmStep? || steps[i].RecoverStep?) && steps[i].ledger == ledger
    && var before := Run(start, steps[..i]);
       before.effect.stage != stage && Next(before, steps[i]).effect.stage == stage
  }

  lemma {:induction false} ToldStays(start: World, steps: seq<Step>, more: seq<Step>, i: nat, ledger: LedgerStatus,
                                     stage: Stage)
    requires Told(start, steps, i, ledger, stage)
    ensures Told(start, steps + more, i, ledger, stage)
  {
    hide Run, Next;
    assert (steps + more)[..i] == steps[..i] && (steps + more)[i] == steps[i];
  }

  /** Over every run an effect is committed or completed only after the ledger said "committed", and failed only
      after the ledger said "failed". */
  lemma {:induction false} SettledByTheLedger(policy: Policy, deadline: int, lease: int, steps: seq<Step>)
    ensures var start := Begin(policy, deadline, lease);
            var stage := Run(start, steps).effect.stage;
            && (stage == ExternallyCommitted || stage == Settled(Completed) ==>
                  exists i :: Told(start, steps, i, Committed, ExternallyCommitted))
            && (stage == Settled(Failed) ==> exists i :: Told(start, steps, i, FailedThere, Settled(Failed)))
  {
    hide Run, Next, Told;
    var start := Begin(policy, deadline, lease);
    if steps == [] {
      NothingTold(start);
    } else {
      var front, last := steps[..|steps| - 1], steps[|steps| - 1];
      SettledByTheLedger(policy, deadline, lease, front);
      RunRecorded(policy, deadline, lease, front);
      LastStep(start, steps);
      assert steps == front + [last];
      StageMoves(Run(start, front), last);
      if i :| Told(start, front, i, Committed, ExternallyCommitted) {
        ToldStays(start, front, [last], i, Committed, ExternallyCommitted);
      }
      if i :| Told(start, front, i, FailedThere, Settled(Failed)) {
        ToldStays(start, front, [last], i, FailedThere, Settled(Failed));
      }
      ToldNow(start, steps);
    }
  }

  lemma NothingTold(start: World)
    ensures Run(start, []) == start
  {
  }

  lemma LastStep(start: World, steps: seq<Step>)
    requires steps != []
    ensures Run(start, steps) == Next(Run(start, steps[..|steps| - 1]), steps[|steps| - 1])
  {
    hide Next;
  }

  lemma ToldNow(start: World, steps: seq<Step>)
    requires steps != []
    ensures var front, last := steps[..|steps| - 1], steps[|steps| - 1];
            var stage := Next(Run(start, front), last).effect.stage;
            (last.ConfirmStep? || last.RecoverStep?) && Run(start, front).effect.stage != stage ==>
              Told(start, steps, |steps| - 1, last.ledger, stage)
  {
    hide Run, Next;
  }

  lemma StageMoves(w: World, step: Step)
    requires AllRecorded(w)
    ensures var stage := Next(w, step).effect.stage;
            stage != w.effect.stage ==>
              && (stage == ExternallyCommitted ==> (step.ConfirmStep? || step.RecoverStep?) && step.ledger == Committed)
              && (stage == Settled(Completed) ==> w.effect.stage == ExternallyCommitted)
              && (stage == Settled(Failed) ==> step.RecoverStep? && step.ledger == FailedThere)
  {
    hide Chained, Fresh, Confirms, Regular, Recorded;
  }

  /** While the provider's call is in flight recovery leaves a dispatched effect alone, whatever it has seen. */
  lemma InflightWaits(policy: Policy, deadline: int, lease: int, steps: seq<Step>, step: Step)
    requires step.RecoverStep? && step.ledger == Inflight
    requires Run(Begin(policy, deadline, lease), steps).effect.stage == Dispatched
    ensures var w := Run(Begin(policy, deadline, lease), steps); After(w, step) == w.effect
  {
    hide Run, Recovers, After;
    RecoverDecided(policy, deadline, lease, steps, step.seen, step.authority, step.clock, step.operation, step.ledger,
                   step.confirmed);
    InflightLeaves(Run(Begin(policy, deadline, lease), steps).effect, step);
  }

  lemma InflightLeaves(before: Effect, step: Step)
    requires before.stage == Dispatched && step.RecoverStep? && step.ledger == Inflight
    ensures forall after ::
              Recovers(before, after, step.authority, step.clock, step.operation, step.ledger, step.confirmed)
              ==> after == before
  {
  }

  // ----- confirmations -----

  /** The recoveries the user has confirmed. */
  function Confirmed(steps: seq<Step>): nat {
    if steps == [] then 0 else
    Confirmed(steps[..|steps| - 1])
      + (if steps[|steps| - 1].RecoverStep? && steps[|steps| - 1].confirmed then 1 else 0)
  }

  /** An effect that needs confirmation has at most one attempt more than the user has confirmed recoveries. */
  lemma ConfirmedAttempts(deadline: int, lease: int, steps: seq<Step>)
    ensures Run(Begin(Confirm, deadline, lease), steps).effect.attempt <= 1 + Confirmed(steps)
  {
    ConfirmNeedsTheUser(deadline, lease, steps);
    Counted(Begin(Confirm, deadline, lease), steps);
  }

  lemma {:induction false} Counted(start: World, steps: seq<Step>)
    requires start.confirmations == 0
    ensures Run(start, steps).confirmations <= Confirmed(steps)
  {
    hide After, Fresh;
    if steps != [] {
      Counted(start, steps[..|steps| - 1]);
    }
  }
}
