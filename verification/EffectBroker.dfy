/** One external effect under the atomic store contract: coordinators read
    snapshots, decide, and send commands that the store applies only to the very
    state the decision was made on; consumers start the provider on a fresh claim. */
module EffectBroker {
  import opened Common

  datatype Policy = Safe | IdempotencyKey | Never | Confirm

  datatype Stage = Prepared | Dispatched | ExternallyCommitted | Blocked | Settled(how: Settlement)

  datatype Settlement = Completed | Failed | Interrupted

  /** Proof that an attempt was prepared; it does not allow external work. */
  datatype Preparation = Preparation(attempt: nat, proof: nat, deadline: int, sequence: nat)

  /** The permit for one dispatch attempt. */
  datatype Dispatch = NoDispatch | Dispatch(attempt: nat, proof: nat, request: Name, route: Name, deadline: int)

  datatype Start = NotStarted | Started(command: Name)

  datatype Reservation = NoRetry | Reserved(preparation: Preparation, operation: Name)

  /** The effect as the store holds it, with the turn's abort flag, lease and event sequence. */
  datatype Effect = Effect(policy: Policy, stage: Stage, attempt: nat, preparation: Preparation, dispatch: Dispatch,
                           start: Start, retry: Reservation, abort: bool, lease: int, sequence: nat)

  function Genesis(policy: Policy, deadline: int, lease: int): Effect {
    Effect(policy, Prepared, 0, Preparation(1, 1, deadline, 1), NoDispatch, NotStarted, NoRetry, false, lease, 1)
  }

  // ----- what coordinators may ask of the store -----

  datatype Command =
    | MarkDispatched(snapshot: Effect, preparation: Preparation, request: Name, route: Name, deadline: int)
    | ClaimStart(snapshot: Effect, dispatch: Dispatch, command: Name)
    | MarkExternallyCommitted(snapshot: Effect)
    | SettleEffect(snapshot: Effect)
    | BlockEffect(snapshot: Effect)
    | PrepareRetry(snapshot: Effect, operation: Name, now: int, deadline: int, confirmed: bool)
    | SettleRecovery(snapshot: Effect, how: Settlement)
    | NoCommand

  datatype Authority = Authority(now: int, expires: int, deadline: int)

  predicate Current(authority: Authority, effect: Effect) {
    && authority.now < authority.deadline && authority.now < authority.expires
    && authority.deadline <= authority.expires
    && authority.now < effect.lease && authority.deadline <= effect.lease
  }

  // ----- the coordinator: decisions on a snapshot -----

  /** AdmitDispatch without a retained receipt. */
  function Admit(seen: Effect, authority: Authority, preparation: Preparation, request: Name, route: Name): Command {
    if authority.now >= authority.deadline || authority.deadline > authority.expires || route == NO_NAME then NoCommand
    else if authority.now >= seen.lease || seen.abort || seen.stage != Prepared then NoCommand
    else if preparation != seen.preparation || preparation.attempt != seen.attempt + 1
            || preparation.deadline != authority.deadline then NoCommand
    else MarkDispatched(seen, preparation, request, route, authority.deadline)
  }

  /** The permit is the one the snapshot's dispatch came from. */
  predicate Matches(seen: Effect, permit: Dispatch) {
    && seen.dispatch.Dispatch? && permit.Dispatch?
    && permit.attempt == seen.attempt == seen.dispatch.attempt
    && permit.request == seen.dispatch.request && permit.route == seen.dispatch.route
    && permit.deadline == seen.dispatch.deadline
  }

  function Claim(seen: Effect, now: int, permit: Dispatch, command: Name): Command {
    if permit.NoDispatch? || command == NO_NAME || now >= permit.deadline then NoCommand
    else if seen.abort || seen.stage != Dispatched || !Matches(seen, permit) then NoCommand
    else ClaimStart(seen, permit, command)
  }

  datatype LedgerStatus = Absent | Inflight | Committed | FailedThere | Unknown

  function ConfirmCommit(seen: Effect, ledger: LedgerStatus): Command {
    if (seen.stage == Dispatched || seen.stage == Blocked) && ledger == Committed then MarkExternallyCommitted(seen)
    else NoCommand
  }

  function Settle(seen: Effect): Command {
    if seen.stage == ExternallyCommitted then SettleEffect(seen) else NoCommand
  }

  /** `clock` is the store's time when a retry arrives there. */
  function Recover(seen: Effect, authority: Authority, clock: int, operation: Name, ledger: LedgerStatus,
                   confirmed: bool): Command {
    match seen.stage
    case Prepared =>
      if seen.abort then SettleRecovery(seen, Interrupted)
      else if authority.now < seen.preparation.deadline then NoCommand
      else if Current(authority, seen) then PrepareRetry(seen, operation, clock, authority.deadline, false)
      else NoCommand
    case ExternallyCommitted => NoCommand
    case Settled(_) => NoCommand
    case Blocked =>
      if seen.abort then SettleRecovery(seen, Interrupted)
      else if confirmed && seen.policy == Confirm && Current(authority, seen)
      then PrepareRetry(seen, operation, clock, authority.deadline, true)
      else NoCommand
    case Dispatched => RecoverDispatched(seen, authority, clock, operation, ledger)
  }

  function RecoverDispatched(seen: Effect, authority: Authority, clock: int, operation: Name,
                             ledger: LedgerStatus): Command {
    if ledger == Committed then MarkExternallyCommitted(seen)
    else if ledger == Inflight then NoCommand
    else if ledger == FailedThere then SettleRecovery(seen, Failed)
    else if seen.start.Started? then NoCommand
    else if seen.policy == Never then SettleRecovery(seen, Interrupted)
    else if seen.policy == Confirm then BlockEffect(seen)
    else if seen.abort then SettleRecovery(seen, Interrupted)
    else if Current(authority, seen) then PrepareRetry(seen, operation, clock, authority.deadline, false)
    else NoCommand
  }

  /** The second half of a retry: dispatch what PrepareRetry handed out, against the event it was made on. */
  function DispatchRetry(seen: Effect, authority: Authority, preparation: Preparation, request: Name,
                         route: Name): Command {
    if seen.stage != Dispatched && seen.stage != Blocked then NoCommand
    else if preparation.attempt != seen.attempt + 1 || preparation.deadline != authority.deadline
            || preparation.sequence == 0 then NoCommand
    else if preparation.sequence != seen.sequence && preparation.sequence - 1 != seen.sequence then NoCommand
    else MarkDispatched(seen.(sequence := preparation.sequence - 1), preparation, request, route, authority.deadline)
  }

  // ----- the store -----

  /** Every accepted mutation is a new event, and supersedes a reservation. */
  function Advance(effect: Effect): Effect {
    effect.(sequence := effect.sequence + 1, retry := NoRetry)
  }

  predicate FirstDispatch(now: Effect, command: Command)
    requires command.MarkDispatched?
  {
    command.snapshot == now && now.stage == Prepared && command.preparation == now.preparation
  }

  /** The reservation is still the last event, and nothing else has changed since. */
  predicate RetryDispatch(now: Effect, command: Command)
    requires command.MarkDispatched?
  {
    && now.retry.Reserved? && now.retry.preparation == command.preparation
    && command.preparation.sequence == now.sequence && command.snapshot.sequence + 1 == now.sequence
    && command.snapshot.stage == now.stage && command.snapshot.attempt == now.attempt
    && command.snapshot.dispatch == now.dispatch
  }

  function Dispatching(now: Effect, command: Command): Effect
    requires command.MarkDispatched?
  {
    Advance(now).(stage := Dispatched, attempt := command.preparation.attempt, start := NotStarted,
                  dispatch := Dispatch(command.preparation.attempt, now.sequence + 1, command.request, command.route,
                                       command.deadline))
  }

  /** A start claim compares the exact permit and excludes a reserved retry. */
  predicate Claimable(now: Effect, command: Command)
    requires command.ClaimStart?
  {
    command.snapshot == now && now.stage == Dispatched && command.dispatch == now.dispatch && now.retry == NoRetry
  }

  predicate Renewable(now: Effect, command: Command)
    requires command.PrepareRetry?
  {
    command.snapshot == now && now.stage == Prepared && !now.abort && now.preparation.deadline <= command.now
  }

  /** A retry is reserved only for an attempt that was never started; an earlier reservation
      stands in the way until its deadline has passed. */
  predicate Reservable(now: Effect, command: Command)
    requires command.PrepareRetry?
  {
    && command.snapshot == now && (now.stage == Dispatched || now.stage == Blocked) && now.start == NotStarted
    && (now.retry == NoRetry || now.retry.preparation.deadline <= command.now)
  }

  function Accept(now: Effect, command: Command): Effect {
    match command
    case MarkDispatched(_, _, _, _, _) =>
      if FirstDispatch(now, command) || RetryDispatch(now, command) then Dispatching(now, command) else now
    case ClaimStart(_, _, name) =>
      if Claimable(now, command) && now.start == NotStarted then Advance(now).(start := Started(name)) else now
    case MarkExternallyCommitted(snapshot) =>
      if snapshot == now && (now.stage == Dispatched || now.stage == Blocked)
      then Advance(now).(stage := ExternallyCommitted) else now
    case SettleEffect(snapshot) =>
      if snapshot == now && now.stage == ExternallyCommitted then Advance(now).(stage := Settled(Completed)) else now
    case BlockEffect(snapshot) =>
      if snapshot == now && now.stage == Dispatched && now.start == NotStarted then Advance(now).(stage := Blocked)
      else now
    case PrepareRetry(_, operation, _, deadline, _) =>
      if Renewable(now, command)
      then Advance(now).(preparation := Preparation(1, now.sequence + 1, deadline, now.sequence + 1))
      else if Reservable(now, command) then
        Advance(now).(retry := Reserved(Preparation(now.attempt + 1, now.sequence + 1, deadline, now.sequence + 1),
                                        operation))
      else now
    case SettleRecovery(snapshot, how) =>
      if snapshot != now then now
      else if how == Interrupted && now.start == NotStarted
              && (now.stage == Prepared || now.stage == Dispatched || now.stage == Blocked)
      then Advance(now).(stage := Settled(Interrupted))
      else if how == Failed && now.stage == Dispatched then Advance(now).(stage := Settled(Failed))
      else now
    case NoCommand => now
  }

  // ----- runs -----

  /** The store, fresh claims not yet used, provider starts so far, and user-confirmed retries. */
  datatype World = World(effect: Effect, history: seq<Effect>, claims: seq<nat>, starts: seq<nat>, confirmations: nat)

  /** Clients act on any version of the effect that was ever stored. */
  datatype Step =
    | AdmitStep(seen: nat, authority: Authority, preparation: Preparation, request: Name, route: Name)
    | ClaimStep(seen: nat, now: int, permit: Dispatch, command: Name, delivered: bool)
    | StartStep
    | ConfirmStep(seen: nat, ledger: LedgerStatus)
    | SettleStep(seen: nat)
    | RecoverStep(seen: nat, authority: Authority, clock: int, operation: Name, ledger: LedgerStatus, confirmed: bool)
    | RetryStep(seen: nat, authority: Authority, preparation: Preparation, request: Name, route: Name)
    | AbortStep

  function CommandOf(w: World, step: Step): Command {
    if step.StartStep? || step.AbortStep? || step.seen >= |w.history| then NoCommand else
    var seen := w.history[step.seen];
    match step
    case AdmitStep(_, authority, preparation, request, route) => Admit(seen, authority, preparation, request, route)
    case ClaimStep(_, now, permit, command, _) => Claim(seen, now, permit, command)
    case StartStep => NoCommand
    case ConfirmStep(_, ledger) => ConfirmCommit(seen, ledger)
    case SettleStep(_) => Settle(seen)
    case RecoverStep(_, authority, clock, operation, ledger, confirmed) =>
      Recover(seen, authority, clock, operation, ledger, confirmed)
    case RetryStep(_, authority, preparation, request, route) =>
      DispatchRetry(seen, authority, preparation, request, route)
    case AbortStep => NoCommand
  }

  function After(w: World, step: Step): Effect {
    if step.AbortStep? then (if w.effect.stage.Settled? then w.effect else Advance(w.effect).(abort := true))
    else Accept(w.effect, CommandOf(w, step))
  }

  /** The claim that comes back is fresh when this very command recorded the start. */
  predicate Fresh(w: World, step: Step) {
    step.ClaimStep? && w.effect.start == NotStarted && After(w, step).start.Started?
  }

  /** A user-confirmed request reserved another attempt. */
  predicate Confirms(w: World, step: Step) {
    step.RecoverStep? && step.confirmed && w.effect.retry == NoRetry && After(w, step).retry.Reserved?
  }

  function Next(w: World, step: Step): World {
    if step.StartStep? then
      if w.claims == [] then w else w.(claims := w.claims[1..], starts := w.starts + [w.claims[0]])
    else
      World(After(w, step), w.history + [After(w, step)],
            if Fresh(w, step) && step.delivered then w.claims + [w.effect.attempt] else w.claims,
            w.starts,
            if Confirms(w, step) then w.confirmations + 1 else w.confirmations)
  }

  function Begin(policy: Policy, deadline: int, lease: int): World {
    World(Genesis(policy, deadline, lease), [Genesis(policy, deadline, lease)], [], [], 0)
  }

  function Run(w: World, steps: seq<Step>): World {
    if steps == [] then w else Next(Run(w, steps[..|steps| - 1]), steps[|steps| - 1])
  }

  // ----- invariant -----

  /** What is true of every stored version. */
  predicate Regular(effect: Effect) {
    && (effect.stage == Prepared
        ==> effect.attempt == 0 && effect.dispatch == NoDispatch && effect.start == NotStarted
            && effect.retry == NoRetry)
    && effect.preparation.attempt == 1
    && (effect.start.Started?
        ==> effect.retry == NoRetry && effect.stage != Blocked && effect.stage != Settled(Interrupted))
    && (effect.retry.Reserved?
        ==> (effect.stage == Dispatched || effect.stage == Blocked)
            && effect.retry.preparation.attempt == effect.attempt + 1)
    && (effect.retry.Reserved? ==> effect.policy != Never && (effect.policy == Confirm ==> effect.stage == Blocked))
    && (effect.policy == Never ==> effect.attempt <= 1)
    && (effect.stage == Blocked ==> effect.policy == Confirm)
  }

  function Outstanding(effect: Effect): nat {
    if effect.retry.Reserved? then 1 else 0
  }

  ghost predicate Sound(w: World) {
    && Regular(w.effect)
    && |w.claims| + |w.starts| <= 1
    && (|w.claims| + |w.starts| == 1 ==> w.effect.start.Started?)
    && (forall i | 0 <= i < |w.claims| :: w.claims[i] == w.effect.attempt)
    && (forall i | 0 <= i < |w.starts| :: w.starts[i] == w.effect.attempt)
    && (w.effect.policy == Confirm ==> w.effect.attempt + Outstanding(w.effect) <= 1 + w.confirmations)
  }

  /** What one accepted command may do to a regular effect. */
  ghost predicate Progress(before: Effect, after: Effect) {
    && after.policy == before.policy
    && (before.start.Started? ==> after.start == before.start && after.attempt == before.attempt)
    && (after.attempt == before.attempt || (after.attempt == before.attempt + 1 && !after.start.Started?))
  }

  /** More attempts than before come out of the preparation or the reservation. */
  ghost predicate Spends(before: Effect, after: Effect) {
    && after.attempt + Outstanding(after) <= before.attempt + Outstanding(before) + 1
    && (after.attempt + Outstanding(after) > before.attempt + Outstanding(before) ==>
          (before.stage == Prepared && after.attempt == 1 && after.retry == NoRetry)
            || (after.retry.Reserved? && before.retry == NoRetry))
  }

  lemma DispatchProgress(now: Effect, command: Command)
    requires Regular(now) && command.MarkDispatched? && (FirstDispatch(now, command) || RetryDispatch(now, command))
    ensures var after := Dispatching(now, command); Regular(after) && Progress(now, after) && Spends(now, after)
  {
  }

  lemma MarkProgress(w: World, command: Command)
    requires Regular(w.effect) && !command.PrepareRetry? && !command.BlockEffect?
    ensures var after := Accept(w.effect, command);
            Regular(after) && Progress(w.effect, after) && Spends(w.effect, after)
  {
    if command.MarkDispatched? && (FirstDispatch(w.effect, command) || RetryDispatch(w.effect, command)) {
      DispatchProgress(w.effect, command);
    }
  }

  /** Recovery retries only what may be retried, and blocks only what asks for confirmation. */
  lemma RecoverProgress(now: Effect, seen: Effect, authority: Authority, clock: int, operation: Name,
                        ledger: LedgerStatus, confirmed: bool)
    requires Regular(now)
    ensures var after := Accept(now, Recover(seen, authority, clock, operation, ledger, confirmed));
            && Regular(after) && Progress(now, after) && Spends(now, after)
            && (after.retry.Reserved? && now.retry == NoRetry && now.policy == Confirm ==> confirmed)
  {
    var command := Recover(seen, authority, clock, operation, ledger, confirmed);
    if !command.PrepareRetry? && !command.BlockEffect? {
      MarkProgress(World(now, [], [], [], 0), command);
    }
  }

  lemma AfterProgress(w: World, step: Step)
    requires Regular(w.effect) && !step.StartStep?
    ensures var after := After(w, step);
            && Regular(after) && Progress(w.effect, after) && Spends(w.effect, after)
            && (after.retry.Reserved? && w.effect.retry == NoRetry
                ==> step.RecoverStep? && (w.effect.policy == Confirm ==> step.confirmed))
  {
    hide Accept, Recover, Admit, Claim, ConfirmCommit, Settle, DispatchRetry, Regular, Progress, Spends;
    if step.RecoverStep? && step.seen < |w.history| {
      RecoverProgress(w.effect, w.history[step.seen], step.authority, step.clock, step.operation, step.ledger,
                      step.confirmed);
    } else if step.AbortStep? {
      AbortProgress(w.effect);
    } else {
      OtherCommands(w, step);
      MarkProgress(w, CommandOf(w, step));
      NoReservation(w.effect, CommandOf(w, step));
    }
  }

  lemma AbortProgress(now: Effect)
    requires Regular(now)
    ensures var after := Advance(now).(abort := true);
            Regular(after) && Progress(now, after) && Spends(now, after) && after.retry == NoRetry
    ensures Progress(now, now) && Spends(now, now)
  {
  }

  lemma OtherCommands(w: World, step: Step)
    requires !step.RecoverStep? || step.seen >= |w.history|
    ensures !CommandOf(w, step).PrepareRetry? && !CommandOf(w, step).BlockEffect?
  {
  }

  lemma NoReservation(now: Effect, command: Command)
    requires !command.PrepareRetry?
    ensures Accept(now, command).retry == NoRetry || Accept(now, command).retry == now.retry
  {
  }

  /** Only a start claim starts an attempt. */
  lemma StartOnlyByClaim(w: World, step: Step)
    requires w.effect.start == NotStarted && After(w, step).start.Started?
    ensures step.ClaimStep? && After(w, step).attempt == w.effect.attempt
  {
  }

  lemma NextSound(w: World, step: Step)
    requires Sound(w)
    ensures Sound(Next(w, step))
  {
    hide Regular, After;
    if step.StartStep? {
      if w.claims != [] {
        assert |w.claims| == 1 && w.claims[1..] == [];
      }
    } else {
      AfterProgress(w, step);
      var after := After(w, step);
      PreparedFirst(w.effect);
      if w.effect.start == NotStarted && after.start.Started? {
        StartOnlyByClaim(w, step);
      }
    }
  }

  lemma PreparedFirst(effect: Effect)
    requires Regular(effect)
    ensures effect.stage == Prepared ==> effect.attempt == 0 && effect.retry == NoRetry
  {
  }

  lemma {:induction false} RunSound(policy: Policy, deadline: int, lease: int, steps: seq<Step>)
    ensures Sound(Run(Begin(policy, deadline, lease), steps))
    ensures Run(Begin(policy, deadline, lease), steps).effect.policy == policy
  {
    hide Next, Sound;
    if steps == [] {
      BeginSound(policy, deadline, lease);
    } else {
      var w := Run(Begin(policy, deadline, lease), steps[..|steps| - 1]);
      RunSound(policy, deadline, lease, steps[..|steps| - 1]);
      NextSound(w, steps[|steps| - 1]);
      PolicyKept(w, steps[|steps| - 1]);
    }
  }

  lemma BeginSound(policy: Policy, deadline: int, lease: int)
    ensures Sound(Begin(policy, deadline, lease))
  {
  }

  lemma PolicyKept(w: World, step: Step)
    requires Sound(w)
    ensures Next(w, step).effect.policy == w.effect.policy
  {
    hide After, Regular;
    if !step.StartStep? {
      AfterProgress(w, step);
    }
  }

  // ----- what the invariant means -----

  /** Over every run the provider is started at most once for the effect, and no
      attempt follows the one that was started. */
  lemma AtMostOneStart(policy: Policy, deadline: int, lease: int, steps: seq<Step>)
    ensures var w := Run(Begin(policy, deadline, lease), steps);
            |w.starts| <= 1 && (w.starts != [] ==> w.starts == [w.effect.attempt] && w.claims == [])
  {
    RunSound(policy, deadline, lease, steps);
  }

  /** An effect that must never be replayed gets one attempt. */
  lemma NeverIsNotRetried(deadline: int, lease: int, steps: seq<Step>)
    ensures Run(Begin(Never, deadline, lease), steps).effect.attempt <= 1
  {
    RunSound(Never, deadline, lease, steps);
  }

  /** Each attempt after the first of a confirm effect answers a user-confirmed request. */
  lemma ConfirmNeedsTheUser(deadline: int, lease: int, steps: seq<Step>)
    ensures var w := Run(Begin(Confirm, deadline, lease), steps); w.effect.attempt <= 1 + w.confirmations
  {
    RunSound(Confirm, deadline, lease, steps);
  }

  /** An effect settled as interrupted, or blocked, was not started, and nobody still holds a claim to start it. */
  lemma InterruptedWasNotStarted(policy: Policy, deadline: int, lease: int, steps: seq<Step>)
    requires var w := Run(Begin(policy, deadline, lease), steps);
             w.effect.stage == Settled(Interrupted) || w.effect.stage == Blocked
    ensures var w := Run(Begin(policy, deadline, lease), steps); w.starts == [] && w.claims == []
  {
    RunSound(policy, deadline, lease, steps);
  }

  // ----- which version a decision was made on -----

  /** The later version is the same event, the next one (a reservation changes nothing else), or further on. */
  predicate Follows(before: Effect, after: Effect) {
    || after == before
    || before.sequence + 1 < after.sequence
    || (after.sequence == before.sequence + 1
        && (after.retry.Reserved? ==> after == before.(sequence := after.sequence, retry := after.retry)))
  }

  ghost predicate Chained(w: World) {
    && w.history != [] && w.history[|w.history| - 1] == w.effect
    && (forall i, j | 0 <= i <= j < |w.history| :: Follows(w.history[i], w.history[j]))
  }

  lemma AfterFollows(w: World, step: Step)
    ensures After(w, step) == w.effect || After(w, step).sequence == w.effect.sequence + 1
    ensures Follows(w.effect, After(w, step))
  {
    hide CommandOf;
  }

  lemma NextChained(w: World, step: Step)
    requires Chained(w)
    ensures Chained(Next(w, step))
  {
    hide After, Fresh, Confirms;
    AfterFollows(w, step);
  }

  lemma {:induction false} RunChained(policy: Policy, deadline: int, lease: int, steps: seq<Step>)
    ensures Chained(Run(Begin(policy, deadline, lease), steps))
  {
    hide Next;
    if steps != [] {
      RunChained(policy, deadline, lease, steps[..|steps| - 1]);
      NextChained(Run(Begin(policy, deadline, lease), steps[..|steps| - 1]), steps[|steps| - 1]);
    }
  }

  /** A command that changes the store was decided on the store's version or, for a reserved
      retry, names the event right before the reservation. */
  lemma AcceptedIsCurrent(now: Effect, command: Command)
    requires Accept(now, command) != now
    ensures !command.NoCommand?
    ensures command.snapshot == now || (command.MarkDispatched? && RetryDispatch(now, command))
  {
  }

  /** A command carries the version it was decided on, or moves it to the event its preparation was made on. */
  lemma SnapshotOf(w: World, step: Step)
    requires !CommandOf(w, step).NoCommand?
    ensures !step.StartStep? && !step.AbortStep? && step.seen < |w.history|
    ensures var seen, snapshot := w.history[step.seen], CommandOf(w, step).snapshot;
            || snapshot == seen
            || (CommandOf(w, step).MarkDispatched? && snapshot.sequence <= seen.sequence <= snapshot.sequence + 1
                && snapshot == seen.(sequence := snapshot.sequence))
  {
  }

  /** Over every run a client changes the effect only if nothing has happened to it since the
      version the client saw, except the reservation of the retry that the client dispatches. */
  lemma StaleIsInert(policy: Policy, deadline: int, lease: int, steps: seq<Step>, step: Step)
    requires !step.StartStep? && !step.AbortStep?
    requires var w := Run(Begin(policy, deadline, lease), steps); After(w, step) != w.effect
    ensures var w := Run(Begin(policy, deadline, lease), steps);
            && step.seen < |w.history|
            && var seen := w.history[step.seen];
               || seen == w.effect
               || (step.RetryStep? && w.effect.retry.Reserved? && w.effect.retry.preparation == step.preparation
                   && w.effect == seen.(sequence := seen.sequence + 1, retry := w.effect.retry))
  {
    hide Run;
    var w := Run(Begin(policy, deadline, lease), steps);
    RunChained(policy, deadline, lease, steps);
    RunSound(policy, deadline, lease, steps);
    AcceptedIsCurrent(w.effect, CommandOf(w, step));
    SnapshotOf(w, step);
    assert Follows(w.history[step.seen], w.history[|w.history| - 1]);
  }
}
