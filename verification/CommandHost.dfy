/** Idempotent commands on one object behind a durability barrier. Storage is
    atomic and serial; a barrier makes everything up to its revision durable, and a
    crash drops the rest. Revision numbers are never given twice. */
module CommandHost {
  import opened Common

  /** Digest of the command, the response and the capability claims. */
  datatype Receipt = Receipt(digest: Name, response: Name, claims: seq<Name>)

  datatype Applied = Rejected | Applied(state: Name, response: Name, claims: seq<Name>)

  /** What a sealed permit is bound to: the object, the command, its digest and the claim's position. */
  datatype Binding = Binding(target: Name, command: Name, digest: Name, index: nat)

  /** The aggregate and the sealer, as pure functions; states and commands are opaque. */
  datatype Aggregate = Aggregate(
    validCommand: Name -> bool, validState: Name -> bool, authorize: (Name, Name) -> bool,
    apply: (Name, Name) -> Applied, digest: Name -> Name, seal: (Binding, Name) -> Name, maximumClaims: nat)

  /** One committed revision: its number, the state, all receipts, and the command it applied. */
  datatype Version = Version(revision: nat, state: Name, receipts: map<Name, Receipt>, applied: Name)

  /** A call between its commit and its answer. */
  datatype Call = Call(id: Name, receipt: Receipt, revision: nat, sealed: bool)

  datatype Answer = Answer(id: Name, receipt: Receipt)

  datatype World = World(log: seq<Version>, durable: nat, next: nat, calls: map<nat, Call>, answers: seq<Answer>)

  function Begin(state: Name): World {
    World([Version(0, state, map[], NO_NAME)], 1, 1, map[], [])
  }

  function Head(w: World): Version
    requires w.log != []
  {
    w.log[|w.log| - 1]
  }

  // ----- one call -----

  datatype Attempt = Refused | Conflict | Replays(receipt: Receipt) | Commits(receipt: Receipt, state: Name)

  /** The transaction callback: authorisation first, then the receipt, then Apply. */
  function Transact(a: Aggregate, head: Version, id: Name, command: Name): Attempt {
    if id == NO_NAME || !a.validCommand(command) || !a.validState(head.state) || !a.authorize(head.state, command)
    then Refused
    else if id in head.receipts then
      if head.receipts[id].digest != a.digest(command) then Conflict
      else if |head.receipts[id].claims| > a.maximumClaims then Refused
      else Replays(head.receipts[id])
    else
      var applied := a.apply(head.state, command);
      if applied.Rejected? || |applied.claims| > a.maximumClaims || !a.validState(applied.state) then Refused
      else Commits(Receipt(a.digest(command), applied.response, applied.claims), applied.state)
  }

  function Commit(w: World, a: Aggregate, id: Name, receipt: Receipt, state: Name): seq<Version>
    requires w.log != []
  {
    w.log + [Version(w.next, state, Head(w).receipts[id := receipt], id)]
  }

  /** A call runs its transaction; a read-only replay observes the head revision. */
  function Execute(w: World, a: Aggregate, call: nat, id: Name, command: Name): World {
    if w.log == [] || call in w.calls then w else
    var attempt := Transact(a, Head(w), id, command);
    if attempt.Replays? then w.(calls := w.calls[call := Call(id, attempt.receipt, Head(w).revision, false)])
    else if attempt.Commits? then
      w.(log := Commit(w, a, id, attempt.receipt, attempt.state), next := w.next + 1,
         calls := w.calls[call := Call(id, attempt.receipt, w.next, false)])
    else w
  }

  /** The barrier on an exact revision: everything up to it becomes durable, or it fails. */
  function Barrier(w: World, call: nat, place: nat): World {
    if call !in w.calls || place >= |w.log| || w.log[place].revision != w.calls[call].revision then w
    else w.(durable := if w.durable < place + 1 then place + 1 else w.durable,
            calls := w.calls[call := w.calls[call].(sealed := true)])
  }

  /** The answer is released only after the barrier. */
  function Release(w: World, call: nat): World {
    if call !in w.calls || !w.calls[call].sealed then w
    else w.(calls := w.calls - {call}, answers := w.answers + [Answer(w.calls[call].id, w.calls[call].receipt)])
  }

  /** A crash keeps the durable revisions; a call that had not been answered may be lost. */
  function Crash(w: World, lost: set<nat>): World
    requires w.durable <= |w.log|
  {
    w.(log := w.log[..w.durable], calls := w.calls - lost)
  }

  datatype Step =
    | ExecuteStep(call: nat, id: Name, command: Name)
    | BarrierStep(call: nat, place: nat)
    | ReleaseStep(call: nat)
    | CrashStep(lost: set<nat>)

  function Next(w: World, a: Aggregate, step: Step): World {
    match step
    case ExecuteStep(call, id, command) => Execute(w, a, call, id, command)
    case BarrierStep(call, place) => Barrier(w, call, place)
    case ReleaseStep(call) => Release(w, call)
    case CrashStep(lost) => if w.durable <= |w.log| then Crash(w, lost) else w
  }

  function Run(a: Aggregate, state: Name, steps: seq<Step>): World {
    if steps == [] then Begin(state) else Next(Run(a, state, steps[..|steps| - 1]), a, steps[|steps| - 1])
  }

  // ----- invariant -----

  /** A revision keeps every receipt of the one before and adds its own command's. */
  predicate Follows(before: Version, after: Version) {
    && before.revision < after.revision && after.applied != NO_NAME
    && after.applied !in before.receipts && after.applied in after.receipts
    && after.receipts == before.receipts[after.applied := after.receipts[after.applied]]
  }

  ghost predicate Chained(log: seq<Version>) {
    && log != [] && log[0].receipts == map[] && log[0].applied == NO_NAME
    && (forall i | 0 < i < |log| :: Follows(log[i - 1], log[i]))
  }

  /** The receipt is in the last durable revision, and so in every later one. */
  predicate Safe(log: seq<Version>, durable: nat, id: Name, receipt: Receipt) {
    0 < durable <= |log| && id in log[durable - 1].receipts && log[durable - 1].receipts[id] == receipt
  }

  /** While its revision is in the log, a call's receipt is recorded there. */
  predicate Recorded(log: seq<Version>, call: Call) {
    forall i | 0 <= i < |log| && log[i].revision == call.revision ::
      call.id in log[i].receipts && log[i].receipts[call.id] == call.receipt
  }

  ghost predicate Sound(w: World) {
    && Chained(w.log) && 0 < w.durable <= |w.log|
    && (forall i | 0 <= i < |w.log| :: w.log[i].revision < w.next)
    && (forall c | c in w.calls :: w.calls[c].revision < w.next && Recorded(w.log, w.calls[c]))
    && (forall c | c in w.calls && w.calls[c].sealed :: Safe(w.log, w.durable, w.calls[c].id, w.calls[c].receipt))
    && (forall k | 0 <= k < |w.answers| :: Safe(w.log, w.durable, w.answers[k].id, w.answers[k].receipt))
  }

  lemma {:induction false} ReceiptsGrow(log: seq<Version>, i: nat, j: nat, id: Name)
    requires Chained(log) && i <= j < |log| && id in log[i].receipts
    ensures id in log[j].receipts && log[j].receipts[id] == log[i].receipts[id]
    decreases j - i
  {
    if i < j {
      assert Follows(log[i], log[i + 1]);
      ReceiptsGrow(log, i + 1, j, id);
    }
  }

  lemma {:induction false} RevisionsGrow(log: seq<Version>, i: nat, j: nat)
    requires Chained(log) && i < j < |log|
    ensures log[i].revision < log[j].revision
    decreases j - i
  {
    assert Follows(log[j - 1], log[j]);
    if i < j - 1 {
      RevisionsGrow(log, i, j - 1);
    }
  }

  lemma SafeLater(log: seq<Version>, durable: nat, later: nat, id: Name, receipt: Receipt)
    requires Chained(log) && Safe(log, durable, id, receipt) && durable <= later <= |log|
    ensures Safe(log, later, id, receipt)
  {
    ReceiptsGrow(log, durable - 1, later - 1, id);
  }

  lemma CommitChained(w: World, a: Aggregate, id: Name, receipt: Receipt, state: Name)
    requires Sound(w) && id != NO_NAME && id !in Head(w).receipts
    ensures Chained(Commit(w, a, id, receipt, state))
  {
    var log := Commit(w, a, id, receipt, state);
    forall i | 0 < i < |log| ensures Follows(log[i - 1], log[i]) {
      if i < |w.log| {
        assert Follows(w.log[i - 1], w.log[i]);
      }
    }
  }

  lemma CommitSound(w: World, a: Aggregate, call: nat, id: Name, receipt: Receipt, state: Name)
    requires Sound(w) && id != NO_NAME && id !in Head(w).receipts
    ensures Sound(w.(log := Commit(w, a, id, receipt, state), next := w.next + 1,
                     calls := w.calls[call := Call(id, receipt, w.next, false)]))
  {
    CommitChained(w, a, id, receipt, state);
    hide Chained;
    var log := Commit(w, a, id, receipt, state);
    assert forall i | 0 <= i < |w.log| :: log[i] == w.log[i];
    forall c | c in w.calls ensures Recorded(log, w.calls[c]) {
      assert Recorded(w.log, w.calls[c]);
    }
  }

  lemma ReplaySound(w: World, call: nat, id: Name)
    requires Sound(w) && id in Head(w).receipts
    ensures Sound(w.(calls := w.calls[call := Call(id, Head(w).receipts[id], Head(w).revision, false)]))
  {
    var added := Call(id, Head(w).receipts[id], Head(w).revision, false);
    forall i | 0 <= i < |w.log| && w.log[i].revision == added.revision
      ensures added.id in w.log[i].receipts && w.log[i].receipts[added.id] == added.receipt
    {
      if i < |w.log| - 1 {
        RevisionsGrow(w.log, i, |w.log| - 1);
      }
    }
    hide Chained;
  }

  lemma BarrierSound(w: World, call: nat, place: nat)
    requires Sound(w)
    ensures Sound(Barrier(w, call, place))
  {
    if call in w.calls && place < |w.log| && w.log[place].revision == w.calls[call].revision {
      var n := Barrier(w, call, place);
      assert Recorded(w.log, w.calls[call]);
      assert Safe(w.log, place + 1, w.calls[call].id, w.calls[call].receipt);
      SafeLater(w.log, place + 1, n.durable, w.calls[call].id, w.calls[call].receipt);
      forall c | c in w.calls && w.calls[c].sealed ensures Safe(w.log, n.durable, w.calls[c].id, w.calls[c].receipt) {
        SafeLater(w.log, w.durable, n.durable, w.calls[c].id, w.calls[c].receipt);
      }
      forall k | 0 <= k < |w.answers| ensures Safe(w.log, n.durable, w.answers[k].id, w.answers[k].receipt) {
        SafeLater(w.log, w.durable, n.durable, w.answers[k].id, w.answers[k].receipt);
      }
      hide Chained, Safe, Recorded;
      SameRecord(w.log, w.calls[call]);
    }
  }

  lemma SameRecord(log: seq<Version>, call: Call)
    requires Recorded(log, call)
    ensures Recorded(log, call.(sealed := true))
  {
  }

  lemma ReleaseSound(w: World, call: nat)
    requires Sound(w)
    ensures Sound(Release(w, call))
  {
    hide Chained, Safe, Recorded;
  }

  lemma CrashSound(w: World, lost: set<nat>)
    requires Sound(w)
    ensures Sound(Crash(w, lost))
  {
    var log := w.log[..w.durable];
    forall i | 0 < i < |log| ensures Follows(log[i - 1], log[i]) {
      assert Follows(w.log[i - 1], w.log[i]);
    }
    forall c | c in w.calls ensures Recorded(log, w.calls[c]) {
      assert Recorded(w.log, w.calls[c]);
    }
  }

  lemma NextSound(w: World, a: Aggregate, step: Step)
    requires Sound(w)
    ensures Sound(Next(w, a, step))
  {
    hide Sound;
    match step
    case ExecuteStep(call, id, command) => ExecuteSound(w, a, call, id, command);
    case BarrierStep(call, place) => BarrierSound(w, call, place);
    case ReleaseStep(call) => ReleaseSound(w, call);
    case CrashStep(lost) =>
      if w.durable <= |w.log| {
        CrashSound(w, lost);
      }
  }

  lemma ExecuteSound(w: World, a: Aggregate, call: nat, id: Name, command: Name)
    requires Sound(w)
    ensures Sound(Execute(w, a, call, id, command))
  {
    hide Sound, Commit;
    if w.log != [] && call !in w.calls {
      var attempt := Transact(a, Head(w), id, command);
      if attempt.Replays? {
        ReplaySound(w, call, id);
      } else if attempt.Commits? {
        CommitSound(w, a, call, id, attempt.receipt, attempt.state);
      }
    }
  }

  lemma {:induction false} RunSound(a: Aggregate, state: Name, steps: seq<Step>)
    ensures Sound(Run(a, state, steps))
  {
    hide Sound, Next;
    if steps == [] {
      BeginSound(state);
    } else {
      RunSound(a, state, steps[..|steps| - 1]);
      NextSound(Run(a, state, steps[..|steps| - 1]), a, steps[|steps| - 1]);
    }
  }

  lemma BeginSound(state: Name)
    ensures Sound(Begin(state))
  {
  }

  // ----- what the invariant means -----

  /** In the surviving history every command was applied at most once. */
  lemma AppliedOnce(a: Aggregate, state: Name, steps: seq<Step>, i: nat, j: nat)
    requires 0 < i < j < |Run(a, state, steps).log|
    ensures var log := Run(a, state, steps).log; log[i].applied != log[j].applied
  {
    hide Run;
    RunSound(a, state, steps);
    var log := Run(a, state, steps).log;
    assert Follows(log[i - 1], log[i]) && Follows(log[j - 1], log[j]);
    ReceiptsGrow(log, i, j - 1, log[i].applied);
  }

  /** An answer that was released survives every crash, at any time. */
  lemma AnswersSurvive(a: Aggregate, state: Name, steps: seq<Step>, k: nat, lost: set<nat>)
    requires k < |Run(a, state, steps).answers|
    ensures var w := Run(a, state, steps);
            && w.durable <= |w.log|
            && (var after := Crash(w, lost);
                && after.log != [] && w.answers[k].id in Head(after).receipts
                && Head(after).receipts[w.answers[k].id] == w.answers[k].receipt)
  {
    hide Run, Chained, Recorded;
    RunSound(a, state, steps);
    var w := Run(a, state, steps);
    assert Safe(w.log, w.durable, w.answers[k].id, w.answers[k].receipt);
  }

  /** One permit per claim, each sealed under its own binding and nothing else. */
  ghost predicate Sealed(a: Aggregate, target: Name, id: Name, digest: Name, claims: seq<Name>, permits: seq<Name>) {
    && |permits| == |claims|
    && (forall i | 0 <= i < |claims| :: permits[i] == a.seal(Binding(target, id, digest, i), claims[i]))
  }

  method SealPermits(a: Aggregate, target: Name, id: Name, digest: Name, claims: seq<Name>) returns (permits: seq<Name>)
    ensures Sealed(a, target, id, digest, claims, permits)
  {
    permits := [];
    for index := 0 to |claims|
      invariant Sealed(a, target, id, digest, claims[..index], permits)
    {
      permits := permits + [a.seal(Binding(target, id, digest, index), claims[index])];
    }
  }

  /** Every answer to one command identifier is the same: digest, response, claims and permits. */
  lemma AnswersAgree(a: Aggregate, state: Name, steps: seq<Step>, j: nat, k: nat, target: Name, left: seq<Name>,
                     right: seq<Name>)
    requires j < |Run(a, state, steps).answers| && k < |Run(a, state, steps).answers|
    requires var answers := Run(a, state, steps).answers;
             && answers[j].id == answers[k].id
             && Sealed(a, target, answers[j].id, answers[j].receipt.digest, answers[j].receipt.claims, left)
             && Sealed(a, target, answers[k].id, answers[k].receipt.digest, answers[k].receipt.claims, right)
    ensures var answers := Run(a, state, steps).answers; answers[j] == answers[k] && left == right
  {
    hide Run, Chained, Recorded;
    RunSound(a, state, steps);
    var w := Run(a, state, steps);
    assert Safe(w.log, w.durable, w.answers[j].id, w.answers[j].receipt);
    assert Safe(w.log, w.durable, w.answers[k].id, w.answers[k].receipt);
  }
}
