/** When the host answers: exactly which commands run, which are repeated from their receipt,
    and that a command once answered is answered the same way ever after. */
module CommandDecisions {
  import opened Common
  import opened CommandHost

  /** The caller may have this command run or repeated. */
  predicate Allowed(a: Aggregate, head: Version, id: Name, command: Name) {
    id != NO_NAME && a.validCommand(command) && a.validState(head.state) && a.authorize(head.state, command)
  }

  /** The identifier stands for this very command already. */
  predicate Known(a: Aggregate, head: Version, id: Name, command: Name) {
    id in head.receipts && head.receipts[id].digest == a.digest(command)
  }

  /** The aggregate takes the command, and the outcome is within bounds. */
  predicate Accepted(a: Aggregate, head: Version, id: Name, command: Name) {
    && id !in head.receipts
    && var applied := a.apply(head.state, command);
       applied.Applied? && |applied.claims| <= a.maximumClaims && a.validState(applied.state)
  }

  // ----- receipts stay within bounds -----

  /** Every receipt has as many claims as the host may seal. */
  ghost predicate Modest(a: Aggregate, log: seq<Version>) {
    forall i, id | 0 <= i < |log| && id in log[i].receipts :: |log[i].receipts[id].claims| <= a.maximumClaims
  }

  lemma NextModest(w: World, a: Aggregate, step: Step)
    requires Modest(a, w.log)
    ensures Modest(a, Next(w, a, step).log)
  {
  }

  lemma {:induction false} RunModest(a: Aggregate, state: Name, steps: seq<Step>)
    ensures Modest(a, Run(a, state, steps).log)
  {
    hide Next, Modest;
    if steps == [] {
      BeginModest(a, state);
    } else {
      RunModest(a, state, steps[..|steps| - 1]);
      NextModest(Run(a, state, steps[..|steps| - 1]), a, steps[|steps| - 1]);
    }
  }

  lemma BeginModest(a: Aggregate, state: Name)
    ensures Modest(a, Begin(state).log)
  {
  }

  // ----- decisions -----

  /** What a call finds at the head decides it. */
  ghost predicate Decides(a: Aggregate, w: World, n: World, call: nat, id: Name, command: Name)
    requires w.log != []
  {
    var head := Head(w);
    if Allowed(a, head, id, command) && Known(a, head, id, command) then
      n == w.(calls := w.calls[call := Call(id, head.receipts[id], head.revision, false)])
    else if Allowed(a, head, id, command) && Accepted(a, head, id, command) then
      var applied := a.apply(head.state, command);
      var receipt := Receipt(a.digest(command), applied.response, applied.claims);
      && n.calls == w.calls[call := Call(id, receipt, w.next, false)]
      && n.log == w.log + [Version(w.next, applied.state, head.receipts[id := receipt], id)]
      && w.next < n.next && n.durable == w.durable && n.answers == w.answers
    else n == w
  }

  /** In every reachable state a call is repeated exactly when its identifier stands for the same command, runs
      exactly when the identifier is new and the aggregate accepts it, and otherwise leaves no trace; the check
      for a receipt with too many claims never fires. */
  lemma ExecuteDecided(a: Aggregate, state: Name, steps: seq<Step>, call: nat, id: Name, command: Name)
    requires call !in Run(a, state, steps).calls
    ensures var w := Run(a, state, steps);
            w.log != [] && Decides(a, w, Next(w, a, ExecuteStep(call, id, command)), call, id, command)
  {
    hide Run, Chained, Recorded, Safe;
    RunSound(a, state, steps);
    RunModest(a, state, steps);
    HasHead(Run(a, state, steps));
  }

  lemma HasHead(w: World)
    requires Sound(w)
    ensures w.log != []
  {
  }

  /** The barrier seals a call exactly when the call's revision is still at that place; the durable part never
      shrinks and then covers the place. */
  lemma BarrierDecided(a: Aggregate, state: Name, steps: seq<Step>, call: nat, place: nat)
    requires call in Run(a, state, steps).calls
    ensures var w := Run(a, state, steps);
            var n := Next(w, a, BarrierStep(call, place));
            if place < |w.log| && w.log[place].revision == w.calls[call].revision
            then && n.log == w.log && n.next == w.next && n.answers == w.answers && w.durable <= n.durable
                 && place < n.durable && (n.durable == w.durable || n.durable == place + 1)
                 && n.calls == w.calls[call := w.calls[call].(sealed := true)]
            else n == w
  {
    hide Run;
  }

  /** An answer is released exactly for a sealed call, once, and is its receipt. */
  lemma ReleaseDecided(a: Aggregate, state: Name, steps: seq<Step>, call: nat)
    ensures var w := Run(a, state, steps);
            var n := Next(w, a, ReleaseStep(call));
            if call in w.calls && w.calls[call].sealed
            then && n.answers == w.answers + [Answer(w.calls[call].id, w.calls[call].receipt)]
                 && call !in n.calls && n.log == w.log && n.durable == w.durable && n.next == w.next
                 && (forall c | c in w.calls && c != call :: c in n.calls && n.calls[c] == w.calls[c])
            else n == w
  {
    hide Run;
  }

  // ----- once answered, always answered -----

  lemma {:induction false} AnswersGrow(a: Aggregate, state: Name, steps: seq<Step>, more: seq<Step>)
    ensures Run(a, state, steps).answers <= Run(a, state, steps + more).answers
  {
    hide Next;
    if more == [] {
      assert steps + more == steps;
    } else {
      var front := more[..|more| - 1];
      AnswersGrow(a, state, steps, front);
      assert (steps + more)[..|steps + more| - 1] == steps + front;
      NextAnswers(Run(a, state, steps + front), a, more[|more| - 1]);
    }
  }

  lemma NextAnswers(w: World, a: Aggregate, step: Step)
    ensures w.answers <= Next(w, a, step).answers
  {
  }

  /** Once a command has been answered, every later call with it that is still allowed is repeated with the same
      receipt and applies nothing, whatever calls and crashes came between. */
  lemma AnsweredIsRepeated(a: Aggregate, state: Name, steps: seq<Step>, k: nat, more: seq<Step>, call: nat,
                           command: Name)
    requires k < |Run(a, state, steps).answers| && call !in Run(a, state, steps + more).calls
    requires Run(a, state, steps).answers[k].receipt.digest == a.digest(command)
    requires var w := Run(a, state, steps + more);
             w.log != [] && Allowed(a, Head(w), Run(a, state, steps).answers[k].id, command)
    ensures var answer, w := Run(a, state, steps).answers[k], Run(a, state, steps + more);
            var n := Next(w, a, ExecuteStep(call, answer.id, command));
            && n.log == w.log && call in n.calls
            && n.calls[call] == Call(answer.id, answer.receipt, Head(w).revision, false)
  {
    hide Run, Next, Chained, Recorded;
    var w, answer := Run(a, state, steps + more), Run(a, state, steps).answers[k];
    AnswersGrow(a, state, steps, more);
    assert w.answers[k] == answer;
    RunSound(a, state, steps + more);
    AnsweredAtHead(w, k);
    ExecuteDecided(a, state, steps + more, call, answer.id, command);
  }

  lemma AnsweredAtHead(w: World, k: nat)
    requires Sound(w) && k < |w.answers|
    ensures w.log != [] && w.answers[k].id in Head(w).receipts
            && Head(w).receipts[w.answers[k].id] == w.answers[k].receipt
  {
    hide Recorded;
    assert Safe(w.log, w.durable, w.answers[k].id, w.answers[k].receipt);
    ReceiptsGrow(w.log, w.durable - 1, |w.log| - 1, w.answers[k].id);
  }

  // ----- crashes and whole calls -----

  /** A crash keeps exactly the durable revisions, every answer and the calls it does not lose. */
  lemma CrashDecided(a: Aggregate, state: Name, steps: seq<Step>, lost: set<nat>)
    ensures var w := Run(a, state, steps);
            var n := Next(w, a, CrashStep(lost));
            && 0 < w.durable <= |w.log| && n.log == w.log[..w.durable] && n.durable == |n.log|
            && n.answers == w.answers && n.next == w.next && n.calls.Keys == w.calls.Keys - lost
            && (forall c | c in n.calls :: n.calls[c] == w.calls[c])
  {
    hide Run, Chained, Recorded, Safe;
    RunSound(a, state, steps);
  }

  /** What a call that runs or is repeated comes to. */
  predicate Fulfils(a: Aggregate, w: World, n: World, id: Name, command: Name)
    requires w.log != []
  {
    var head := Head(w);
    && n.calls == w.calls && n.durable == |n.log|
    && if Known(a, head, id, command)
       then n.log == w.log && n.answers == w.answers + [Answer(id, head.receipts[id])]
       else
         var applied := a.apply(head.state, command);
         && applied.Applied?
         && var receipt := Receipt(a.digest(command), applied.response, applied.claims);
            && n.answers == w.answers + [Answer(id, receipt)]
            && n.log == w.log + [Version(w.next, applied.state, head.receipts[id := receipt], id)]
  }

  lemma RunThree(a: Aggregate, state: Name, before: seq<Step>, steps: seq<Step>)
    requires |steps| == 3
    ensures Run(a, state, before + steps)
            == Next(Next(Next(Run(a, state, before), a, steps[0]), a, steps[1]), a, steps[2])
  {
    hide Run, Next;
    assert before + steps == before + [steps[0]] + [steps[1]] + [steps[2]];
    RunOne(a, state, before, steps[0]);
    RunOne(a, state, before + [steps[0]], steps[1]);
    RunOne(a, state, before + [steps[0]] + [steps[1]], steps[2]);
  }

  lemma RunOne(a: Aggregate, state: Name, before: seq<Step>, step: Step)
    ensures Run(a, state, before + [step]) == Next(Run(a, state, before), a, step)
  {
    hide Next;
    assert (before + [step])[..|before|] == before;
  }

  /** From every reachable state a command that is allowed, and known or accepted, is answered once its revision
      has been made durable; it is applied if and only if it was not known. */
  lemma CommandCompletes(a: Aggregate, state: Name, before: seq<Step>, call: nat, id: Name, command: Name)
    requires call !in Run(a, state, before).calls && Run(a, state, before).log != []
    requires var head := Head(Run(a, state, before));
             Allowed(a, head, id, command) && (Known(a, head, id, command) || Accepted(a, head, id, command))
    ensures var w := Run(a, state, before);
            var place := if Known(a, Head(w), id, command) then |w.log| - 1 else |w.log|;
            Fulfils(a, w, Run(a, state, before + [ExecuteStep(call, id, command), BarrierStep(call, place),
                                                  ReleaseStep(call)]), id, command)
  {
    hide Run, Next, Chained, Recorded, Safe, Allowed;
    var w := Run(a, state, before);
    var place := if Known(a, Head(w), id, command) then |w.log| - 1 else |w.log|;
    RunSound(a, state, before);
    RunThree(a, state, before, [ExecuteStep(call, id, command), BarrierStep(call, place), ReleaseStep(call)]);
    ExecuteDecided(a, state, before, call, id, command);
    var n := Next(w, a, ExecuteStep(call, id, command));
    SealAndRelease(a, n, w.calls, call, place);
  }

  lemma SealAndRelease(a: Aggregate, n: World, calls: map<nat, Call>, call: nat, place: nat)
    requires call !in calls && call in n.calls && n.calls == calls[call := n.calls[call]]
    requires place == |n.log| - 1 && n.durable <= |n.log| && n.log != []
    requires n.log[place].revision == n.calls[call].revision
    ensures var end := Next(Next(n, a, BarrierStep(call, place)), a, ReleaseStep(call));
            && end.calls == calls && end.durable == |end.log| && end.log == n.log
            && end.answers == n.answers + [Answer(n.calls[call].id, n.calls[call].receipt)]
  {
    assert calls[call := n.calls[call].(sealed := true)] - {call} == calls;
    assert n.calls[call := n.calls[call].(sealed := true)] == calls[call := n.calls[call].(sealed := true)];
  }
}
