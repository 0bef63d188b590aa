/** The command host as it runs: one transaction that reads, authorises, replays or
    applies and writes, then the barrier on its revision, then the sealed answer. */
module HostExecution {
  import opened Common
  import opened CommandHost
  import opened CommandDecisions

  datatype Result =
    | Failed
    | Answered(digest: Name, response: Name, permits: seq<Name>, revision: nat, replayed: bool)

  class Host {
    const aggregate: Aggregate
    var log: seq<Version>
    var durable: nat
    var next: nat
    ghost var calls: map<nat, Call>
    ghost var answers: seq<Answer>

    ghost function View(): World
      reads this
    {
      World(log, durable, next, calls, answers)
    }

    ghost predicate Valid()
      reads this
    {
      Sound(View()) && Modest(aggregate, log)
    }

    constructor (aggregate: Aggregate, state: Name)
      ensures Valid() && View() == Begin(state) && this.aggregate == aggregate
    {
      this.aggregate := aggregate;
      log, durable, next := [Version(0, state, map[], NO_NAME)], 1, 1;
      calls, answers := map[], [];
      new;
      hide Sound, Modest;
      BeginSound(state);
      BeginModest(aggregate, state);
    }

    /** The transaction: nothing is written unless the command is new, authorised and accepted. */
    method Transaction(ghost call: nat, id: Name, command: Name)
      returns (done: bool, receipt: Receipt, revision: nat, replayed: bool)
      requires Valid() && call !in calls && log != []
      modifies this`log, this`next, this`calls
      ensures Valid() && View() == CommandHost.Execute(old(View()), aggregate, call, id, command)
      ensures done ==> call in calls && calls[call] == Call(id, receipt, revision, false)
                       && receipt.digest == aggregate.digest(command)
      ensures done ==> log != [] && log[|log| - 1].revision == revision
      ensures !done ==> View() == old(View())
      ensures done <==> Runs(aggregate, old(log)[|old(log)| - 1], id, command)
      ensures done && replayed ==> log == old(log)
      ensures done ==> aggregate.validCommand(command) && aggregate.authorize(old(log)[|old(log)| - 1].state, command)
      ensures done && replayed
              ==> id in old(log)[|old(log)| - 1].receipts && receipt == old(log)[|old(log)| - 1].receipts[id]
      ensures done && !replayed ==>
                && id !in old(log)[|old(log)| - 1].receipts
                && aggregate.apply(old(log)[|old(log)| - 1].state, command)
                   == Applied(log[|log| - 1].state, receipt.response, receipt.claims)
    {
      hide Sound, Modest;
      ExecuteSound(View(), aggregate, call, id, command);
      NextModest(View(), aggregate, ExecuteStep(call, id, command));
      receipt, revision, replayed := Receipt(NO_NAME, NO_NAME, []), 0, false;
      var head := log[|log| - 1];
      if id == NO_NAME || !aggregate.validCommand(command) || !aggregate.validState(head.state)
         || !aggregate.authorize(head.state, command) {
        return false, receipt, revision, replayed;
      }
      var digest := aggregate.digest(command);
      if id in head.receipts {
        ModestAtHead(aggregate, log, id);
        receipt := head.receipts[id];
        if receipt.digest != digest || |receipt.claims| > aggregate.maximumClaims {
          return false, receipt, revision, replayed;
        }
        calls := calls[call := Call(id, receipt, head.revision, false)];
        return true, receipt, head.revision, true;
      }
      var applied := aggregate.apply(head.state, command);
      if applied.Rejected? || |applied.claims| > aggregate.maximumClaims || !aggregate.validState(applied.state) {
        return false, receipt, revision, replayed;
      }
      receipt, revision := Receipt(digest, applied.response, applied.claims), next;
      log := log + [Version(revision, applied.state, head.receipts[id := receipt], id)];
      next := next + 1;
      calls := calls[call := Call(id, receipt, revision, false)];
      return true, receipt, revision, false;
    }

    /** The storage makes everything up to the recorded revision durable; a crash may have dropped it. */
    method DurabilityBarrier(ghost call: nat, revision: nat) returns (reached: bool)
      requires Valid() && call in calls && calls[call].revision == revision
      modifies this`durable, this`calls
      ensures Valid()
      ensures reached <==> exists place :: 0 <= place < |log| && log[place].revision == revision
      ensures reached ==> exists place :: View() == CommandHost.Barrier(old(View()), call, place)
      ensures reached ==> call in calls && calls[call] == old(calls)[call].(sealed := true)
      ensures reached ==> Safe(log, durable, calls[call].id, calls[call].receipt)
      ensures !reached ==> View() == old(View())
    {
      hide Sound, Safe, Modest;
      var place := |log|;
      while place > 0 && log[place - 1].revision != revision
        invariant 0 <= place <= |log| && (forall i | place <= i < |log| :: log[i].revision != revision)
      {
        place := place - 1;
      }
      if place == 0 {
        return false;
      }
      BarrierSound(View(), call, place - 1);
      ghost var after := CommandHost.Barrier(View(), call, place - 1);
      if durable < place {
        durable := place;
      }
      calls := calls[call := calls[call].(sealed := true)];
      assert View() == after;
      SealedIsSafe(View(), call);
      return true;
    }

    method Answer(ghost call: nat)
      requires Valid() && call in calls && calls[call].sealed
      modifies this`calls, this`answers
      ensures Valid() && View() == Release(old(View()), call)
    {
      hide Sound, Modest;
      ReleaseSound(View(), call);
      answers := answers + [CommandHost.Answer(calls[call].id, calls[call].receipt)];
      calls := calls - {call};
    }

    /** One call from start to answer; `lost` is a storage that dropped the call before its barrier. */
    method Execute(ghost call: nat, target: Name, id: Name, command: Name, lost: bool) returns (result: Result)
      requires Valid() && call !in calls
      modifies this
      ensures Valid()
      ensures old(log) != []
      ensures result.Answered? <==> !lost && Runs(aggregate, old(log)[|old(log)| - 1], id, command)
      ensures result.Answered? ==>
                (result.replayed <==> Known(aggregate, old(log)[|old(log)| - 1], id, command))
      ensures result.Answered? && result.replayed ==>
                var receipt := old(log)[|old(log)| - 1].receipts[id];
                result.response == receipt.response && Answers(result, receipt, target, id, command)
      ensures result.Answered? && !result.replayed ==>
                && aggregate.apply(old(log)[|old(log)| - 1].state, command).Applied?
                && result.response == aggregate.apply(old(log)[|old(log)| - 1].state, command).response
                && log[|log| - 1].state == aggregate.apply(old(log)[|old(log)| - 1].state, command).state
      ensures result.Failed? ==> log == old(log) || (lost && log[..|log| - 1] == old(log))
      ensures result.Answered? ==> exists receipt :: Answers(result, receipt, target, id, command)
      ensures result.Answered? ==> log != [] && result.revision == log[|log| - 1].revision
      ensures result.Answered? && result.replayed ==> log == old(log)
      ensures result.Answered? && !result.replayed ==>
                && log[..|log| - 1] == old(log) && result.revision == old(next) && log[|log| - 1].applied == id
      ensures result.Answered? ==> |answers| == |old(answers)| + 1 && answers[..|old(answers)|] == old(answers)
      ensures result.Failed? ==> answers == old(answers)
    {
      hide Sound, Safe, Sealed, Modest;
      HasHead(View());
      var done, receipt, revision, replayed := Transaction(call, id, command);
      if !done || lost {
        return Failed;
      }
      var reached := DurabilityBarrier(call, revision);
      assert reached;
      var permits := SealPermits(aggregate, target, id, receipt.digest, receipt.claims);
      Answer(call);
      result := Answered(receipt.digest, receipt.response, permits, revision, replayed);
      assert Answers(result, receipt, target, id, command);
    }

    /** The answer is that of a durable receipt of this very command, released last, with its sealed permits. */
    ghost predicate Answers(result: Result, receipt: Receipt, target: Name, id: Name, command: Name)
      reads this
    {
      && result.Answered? && Safe(log, durable, id, receipt)
      && receipt.digest == aggregate.digest(command) == result.digest && receipt.response == result.response
      && Sealed(aggregate, target, id, receipt.digest, receipt.claims, result.permits)
      && answers != [] && answers[|answers| - 1] == CommandHost.Answer(id, receipt)
    }
  }

  /** The host runs or repeats the command; it does so for no other. */
  predicate Runs(a: Aggregate, head: Version, id: Name, command: Name) {
    Allowed(a, head, id, command) && (Known(a, head, id, command) || Accepted(a, head, id, command))
  }

  lemma ModestAtHead(a: Aggregate, log: seq<Version>, id: Name)
    requires Modest(a, log) && log != [] && id in log[|log| - 1].receipts
    ensures |log[|log| - 1].receipts[id].claims| <= a.maximumClaims
  {
  }

  lemma SealedIsSafe(w: World, call: nat)
    requires Sound(w) && call in w.calls && w.calls[call].sealed
    ensures Safe(w.log, w.durable, w.calls[call].id, w.calls[call].receipt)
  {
    hide Chained, Recorded, Safe;
  }
}
