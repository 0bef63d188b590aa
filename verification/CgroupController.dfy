/** The cgroup lease controller: writers and borrowers of the descriptor authority,
    capacity, rollback, retryable destruction and close, as a machine whose steps
    are the stretches of code under the controller's and the leases' mutexes. */
module CgroupController {
  datatype Writer = RollbackBy(lease: nat) | DestroyBy(lease: nat) | CloseBy

  /** How far the call that prepares a lease has come. */
  datatype Birth = Preparing | Undoing | Handed | Discarded

  /** The destroy operation of a lease. */
  datatype Operation = NoOperation | Quiescing | Queued | Deciding | Decided | Finished

  datatype Lease = Lease(birth: Birth, attachable: bool, destroyed: bool, operation: Operation, lent: int,
                         released: bool, open: bool, closes: nat)

  /** A caller of withDirectoryFD: let in by the controller, holding the descriptor, or on its way out. */
  datatype Loan = Admitted(lease: nat) | Holding(lease: nat) | Leaving(lease: nat)

  datatype Controller = Controller(
    maximum: nat, reserved: int, reserving: set<nat>, leases: map<nat, Lease>,
    writerActive: bool, holders: set<Writer>, waiting: set<Writer>, writersWaiting: int,
    borrows: int, loans: map<nat, Loan>, poisoned: bool, closed: bool, rootOpen: bool, rootCloses: nat)

  function Begin(maximum: nat): Controller {
    Controller(maximum, 0, {}, map[], false, {}, {}, 0, 0, map[], false, false, true, 0)
  }

  function WithLease(c: Controller, l: nat, lease: Lease): Controller {
    c.(leases := c.leases[l := lease])
  }

  // ----- authority -----

  /** A writer announces itself; from now on no new borrower is let in. */
  function Announce(c: Controller, writer: Writer): Controller {
    c.(waiting := c.waiting + {writer}, writersWaiting := c.writersWaiting + 1)
  }

  predicate MayWrite(c: Controller, writer: Writer) {
    writer in c.waiting && !c.writerActive && c.borrows == 0
  }

  function BeginWrite(c: Controller, writer: Writer): Controller {
    c.(waiting := c.waiting - {writer}, writersWaiting := c.writersWaiting - 1,
       writerActive := true, holders := c.holders + {writer})
  }

  function EndWrite(c: Controller, writer: Writer): Controller {
    c.(writerActive := false, holders := c.holders - {writer})
  }

  // ----- prepare -----

  predicate MayReserve(c: Controller, l: nat) {
    !c.poisoned && !c.closed && c.reserved < c.maximum && l !in c.reserving && l !in c.leases
  }

  function Reserve(c: Controller, l: nat): Controller {
    c.(reserved := c.reserved + 1, reserving := c.reserving + {l})
  }

  /** mkdir failed, or the new directory could not be opened. */
  function Unreserve(c: Controller, l: nat, poison: bool): Controller {
    c.(reserved := c.reserved - 1, reserving := c.reserving - {l}, poisoned := c.poisoned || poison)
  }

  const NEW_LEASE := Lease(Preparing, false, false, NoOperation, 0, false, true, 0)

  function OpenLease(c: Controller, l: nat): Controller {
    c.(reserving := c.reserving - {l}, leases := c.leases[l := NEW_LEASE])
  }

  function Attach(lease: Lease): Lease {
    lease.(birth := Handed, attachable := true)
  }

  function Undo(lease: Lease): Lease {
    lease.(birth := Undoing)
  }

  /** The rollback could not finish: the caller gets the lease, for cleanup only. */
  function HandOver(lease: Lease): Lease {
    lease.(birth := Handed)
  }

  /** The reservation goes back; the descriptor is still open. */
  function Release(lease: Lease): Lease {
    lease.(released := true)
  }

  function CloseDescriptor(lease: Lease): Lease {
    lease.(open := false, closes := lease.closes + 1)
  }

  function Discard(lease: Lease): Lease {
    lease.(birth := Discarded)
  }

  // ----- borrow -----

  predicate MayBorrow(c: Controller, b: nat) {
    b !in c.loans && !c.poisoned && !c.closed && !c.writerActive && c.writersWaiting == 0
  }

  predicate Lendable(lease: Lease) {
    lease.attachable && !lease.destroyed && lease.operation == NoOperation
  }

  function Lend(lease: Lease): Lease {
    lease.(lent := lease.lent + 1)
  }

  function TakeBack(lease: Lease): Lease {
    lease.(lent := lease.lent - 1)
  }

  // ----- destroy -----

  function InOperation(lease: Lease, operation: Operation): Lease {
    lease.(operation := operation)
  }

  /** The operation's last section: destroyed once the reservation went back. */
  function Finish(lease: Lease): Lease {
    lease.(operation := Finished, destroyed := lease.destroyed || lease.released)
  }

  // ----- steps -----

  datatype Step =
    | ReserveStep(lease: nat)
    | UnreserveStep(lease: nat, poison: bool)
    | OpenStep(lease: nat)
    | AttachStep(lease: nat)
    | UndoStep(lease: nat)
    | BeginWriteStep(writer: Writer)
    | KeepStep(lease: nat)
    | ReleaseStep(lease: nat, replaced: bool)
    | CloseDescriptorStep(lease: nat)
    | EndRollbackStep(lease: nat)
    | AdmitStep(loan: nat, lease: nat)
    | HoldStep(loan: nat)
    | ReturnStep(loan: nat)
    | LeaveStep(loan: nat)
    | DestroyStep(lease: nat)
    | DrainedStep(lease: nat, failed: bool)
    | DecideStep(lease: nat)
    | EndDestroyStep(lease: nat)
    | FinishStep(lease: nat)
    | CloseStep
    | CloseRootStep

  /** The writer that acts for a lease in its present stage. */
  function WriterOf(lease: Lease, l: nat): Writer {
    if lease.birth == Undoing then RollbackBy(l) else DestroyBy(l)
  }

  predicate InHands(c: Controller, l: nat) {
    l in c.leases && WriterOf(c.leases[l], l) in c.holders
  }

  predicate Enabled(c: Controller, step: Step) {
    match step
    case ReserveStep(l) => MayReserve(c, l)
    case UnreserveStep(l, _) => l in c.reserving
    case OpenStep(l) => l in c.reserving
    case AttachStep(l) => l in c.leases && c.leases[l].birth == Preparing && !c.poisoned
    case UndoStep(l) => l in c.leases && c.leases[l].birth == Preparing
    case BeginWriteStep(writer) => MayWrite(c, writer)
    case KeepStep(l) => InHands(c, l) && c.leases[l].birth == Undoing && !c.leases[l].released
    case ReleaseStep(l, _) =>
      InHands(c, l) && (c.leases[l].birth == Undoing || c.leases[l].operation == Deciding) && !c.leases[l].released
    case CloseDescriptorStep(l) => InHands(c, l) && c.leases[l].released && c.leases[l].open
    case EndRollbackStep(l) =>
      InHands(c, l) && c.leases[l].birth == Undoing && c.leases[l].released && !c.leases[l].open
    case AdmitStep(b, l) => MayBorrow(c, b) && l in c.leases && c.leases[l].birth == Handed
    case HoldStep(b) => b in c.loans && c.loans[b].Admitted? && c.loans[b].lease in c.leases
    case ReturnStep(b) => b in c.loans && c.loans[b].Holding? && c.loans[b].lease in c.leases
    case LeaveStep(b) => b in c.loans && c.loans[b].Leaving?
    case DestroyStep(l) => l in c.leases && c.leases[l].birth == Handed && !c.leases[l].destroyed
      && (c.leases[l].operation == NoOperation || c.leases[l].operation == Finished)
    case DrainedStep(l, _) => l in c.leases && c.leases[l].operation == Quiescing && c.leases[l].lent == 0
    case DecideStep(l) => l in c.leases && c.leases[l].operation == Queued && DestroyBy(l) in c.holders
    case EndDestroyStep(l) =>
      l in c.leases && c.leases[l].operation == Deciding && DestroyBy(l) in c.holders
        && (c.leases[l].released ==> !c.leases[l].open)
    case FinishStep(l) => l in c.leases && c.leases[l].operation == Decided
    case CloseStep => !c.closed && c.reserved == 0
    case CloseRootStep => CloseBy in c.holders
  }

  function Loaned(c: Controller, b: nat, loan: Loan, lease: Lease): Controller
    requires b in c.loans
  {
    c.(loans := c.loans[b := loan], leases := c.leases[c.loans[b].lease := lease])
  }

  function Perform(c: Controller, step: Step): Controller
    requires Enabled(c, step)
  {
    match step
    case ReserveStep(l) => Reserve(c, l)
    case UnreserveStep(l, poison) => Unreserve(c, l, poison)
    case OpenStep(l) => OpenLease(c, l)
    case AttachStep(l) => WithLease(c, l, Attach(c.leases[l]))
    case UndoStep(l) => Announce(WithLease(c, l, Undo(c.leases[l])), RollbackBy(l))
    case BeginWriteStep(writer) => BeginWrite(c, writer)
    case KeepStep(l) => EndWrite(WithLease(c, l, HandOver(c.leases[l])), RollbackBy(l))
    case ReleaseStep(l, replaced) =>
      WithLease(c, l, Release(c.leases[l])).(reserved := c.reserved - 1, poisoned := c.poisoned || replaced)
    case CloseDescriptorStep(l) => WithLease(c, l, CloseDescriptor(c.leases[l]))
    case EndRollbackStep(l) => EndWrite(WithLease(c, l, Discard(c.leases[l])), RollbackBy(l))
    case AdmitStep(b, l) => c.(borrows := c.borrows + 1, loans := c.loans[b := Admitted(l)])
    case HoldStep(b) =>
      var lease := c.leases[c.loans[b].lease];
      if Lendable(lease) then Loaned(c, b, Holding(c.loans[b].lease), Lend(lease))
      else c.(loans := c.loans[b := Leaving(c.loans[b].lease)])
    case ReturnStep(b) => Loaned(c, b, Leaving(c.loans[b].lease), TakeBack(c.leases[c.loans[b].lease]))
    case LeaveStep(b) => c.(borrows := c.borrows - 1, loans := c.loans - {b})
    case DestroyStep(l) => WithLease(c, l, InOperation(c.leases[l], Quiescing))
    case DrainedStep(l, failed) =>
      if failed then WithLease(c, l, InOperation(c.leases[l], Decided))
      else Announce(WithLease(c, l, InOperation(c.leases[l], Queued)), DestroyBy(l))
    case DecideStep(l) => WithLease(c, l, InOperation(c.leases[l], Deciding))
    case EndDestroyStep(l) => EndWrite(WithLease(c, l, InOperation(c.leases[l], Decided)), DestroyBy(l))
    case FinishStep(l) => WithLease(c, l, Finish(c.leases[l]))
    case CloseStep => Announce(c.(closed := true), CloseBy)
    case CloseRootStep => EndWrite(c.(rootOpen := false, rootCloses := c.rootCloses + 1), CloseBy)
  }

  function Next(c: Controller, step: Step): Controller {
    if Enabled(c, step) then Perform(c, step) else c
  }

  function Run(maximum: nat, steps: seq<Step>): Controller {
    if steps == [] then Begin(maximum) else Next(Run(maximum, steps[..|steps| - 1]), steps[|steps| - 1])
  }
}
