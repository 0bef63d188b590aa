/** The lease controller itself: counters, flags and lease records change in place,
    one method per stretch of code under a mutex. Each method is a step of
    CgroupController and keeps its invariant; waits end between methods. */
module CgroupLeases {
  import opened CgroupController
  import opened CgroupSafety

  datatype Refusal = Poisoned | Closed | Capacity | Busy | LeaseUnavailable | OperationRunning | AlreadyDestroyed

  datatype Reply = Done | Refused(why: Refusal) | Wait

  class Controller {
    const maximum: nat
    var reserved: int
    var reserving: set<nat>
    var leases: map<nat, Lease>
    var writerActive: bool
    ghost var holders: set<Writer>
    ghost var waiting: set<Writer>
    var writersWaiting: int
    var borrows: int
    var loans: map<nat, Loan>
    var poisoned: bool
    var closed: bool
    var rootOpen: bool
    var rootCloses: nat

    ghost function View(): CgroupController.Controller
      reads this
    {
      CgroupController.Controller.Controller(
        maximum, reserved, reserving, leases, writerActive, holders, waiting, writersWaiting,
        borrows, loans, poisoned, closed, rootOpen, rootCloses)
    }

    ghost predicate Valid()
      reads this
    {
      Sound(View())
    }

    constructor (maximum: nat)
      ensures Valid() && View() == Begin(maximum)
    {
      this.maximum := maximum;
      reserved, reserving, leases := 0, {}, map[];
      writerActive, holders, waiting, writersWaiting := false, {}, {}, 0;
      borrows, loans, poisoned, closed, rootOpen, rootCloses := 0, map[], false, false, true, 0;
      new;
      hide Sound;
      BeginSound(maximum);
    }

    // ----- authority -----

    method Announce(writer: Writer)
      modifies this`waiting, this`writersWaiting
      ensures View() == CgroupController.Announce(old(View()), writer)
    {
      waiting := waiting + {writer};
      writersWaiting := writersWaiting + 1;
    }

    /** One turn of the writer's loop: it takes the authority, or goes on waiting. */
    method TryBeginWrite(writer: Writer) returns (taken: bool)
      requires Valid() && writer in waiting
      modifies this`waiting, this`writersWaiting, this`writerActive, this`holders
      ensures Valid() && View() == Next(old(View()), BeginWriteStep(writer))
      ensures taken <==> writer in holders
      ensures taken ==> borrows == 0 && holders == {writer}
    {
      hide Sound;
      ghost var c := View();
      NextSound(c, BeginWriteStep(writer));
      WaitingIsOutside(c, writer);
      if writerActive || borrows != 0 {
        return false;
      }
      NobodyWrites(c);
      waiting := waiting - {writer};
      writersWaiting := writersWaiting - 1;
      writerActive := true;
      holders := holders + {writer};
      return true;
    }

    method EndWrite(writer: Writer)
      modifies this`writerActive, this`holders
      ensures View() == CgroupController.EndWrite(old(View()), writer)
    {
      writerActive := false;
      holders := holders - {writer};
    }

    // ----- prepare -----

    method Reserve(l: nat) returns (reply: Reply)
      requires Valid() && l !in reserving && l !in leases
      modifies this`reserved, this`reserving
      ensures Valid() && View() == Next(old(View()), ReserveStep(l))
      ensures reply == Done <==> !poisoned && !closed && old(reserved) < maximum
      ensures reply == Done ==> reserved <= maximum
    {
      hide Sound;
      NextSound(View(), ReserveStep(l));
      if poisoned {
        return Refused(Poisoned);
      }
      if closed {
        return Refused(Closed);
      }
      if reserved >= maximum {
        return Refused(Capacity);
      }
      reserved := reserved + 1;
      reserving := reserving + {l};
      return Done;
    }

    /** mkdir failed, or (poisoning) the new directory could not be opened. */
    method Unreserve(l: nat, poison: bool)
      requires Valid() && l in reserving
      modifies this`reserved, this`reserving, this`poisoned
      ensures Valid() && View() == Next(old(View()), UnreserveStep(l, poison))
    {
      hide Sound;
      NextSound(View(), UnreserveStep(l, poison));
      reserved := reserved - 1;
      reserving := reserving - {l};
      poisoned := poisoned || poison;
    }

    method Open(l: nat)
      requires Valid() && l in reserving
      modifies this`reserving, this`leases
      ensures Valid() && View() == Next(old(View()), OpenStep(l))
      ensures l in leases && leases[l].open && !leases[l].released && !leases[l].attachable
    {
      hide Sound;
      NextSound(View(), OpenStep(l));
      reserving := reserving - {l};
      leases := leases[l := NEW_LEASE];
    }

    /** The end of prepare: the lease is handed out, or the rollback begins. */
    method Conclude(l: nat, verified: bool) returns (attached: bool)
      requires Valid() && l in leases && leases[l].birth == Preparing
      modifies this`leases, this`waiting, this`writersWaiting
      ensures Valid() && View() == Next(old(View()), if attached then AttachStep(l) else UndoStep(l))
      ensures attached <==> verified && !poisoned
    {
      hide Sound;
      if verified && !poisoned {
        NextSound(View(), AttachStep(l));
        leases := leases[l := Attach(leases[l])];
        return true;
      }
      NextSound(View(), UndoStep(l));
      leases := leases[l := Undo(leases[l])];
      Announce(RollbackBy(l));
      return false;
    }

    /** The rollback could not verify or remove the directory: the caller keeps the lease. */
    method Keep(l: nat)
      requires Valid() && Enabled(View(), KeepStep(l))
      modifies this`leases, this`writerActive, this`holders
      ensures Valid() && View() == Next(old(View()), KeepStep(l))
    {
      hide Sound, WriterOf;
      NextSound(View(), KeepStep(l));
      leases := leases[l := HandOver(leases[l])];
      EndWrite(RollbackBy(l));
    }

    /** The directory is gone, or (poisoning) it is not the lease's own any more. */
    method Release(l: nat, replaced: bool)
      requires Valid() && Enabled(View(), ReleaseStep(l, replaced))
      modifies this`leases, this`reserved, this`poisoned
      ensures Valid() && View() == Next(old(View()), ReleaseStep(l, replaced))
    {
      hide Sound, WriterOf;
      NextSound(View(), ReleaseStep(l, replaced));
      leases := leases[l := CgroupController.Release(leases[l])];
      reserved := reserved - 1;
      poisoned := poisoned || replaced;
    }

    /** Closes the lease's descriptor, which nobody holds. */
    method CloseDescriptor(l: nat)
      requires Valid() && Enabled(View(), CloseDescriptorStep(l))
      modifies this`leases
      ensures Valid() && View() == Next(old(View()), CloseDescriptorStep(l))
      ensures l in leases && leases[l].closes == 1 && leases[l].lent == 0 && !leases[l].open
      ensures forall b | b in loans && loans[b].Holding? :: loans[b].lease != l
    {
      hide Sound, WriterOf;
      NextSound(View(), CloseDescriptorStep(l));
      ClosingIsSafe(View(), l);
      leases := leases[l := CgroupController.CloseDescriptor(leases[l])];
    }

    method EndRollback(l: nat)
      requires Valid() && Enabled(View(), EndRollbackStep(l))
      modifies this`leases, this`writerActive, this`holders
      ensures Valid() && View() == Next(old(View()), EndRollbackStep(l))
      ensures l in leases && leases[l].released && !leases[l].open && !writerActive && holders == {}
    {
      hide Sound;
      HolderIsAlone(View(), RollbackBy(l));
      NextSound(View(), EndRollbackStep(l));
      leases := leases[l := Discard(leases[l])];
      EndWrite(RollbackBy(l));
    }

    // ----- withDirectoryFD -----

    /** One turn of the borrower's loop. */
    method TryBorrow(b: nat, l: nat) returns (reply: Reply)
      requires Valid() && b !in loans && l in leases && leases[l].birth == Handed
      modifies this`borrows, this`loans
      ensures Valid() && View() == Next(old(View()), AdmitStep(b, l))
      ensures reply == Done ==> !writerActive && holders == {} && b in loans
      ensures reply.Refused? <==> poisoned || closed
    {
      hide Sound;
      ghost var c := View();
      NextSound(c, AdmitStep(b, l));
      if poisoned || closed {
        return Refused(LeaseUnavailable);
      }
      if writerActive || writersWaiting > 0 {
        WaitersCounted(c);
        return Wait;
      }
      WaitersCounted(c);
      NobodyWrites(c);
      borrows := borrows + 1;
      loans := loans[b := Admitted(l)];
      return Done;
    }

    /** Under the lease's mutex: take the descriptor, or turn back. */
    method Hold(b: nat) returns (lent: bool)
      requires Valid() && Enabled(View(), HoldStep(b))
      modifies this`leases, this`loans
      ensures Valid() && View() == Next(old(View()), HoldStep(b))
      ensures lent ==> b in loans && loans[b].Holding? && loans[b].lease in leases && leases[loans[b].lease].open
    {
      hide Sound;
      ghost var c := View();
      NextSound(c, HoldStep(b));
      var l := loans[b].lease;
      if !leases[l].attachable || leases[l].destroyed || leases[l].operation != NoOperation {
        loans := loans[b := Leaving(l)];
        return false;
      }
      LendableIsOpen(c, l);
      leases := leases[l := Lend(leases[l])];
      loans := loans[b := Holding(l)];
      return true;
    }

    method Return(b: nat)
      requires Valid() && Enabled(View(), ReturnStep(b))
      modifies this`leases, this`loans
      ensures Valid() && View() == Next(old(View()), ReturnStep(b))
    {
      hide Sound;
      NextSound(View(), ReturnStep(b));
      var l := loans[b].lease;
      leases := leases[l := TakeBack(leases[l])];
      loans := loans[b := Leaving(l)];
    }

    method Leave(b: nat)
      requires Valid() && Enabled(View(), LeaveStep(b))
      modifies this`borrows, this`loans
      ensures Valid() && View() == Next(old(View()), LeaveStep(b))
    {
      hide Sound;
      NextSound(View(), LeaveStep(b));
      borrows := borrows - 1;
      loans := loans - {b};
    }

    // ----- destroy -----

    /** Begins a destroy operation, unless one is running or has succeeded. */
    method BeginDestroy(l: nat) returns (reply: Reply)
      requires Valid() && l in leases && leases[l].birth == Handed
      modifies this`leases
      ensures Valid() && View() == Next(old(View()), DestroyStep(l))
      ensures reply == Done <==> !old(leases)[l].destroyed && old(leases)[l].operation in {NoOperation, Finished}
    {
      hide Sound;
      NextSound(View(), DestroyStep(l));
      if leases[l].destroyed {
        return Refused(AlreadyDestroyed);
      }
      if leases[l].operation != NoOperation && leases[l].operation != Finished {
        return Refused(OperationRunning);
      }
      leases := leases[l := InOperation(leases[l], Quiescing)];
      return Done;
    }

    /** The borrowers are gone and the processes killed, or the kill or the drain failed. */
    method Drained(l: nat, failed: bool)
      requires Valid() && Enabled(View(), DrainedStep(l, failed))
      modifies this`leases, this`waiting, this`writersWaiting
      ensures Valid() && View() == Next(old(View()), DrainedStep(l, failed))
    {
      hide Sound;
      NextSound(View(), DrainedStep(l, failed));
      if failed {
        leases := leases[l := InOperation(leases[l], Decided)];
        return;
      }
      leases := leases[l := InOperation(leases[l], Queued)];
      Announce(DestroyBy(l));
    }

    method Decide(l: nat)
      requires Valid() && Enabled(View(), DecideStep(l))
      modifies this`leases
      ensures Valid() && View() == Next(old(View()), DecideStep(l))
      ensures holders == {DestroyBy(l)} && borrows == 0
    {
      hide Sound;
      HolderIsAlone(View(), DestroyBy(l));
      NextSound(View(), DecideStep(l));
      leases := leases[l := InOperation(leases[l], Deciding)];
    }

    method EndDestroy(l: nat)
      requires Valid() && Enabled(View(), EndDestroyStep(l))
      modifies this`leases, this`writerActive, this`holders
      ensures Valid() && View() == Next(old(View()), EndDestroyStep(l))
      ensures l in leases && (leases[l].released ==> !leases[l].open) && !writerActive && holders == {}
    {
      hide Sound;
      HolderIsAlone(View(), DestroyBy(l));
      NextSound(View(), EndDestroyStep(l));
      leases := leases[l := InOperation(leases[l], Decided)];
      EndWrite(DestroyBy(l));
    }

    /** The operation is over; the lease is destroyed once its reservation went back. */
    method FinishDestroy(l: nat)
      requires Valid() && Enabled(View(), FinishStep(l))
      modifies this`leases
      ensures Valid() && View() == Next(old(View()), FinishStep(l))
    {
      hide Sound;
      NextSound(View(), FinishStep(l));
      leases := leases[l := Finish(leases[l])];
    }

    // ----- close -----

    method Close() returns (reply: Reply)
      requires Valid()
      modifies this`closed, this`waiting, this`writersWaiting
      ensures Valid() && View() == Next(old(View()), CloseStep)
      ensures reply == Done <==> !old(closed) && reserved == 0
      ensures reply == Done ==> forall l | l in leases :: leases[l].released
    {
      hide Sound;
      ghost var c := View();
      NextSound(c, CloseStep);
      if closed {
        return Refused(Closed);
      }
      if reserved != 0 {
        return Refused(Busy);
      }
      NothingOwed(c);
      closed := true;
      Announce(CloseBy);
      return Done;
    }

    method CloseRoot()
      requires Valid() && CloseBy in holders
      modifies this`rootOpen, this`rootCloses, this`writerActive, this`holders
      ensures Valid() && View() == Next(old(View()), CloseRootStep)
      ensures rootCloses == 1 && !rootOpen && borrows == 0
    {
      hide Sound;
      NextSound(View(), CloseRootStep);
      RootClosesOnce(View());
      rootOpen := false;
      rootCloses := rootCloses + 1;
      EndWrite(CloseBy);
    }
  }

  lemma WaitingIsOutside(c: CgroupController.Controller, writer: Writer)
    requires Sound(c) && writer in c.waiting
    ensures writer !in c.holders
  {
    hide Engaged, AllCoherent, Counted, Owing;
  }

  lemma HolderIsAlone(c: CgroupController.Controller, writer: Writer)
    requires Sound(c) && writer in c.holders
    ensures c.holders == {writer} && c.borrows == 0
  {
    hide Engaged, AllCoherent, Counted, Reserved, Closing;
  }

  lemma NobodyWrites(c: CgroupController.Controller)
    requires Sound(c) && !c.writerActive
    ensures c.holders == {}
  {
    hide Engaged, AllCoherent, Counted, Owing;
  }

  lemma WaitersCounted(c: CgroupController.Controller)
    requires Sound(c)
    ensures 0 <= c.writersWaiting
  {
    hide Engaged, AllCoherent, Counted, Owing;
  }

  /** A descriptor about to be closed has never been closed and is in nobody's hands. */
  lemma ClosingIsSafe(c: CgroupController.Controller, l: nat)
    requires Sound(c) && l in c.leases && c.leases[l].released && c.leases[l].open
    ensures c.leases[l].closes == 0 && c.leases[l].lent == 0
    ensures forall b | b in c.loans && c.loans[b].Holding? :: c.loans[b].lease != l
  {
    hide Engaged, Owing, Exclusive, Closing, Holders;
    LeaseCoherent(c, l);
    forall b | b in c.loans && c.loans[b].Holding? ensures c.loans[b].lease != l {
      SomeoneHolds(c.loans, c.leases, b);
    }
  }

  lemma LendableIsOpen(c: CgroupController.Controller, l: nat)
    requires Sound(c) && l in c.leases && Lendable(c.leases[l])
    ensures c.leases[l].open
  {
    hide Sound;
    LeaseCoherent(c, l);
  }

  lemma NothingOwed(c: CgroupController.Controller)
    requires Sound(c) && c.reserved == 0
    ensures forall l | l in c.leases :: c.leases[l].released
  {
    hide Engaged, AllCoherent, Counted, Exclusive, Closing;
    assert Owing(c.leases) == {};
    forall l | l in c.leases ensures c.leases[l].released {
      assert l !in Owing(c.leases);
    }
  }

  lemma RootClosesOnce(c: CgroupController.Controller)
    requires Sound(c) && CloseBy in c.holders
    ensures c.rootCloses == 0 && c.borrows == 0
  {
    hide AllCoherent, Counted, Owing;
  }
}
