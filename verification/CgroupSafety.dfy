/** Descriptor safety of the cgroup controller over every run. */
module CgroupSafety {
  import opened CgroupController

  // ----- invariant -----

  /** At most one writer holds the authority, never together with a borrower. */
  ghost predicate Exclusive(c: Controller) {
    && (c.writerActive <==> c.holders != {})
    && (forall w, v | w in c.holders && v in c.holders :: w == v)
    && (c.writerActive ==> c.borrows == 0)
    && c.borrows == |c.loans| && c.writersWaiting == |c.waiting|
    && c.waiting !! c.holders
  }

  /** The lease or the closing controller stands behind every writer. */
  ghost predicate Engaged(waiting: set<Writer>, holders: set<Writer>, leases: map<nat, Lease>, closed: bool,
                          rootOpen: bool) {
    && (forall w | w in waiting || w in holders ::
          && (w.RollbackBy? ==> w.lease in leases && leases[w.lease].birth == Undoing)
          && (w.DestroyBy?
              ==> w.lease in leases && leases[w.lease].birth == Handed
                  && (leases[w.lease].operation == Queued || leases[w.lease].operation == Deciding))
          && (w.CloseBy? ==> closed && rootOpen))
    && (forall l | l in leases && leases[l].operation == Deciding :: DestroyBy(l) in holders)
    && (closed && rootOpen ==> CloseBy in waiting || CloseBy in holders)
  }

  /** One lease's fields agree with how far its calls have come. */
  predicate Coherent(lease: Lease) {
    && lease.open == (lease.closes == 0) && lease.closes <= 1
    && (!lease.open ==> lease.released)
    && (lease.birth != Handed
        ==> lease.operation == NoOperation && lease.lent == 0 && !lease.attachable && !lease.destroyed)
    && (lease.birth == Preparing ==> !lease.released)
    && (lease.birth == Discarded ==> lease.released && !lease.open)
    && 0 <= lease.lent
    && (0 < lease.lent
        ==> lease.open && !lease.released && (lease.operation == NoOperation || lease.operation == Quiescing))
    && (lease.released && lease.birth == Handed
        ==> lease.operation == Deciding || lease.operation == Decided || lease.destroyed)
    && (lease.released && lease.operation == Decided ==> !lease.open)
    && (lease.destroyed ==> lease.released && !lease.open && lease.operation == Finished)
  }

  ghost predicate AllCoherent(leases: map<nat, Lease>) {
    forall l | l in leases :: Coherent(leases[l])
  }

  ghost function Holders(loans: map<nat, Loan>, l: nat): set<nat> {
    set b | b in loans && loans[b] == Holding(l)
  }

  /** Each lease's count is the number of callers that hold its descriptor. */
  ghost predicate Counted(loans: map<nat, Loan>, leases: map<nat, Lease>) {
    && (forall b | b in loans :: loans[b].lease in leases)
    && (forall l | l in leases :: leases[l].lent == |Holders(loans, l)|)
  }

  /** Leases whose reservation has not gone back. */
  function Owing(leases: map<nat, Lease>): set<nat> {
    set l | l in leases && !leases[l].released
  }

  ghost predicate Reserved(c: Controller) {
    && c.reserved == |c.reserving| + |Owing(c.leases)|
    && c.reserving !! c.leases.Keys
  }

  ghost predicate Closing(c: Controller) {
    && (c.closed ==> c.reserved == 0)
    && c.rootOpen == (c.rootCloses == 0) && c.rootCloses <= 1
    && (!c.closed ==> c.rootOpen)
  }

  ghost predicate Sound(c: Controller) {
    && Exclusive(c) && Engaged(c.waiting, c.holders, c.leases, c.closed, c.rootOpen)
    && AllCoherent(c.leases) && Counted(c.loans, c.leases) && Reserved(c) && Closing(c)
  }

  // ----- changes of one lease -----

  /** A lease changes without touching what is owed, lent or engaged. */
  predicate Quiet(before: Lease, after: Lease) {
    after.released == before.released && after.lent == before.lent && Coherent(after)
  }

  lemma OwingSame(leases: map<nat, Lease>, l: nat, lease: Lease)
    requires l in leases && lease.released == leases[l].released
    ensures Owing(leases[l := lease]) == Owing(leases)
  {
  }

  lemma CountedSame(loans: map<nat, Loan>, leases: map<nat, Lease>, l: nat, lease: Lease)
    requires Counted(loans, leases) && l in leases && lease.lent == leases[l].lent
    ensures Counted(loans, leases[l := lease])
  {
    hide Holders;
  }

  /** The lease keeps its place behind the writers that act for it. */
  predicate SameEngagement(c: Controller, l: nat, lease: Lease)
    requires l in c.leases
  {
    && (RollbackBy(l) in c.waiting || RollbackBy(l) in c.holders ==> lease.birth == Undoing)
    && (DestroyBy(l) in c.waiting || DestroyBy(l) in c.holders
        ==> lease.birth == Handed && (lease.operation == Queued || lease.operation == Deciding))
    && (lease.operation == Deciding ==> DestroyBy(l) in c.holders)
  }

  lemma QuietSound(c: Controller, l: nat, lease: Lease)
    requires Sound(c) && l in c.leases && Quiet(c.leases[l], lease) && SameEngagement(c, l, lease)
    ensures Sound(WithLease(c, l, lease))
  {
    hide Coherent, Counted, Owing, Engaged, SameEngagement;
    OwingSame(c.leases, l, lease);
    CountedSame(c.loans, c.leases, l, lease);
    QuietEngaged(c, l, lease);
    assert c.leases[l := lease].Keys == c.leases.Keys;
  }

  lemma QuietEngaged(c: Controller, l: nat, lease: Lease)
    requires Engaged(c.waiting, c.holders, c.leases, c.closed, c.rootOpen) && l in c.leases
             && SameEngagement(c, l, lease)
    ensures Engaged(c.waiting, c.holders, c.leases[l := lease], c.closed, c.rootOpen)
  {
  }

  // ----- authority -----

  /** The writer's lease is at the stage where it asks for the authority. */
  predicate Queues(c: Controller, writer: Writer) {
    match writer
    case RollbackBy(l) => l in c.leases && c.leases[l].birth == Undoing
    case DestroyBy(l) => l in c.leases && c.leases[l].birth == Handed && c.leases[l].operation == Queued
    case CloseBy => false
  }

  lemma AnnounceSound(c: Controller, writer: Writer)
    requires Sound(c) && writer !in c.waiting && writer !in c.holders && Queues(c, writer)
    ensures Sound(Announce(c, writer))
  {
    hide AllCoherent, Counted, Owing, Engaged, Queues;
    AnnounceEngaged(c, writer);
  }

  lemma AnnounceEngaged(c: Controller, writer: Writer)
    requires Engaged(c.waiting, c.holders, c.leases, c.closed, c.rootOpen) && Queues(c, writer)
    ensures Engaged(c.waiting + {writer}, c.holders, c.leases, c.closed, c.rootOpen)
  {
  }

  lemma BeginWriteSound(c: Controller, writer: Writer)
    requires Sound(c) && MayWrite(c, writer)
    ensures Sound(BeginWrite(c, writer))
  {
    hide AllCoherent, Counted, Owing;
    assert c.holders == {};
  }

  // ----- reservations -----

  lemma ReserveSound(c: Controller, l: nat)
    requires Sound(c) && MayReserve(c, l)
    ensures Sound(Reserve(c, l))
  {
    hide AllCoherent, Counted, Owing, Engaged;
  }

  lemma UnreserveSound(c: Controller, l: nat, poison: bool)
    requires Sound(c) && l in c.reserving
    ensures Sound(Unreserve(c, l, poison))
  {
    hide AllCoherent, Counted, Owing, Engaged;
  }

  lemma OpenSound(c: Controller, l: nat)
    requires Sound(c) && l in c.reserving
    ensures Sound(OpenLease(c, l))
  {
    hide Engaged, Counted, AllCoherent, Reserved;
    OpenReserved(c, l);
    OpenCounted(c.loans, c.leases, l);
    OpenEngaged(c, l);
    OpenCoherent(c.leases, l);
  }

  lemma OpenReserved(c: Controller, l: nat)
    requires Reserved(c) && l in c.reserving
    ensures l !in c.leases && Reserved(OpenLease(c, l))
  {
    hide Owing;
    assert l !in c.leases;
    OpenOwing(c.leases, l);
    assert c.leases[l := NEW_LEASE].Keys == c.leases.Keys + {l};
  }

  lemma OpenOwing(leases: map<nat, Lease>, l: nat)
    requires l !in leases
    ensures Owing(leases[l := NEW_LEASE]) == Owing(leases) + {l} && l !in Owing(leases)
  {
  }

  lemma OpenCounted(loans: map<nat, Loan>, leases: map<nat, Lease>, l: nat)
    requires Counted(loans, leases) && l !in leases
    ensures Counted(loans, leases[l := NEW_LEASE])
  {
    hide Holders;
    NoHolders(loans, leases, l);
  }

  lemma OpenCoherent(leases: map<nat, Lease>, l: nat)
    requires AllCoherent(leases)
    ensures AllCoherent(leases[l := NEW_LEASE])
  {
    assert Coherent(NEW_LEASE);
  }

  lemma NoHolders(loans: map<nat, Loan>, leases: map<nat, Lease>, l: nat)
    requires Counted(loans, leases) && l !in leases
    ensures |Holders(loans, l)| == 0
  {
    assert Holders(loans, l) == {};
  }

  lemma OpenEngaged(c: Controller, l: nat)
    requires Engaged(c.waiting, c.holders, c.leases, c.closed, c.rootOpen) && l !in c.leases
    ensures Engaged(c.waiting, c.holders, c.leases[l := NEW_LEASE], c.closed, c.rootOpen)
  {
  }

  /** The reservation of a lease goes back, once. */
  lemma ReleaseSound(c: Controller, l: nat, replaced: bool)
    requires Sound(c) && Enabled(c, ReleaseStep(l, replaced))
    ensures Sound(WithLease(c, l, Release(c.leases[l]))
                    .(reserved := c.reserved - 1, poisoned := c.poisoned || replaced))
  {
    hide Counted, Engaged, Owing, Coherent;
    var lease := Release(c.leases[l]);
    ReleaseOwing(c.leases, l);
    assert c.leases[l := lease].Keys == c.leases.Keys;
    CountedSame(c.loans, c.leases, l, lease);
    ReleaseEngaged(c, l);
    ReleaseCoherent(c.leases[l]);
    assert c.reserved != 0;
  }

  lemma ReleaseOwing(leases: map<nat, Lease>, l: nat)
    requires l in leases && !leases[l].released
    ensures Owing(leases[l := Release(leases[l])]) == Owing(leases) - {l} && l in Owing(leases) && 0 < |Owing(leases)|
  {
    var after := Owing(leases[l := Release(leases[l])]);
    assert after == Owing(leases) - {l};
    assert l in Owing(leases);
  }

  lemma ReleaseCoherent(lease: Lease)
    requires Coherent(lease) && !lease.released && (lease.birth == Undoing || lease.operation == Deciding)
    ensures Coherent(Release(lease))
  {
  }

  lemma ReleaseEngaged(c: Controller, l: nat)
    requires Engaged(c.waiting, c.holders, c.leases, c.closed, c.rootOpen) && l in c.leases
    ensures Engaged(c.waiting, c.holders, c.leases[l := Release(c.leases[l])], c.closed, c.rootOpen)
  {
  }

  // ----- loans -----

  lemma LoanSet(loans: map<nat, Loan>, b: nat, loan: Loan)
    ensures |loans[b := loan]| == if b in loans then |loans| else |loans| + 1
    ensures b in loans ==> |loans - {b}| == |loans| - 1
  {
    var after, left := loans[b := loan], loans - {b};
    assert after.Keys == loans.Keys + {b} && |after| == |after.Keys| && |loans| == |loans.Keys|;
    assert left.Keys == loans.Keys - {b} && |left| == |left.Keys|;
  }

  lemma NoLongerHolding(loans: map<nat, Loan>, leases: map<nat, Lease>, b: nat, loan: Loan)
    requires Counted(loans, leases) && (b in loans ==> !loans[b].Holding?) && !loan.Holding? && loan.lease in leases
    ensures Counted(loans[b := loan], leases) && Counted(loans - {b}, leases)
  {
    var after, left := loans[b := loan], loans - {b};
    forall l | l in leases ensures Holders(after, l) == Holders(loans, l) && Holders(left, l) == Holders(loans, l) {
    }
    hide Holders;
  }

  lemma AdmitSound(c: Controller, b: nat, l: nat)
    requires Sound(c) && Enabled(c, AdmitStep(b, l))
    ensures Sound(c.(borrows := c.borrows + 1, loans := c.loans[b := Admitted(l)]))
  {
    hide Owing, Engaged, AllCoherent, Counted;
    LoanSet(c.loans, b, Admitted(l));
    NoLongerHolding(c.loans, c.leases, b, Admitted(l));
  }

  lemma LeaveSound(c: Controller, b: nat)
    requires Sound(c) && Enabled(c, LeaveStep(b))
    ensures Sound(c.(borrows := c.borrows - 1, loans := c.loans - {b}))
  {
    hide Owing, Engaged, AllCoherent, Counted;
    LoanSet(c.loans, b, c.loans[b]);
    LoanKnown(c.loans, c.leases, b);
    NoLongerHolding(c.loans, c.leases, b, c.loans[b]);
  }

  lemma LoanKnown(loans: map<nat, Loan>, leases: map<nat, Lease>, b: nat)
    requires Counted(loans, leases) && b in loans
    ensures loans[b].lease in leases
  {
  }

  lemma TurnedAwaySound(c: Controller, b: nat)
    requires Sound(c) && Enabled(c, HoldStep(b))
    ensures Sound(c.(loans := c.loans[b := Leaving(c.loans[b].lease)]))
  {
    hide Owing, Engaged, AllCoherent, Counted;
    LoanSet(c.loans, b, Leaving(c.loans[b].lease));
    NoLongerHolding(c.loans, c.leases, b, Leaving(c.loans[b].lease));
  }

  lemma HoldersOf(loans: map<nat, Loan>, b: nat, loan: Loan, k: nat)
    requires b in loans && loan.lease == loans[b].lease
    ensures k != loan.lease ==> Holders(loans[b := loan], k) == Holders(loans, k)
    ensures loans[b].Admitted? && loan.Holding?
            ==> |Holders(loans[b := loan], loan.lease)| == |Holders(loans, loan.lease)| + 1
    ensures loans[b].Holding? && loan.Leaving?
            ==> |Holders(loans[b := loan], loan.lease)| == |Holders(loans, loan.lease)| - 1
  {
    var before, after := Holders(loans, loan.lease), Holders(loans[b := loan], loan.lease);
    if loans[b].Admitted? && loan.Holding? {
      assert after == before + {b} && b !in before;
    } else if loans[b].Holding? && loan.Leaving? {
      assert after == before - {b} && b in before;
    }
  }

  /** A loan changes hands: the count of its lease follows. */
  lemma LoanCounted(loans: map<nat, Loan>, leases: map<nat, Lease>, b: nat, loan: Loan, lease: Lease)
    requires Counted(loans, leases) && b in loans && loan.lease == loans[b].lease
    requires (loans[b].Admitted? && loan.Holding? && lease.lent == leases[loan.lease].lent + 1)
          || (loans[b].Holding? && loan.Leaving? && lease.lent == leases[loan.lease].lent - 1)
    ensures Counted(loans[b := loan], leases[loan.lease := lease])
  {
    hide Holders;
    HoldersOf(loans, b, loan, loan.lease);
    forall k | k in leases && k != loan.lease ensures Holders(loans[b := loan], k) == Holders(loans, k) {
      HoldersOf(loans, b, loan, k);
    }
  }

  lemma LoanEngaged(c: Controller, l: nat, lease: Lease)
    requires Engaged(c.waiting, c.holders, c.leases, c.closed, c.rootOpen) && l in c.leases
    requires lease.birth == c.leases[l].birth && lease.operation == c.leases[l].operation
    ensures Engaged(c.waiting, c.holders, c.leases[l := lease], c.closed, c.rootOpen)
  {
  }

  lemma LoanSound(c: Controller, b: nat, loan: Loan, lease: Lease)
    requires Sound(c) && b in c.loans && loan.lease == c.loans[b].lease && c.loans[b].lease in c.leases
    requires (c.loans[b].Admitted? && loan.Holding? && lease == Lend(c.leases[loan.lease]))
          || (c.loans[b].Holding? && loan.Leaving? && lease == TakeBack(c.leases[loan.lease]))
    requires Coherent(lease)
    ensures Sound(Loaned(c, b, loan, lease))
  {
    hide Owing, Engaged, Coherent, Counted;
    var l := loan.lease;
    LoanCounted(c.loans, c.leases, b, loan, lease);
    LoanEngaged(c, l, lease);
    OwingSame(c.leases, l, lease);
    assert c.leases[l := lease].Keys == c.leases.Keys;
    assert c.loans[b := loan].Keys == c.loans.Keys;
    assert |c.loans[b := loan]| == |c.loans[b := loan].Keys| && |c.loans| == |c.loans.Keys|;
  }

  lemma HoldSound(c: Controller, b: nat)
    requires Sound(c) && Enabled(c, HoldStep(b))
    ensures Sound(Perform(c, HoldStep(b)))
  {
    var lease := c.leases[c.loans[b].lease];
    if Lendable(lease) {
      assert Coherent(lease);
      LoanSound(c, b, Holding(c.loans[b].lease), Lend(lease));
    } else {
      TurnedAwaySound(c, b);
    }
  }

  lemma ReturnSound(c: Controller, b: nat)
    requires Sound(c) && Enabled(c, ReturnStep(b))
    ensures Sound(Perform(c, ReturnStep(b)))
  {
    var l := c.loans[b].lease;
    assert Coherent(c.leases[l]);
    SomeoneHolds(c.loans, c.leases, b);
    LoanSound(c, b, Leaving(l), TakeBack(c.leases[l]));
  }

  lemma SomeoneHolds(loans: map<nat, Loan>, leases: map<nat, Lease>, b: nat)
    requires Counted(loans, leases) && b in loans && loans[b].Holding?
    ensures 0 < leases[loans[b].lease].lent
  {
    assert b in Holders(loans, loans[b].lease);
  }

  // ----- steps -----

  lemma LeaseCoherent(c: Controller, l: nat)
    requires Sound(c) && l in c.leases
    ensures Coherent(c.leases[l])
  {
    hide Engaged, Counted, Owing;
  }

  /** Which writers can act for a lease follows from its stage. */
  lemma Acting(c: Controller, l: nat)
    requires Sound(c) && l in c.leases
    ensures c.leases[l].birth != Undoing ==> RollbackBy(l) !in c.waiting && RollbackBy(l) !in c.holders
    ensures c.leases[l].operation != Queued && c.leases[l].operation != Deciding
            ==> DestroyBy(l) !in c.waiting && DestroyBy(l) !in c.holders
    ensures c.leases[l].birth != Handed ==> DestroyBy(l) !in c.waiting && DestroyBy(l) !in c.holders
    ensures c.leases[l].operation == Deciding ==> DestroyBy(l) in c.holders
  {
    hide AllCoherent, Counted, Owing;
  }

  lemma PrepareSound(c: Controller, step: Step)
    requires Sound(c) && Enabled(c, step) && (step.AttachStep? || step.UndoStep?)
    ensures Sound(Perform(c, step))
  {
    hide Sound;
    var l := step.lease;
    LeaseCoherent(c, l);
    Acting(c, l);
    if step.AttachStep? {
      QuietSound(c, l, Attach(c.leases[l]));
    } else {
      QuietSound(c, l, Undo(c.leases[l]));
      AnnounceSound(WithLease(c, l, Undo(c.leases[l])), RollbackBy(l));
    }
  }

  lemma RollbackSound(c: Controller, step: Step)
    requires Sound(c) && Enabled(c, step) && (step.KeepStep? || step.EndRollbackStep?)
    ensures Sound(Perform(c, step))
  {
    hide Sound;
    var l := step.lease;
    LeaseCoherent(c, l);
    Acting(c, l);
    OneHolder(c, RollbackBy(l));
    var lease := if step.KeepStep? then HandOver(c.leases[l]) else Discard(c.leases[l]);
    EndLeaseSound(c, l, lease, RollbackBy(l));
  }

  lemma OneHolder(c: Controller, writer: Writer)
    requires Sound(c) && writer in c.holders
    ensures c.holders == {writer} && writer !in c.waiting && c.writerActive && c.borrows == 0
  {
    hide AllCoherent, Counted, Owing, Engaged;
  }

  /** A writer's last section: its lease moves on and the authority is given up together. */
  lemma EndLeaseSound(c: Controller, l: nat, lease: Lease, writer: Writer)
    requires Sound(c) && l in c.leases && Quiet(c.leases[l], lease)
    requires writer == RollbackBy(l) || writer == DestroyBy(l)
    requires c.holders == {writer} && writer !in c.waiting && lease.operation != Deciding
    requires RollbackBy(l) !in c.waiting && DestroyBy(l) !in c.waiting
    ensures Sound(EndWrite(WithLease(c, l, lease), writer))
  {
    hide Coherent, Counted, Owing, Engaged;
    OwingSame(c.leases, l, lease);
    CountedSame(c.loans, c.leases, l, lease);
    EndEngaged(c, l, lease, writer);
    assert c.leases[l := lease].Keys == c.leases.Keys;
    assert c.holders - {writer} == {};
  }

  lemma EndEngaged(c: Controller, l: nat, lease: Lease, writer: Writer)
    requires Engaged(c.waiting, c.holders, c.leases, c.closed, c.rootOpen) && l in c.leases
    requires writer == RollbackBy(l) || writer == DestroyBy(l)
    requires c.holders == {writer} && lease.operation != Deciding && RollbackBy(l) !in c.waiting
             && DestroyBy(l) !in c.waiting
    ensures Engaged(c.waiting, c.holders - {writer}, c.leases[l := lease], c.closed, c.rootOpen)
  {
  }

  lemma CloseDescriptorSound(c: Controller, l: nat)
    requires Sound(c) && Enabled(c, CloseDescriptorStep(l))
    ensures Sound(Perform(c, CloseDescriptorStep(l)))
  {
    hide Sound;
    LeaseCoherent(c, l);
    Acting(c, l);
    QuietSound(c, l, CloseDescriptor(c.leases[l]));
  }

  lemma DestroySound(c: Controller, step: Step)
    requires Sound(c) && Enabled(c, step)
             && (step.DestroyStep? || step.DrainedStep? || step.DecideStep? || step.FinishStep?)
    ensures Sound(Perform(c, step))
  {
    hide Sound;
    var l := step.lease;
    LeaseCoherent(c, l);
    Acting(c, l);
    if step.DestroyStep? {
      QuietSound(c, l, InOperation(c.leases[l], Quiescing));
    } else if step.DecideStep? {
      QuietSound(c, l, InOperation(c.leases[l], Deciding));
    } else if step.FinishStep? {
      QuietSound(c, l, Finish(c.leases[l]));
    } else if step.failed {
      QuietSound(c, l, InOperation(c.leases[l], Decided));
    } else {
      QuietSound(c, l, InOperation(c.leases[l], Queued));
      AnnounceSound(WithLease(c, l, InOperation(c.leases[l], Queued)), DestroyBy(l));
    }
  }

  lemma EndDestroySound(c: Controller, l: nat)
    requires Sound(c) && Enabled(c, EndDestroyStep(l))
    ensures Sound(Perform(c, EndDestroyStep(l)))
  {
    hide Sound;
    LeaseCoherent(c, l);
    Acting(c, l);
    OneHolder(c, DestroyBy(l));
    EndLeaseSound(c, l, InOperation(c.leases[l], Decided), DestroyBy(l));
  }

  lemma CloseSound(c: Controller)
    requires Sound(c) && Enabled(c, CloseStep)
    ensures Sound(Perform(c, CloseStep))
  {
    hide AllCoherent, Counted, Owing, Engaged;
    CloseEngaged(c);
  }

  lemma CloseEngaged(c: Controller)
    requires Engaged(c.waiting, c.holders, c.leases, c.closed, c.rootOpen) && !c.closed && c.rootOpen
    ensures CloseBy !in c.waiting && CloseBy !in c.holders
    ensures Engaged(c.waiting + {CloseBy}, c.holders, c.leases, true, c.rootOpen)
  {
  }

  lemma CloseRootSound(c: Controller)
    requires Sound(c) && Enabled(c, CloseRootStep)
    ensures Sound(Perform(c, CloseRootStep))
  {
    hide AllCoherent, Counted, Owing, Engaged;
    OneHolder(c, CloseBy);
    CloseRootEngaged(c);
    assert c.holders - {CloseBy} == {};
  }

  lemma CloseRootEngaged(c: Controller)
    requires Engaged(c.waiting, c.holders, c.leases, c.closed, c.rootOpen) && c.holders == {CloseBy}
             && CloseBy !in c.waiting
    ensures c.closed && c.rootOpen && Engaged(c.waiting, c.holders - {CloseBy}, c.leases, c.closed, false)
  {
  }

  lemma NextSound(c: Controller, step: Step)
    requires Sound(c)
    ensures Sound(Next(c, step))
  {
    hide Sound;
    if Enabled(c, step) {
      match step
      case ReserveStep(l) => ReserveSound(c, l);
      case UnreserveStep(l, poison) => UnreserveSound(c, l, poison);
      case OpenStep(l) => OpenSound(c, l);
      case AttachStep(_) => PrepareSound(c, step);
      case UndoStep(_) => PrepareSound(c, step);
      case BeginWriteStep(writer) => BeginWriteSound(c, writer);
      case KeepStep(_) => RollbackSound(c, step);
      case ReleaseStep(l, replaced) => ReleaseSound(c, l, replaced);
      case CloseDescriptorStep(l) => CloseDescriptorSound(c, l);
      case EndRollbackStep(_) => RollbackSound(c, step);
      case AdmitStep(b, l) => AdmitSound(c, b, l);
      case HoldStep(b) => HoldSound(c, b);
      case ReturnStep(b) => ReturnSound(c, b);
      case LeaveStep(b) => LeaveSound(c, b);
      case DestroyStep(_) => DestroySound(c, step);
      case DrainedStep(_, _) => DestroySound(c, step);
      case DecideStep(_) => DestroySound(c, step);
      case EndDestroyStep(l) => EndDestroySound(c, l);
      case FinishStep(_) => DestroySound(c, step);
      case CloseStep => CloseSound(c);
      case CloseRootStep => CloseRootSound(c);
    }
  }

  lemma {:induction false} RunSound(maximum: nat, steps: seq<Step>)
    ensures Sound(Run(maximum, steps))
  {
    hide Sound, Next;
    if steps == [] {
      BeginSound(maximum);
    } else {
      RunSound(maximum, steps[..|steps| - 1]);
      NextSound(Run(maximum, steps[..|steps| - 1]), steps[|steps| - 1]);
    }
  }

  lemma BeginSound(maximum: nat)
    ensures Sound(Begin(maximum))
  {
  }

  // ----- what the invariant means -----

  /** One writer at a time, and none while anyone borrows. */
  lemma WritersExcludeBorrowers(maximum: nat, steps: seq<Step>)
    ensures var c := Run(maximum, steps);
            && |c.holders| <= 1 && (c.writerActive <==> |c.holders| == 1)
            && (c.holders != {} ==> c.loans == map[])
  {
    hide Run, AllCoherent, Counted, Owing, Engaged;
    RunSound(maximum, steps);
    var c := Run(maximum, steps);
    if c.holders != {} {
      var w :| w in c.holders;
      OneHolder(c, w);
    }
  }

  /** A descriptor is open while it is lent and closed at most once; a lent lease has not given its reservation back. */
  lemma DescriptorSafe(maximum: nat, steps: seq<Step>, l: nat)
    requires l in Run(maximum, steps).leases
    ensures var c := Run(maximum, steps);
            && c.leases[l].closes <= 1 && c.leases[l].open == (c.leases[l].closes == 0)
            && ((exists b :: b in c.loans && c.loans[b] == Holding(l))
                ==> c.leases[l].open && !c.leases[l].released && !c.leases[l].destroyed)
            && (c.leases[l].destroyed ==> c.leases[l].closes == 1)
  {
    hide Run, Engaged, Owing;
    RunSound(maximum, steps);
    var c := Run(maximum, steps);
    assert Coherent(c.leases[l]);
    if b :| b in c.loans && c.loans[b] == Holding(l) {
      SomeoneHolds(c.loans, c.leases, b);
    }
  }

  /** The counter is the number of reservations that have not gone back, and the
      root is closed only when there are none, at most once. */
  lemma CapacityExact(maximum: nat, steps: seq<Step>)
    ensures var c := Run(maximum, steps);
            && c.reserved == |c.reserving| + |Owing(c.leases)|
            && (c.closed ==> c.reserving == {} && forall l | l in c.leases :: c.leases[l].released)
            && c.rootCloses <= 1
  {
    hide Run, Engaged, AllCoherent, Counted;
    RunSound(maximum, steps);
    var c := Run(maximum, steps);
    if c.closed {
      assert Owing(c.leases) == {};
      forall l | l in c.leases ensures c.leases[l].released {
        assert l !in Owing(c.leases);
      }
    }
  }
}
