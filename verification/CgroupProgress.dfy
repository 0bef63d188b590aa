/** What the controller's calls achieve when nobody is in their way, from every reachable state, and what is final. */
module CgroupProgress {
  import opened CgroupController
  import Safety = CgroupSafety

  /** The steps one after the other. */
  function Onward(c: Controller, steps: seq<Step>): Controller {
    if steps == [] then c else Next(Onward(c, steps[..|steps| - 1]), steps[|steps| - 1])
  }

  /** Going on from a reachable state is a longer run. */
  lemma {:induction false} OnwardRuns(maximum: nat, before: seq<Step>, steps: seq<Step>)
    ensures Onward(Run(maximum, before), steps) == Run(maximum, before + steps)
  {
    hide Next;
    if steps == [] {
      assert before + steps == before;
    } else {
      OnwardRuns(maximum, before, steps[..|steps| - 1]);
      assert (before + steps)[..|before + steps| - 1] == before + steps[..|steps| - 1];
    }
  }

  lemma OneStep(c: Controller, steps: seq<Step>, k: nat)
    requires k < |steps|
    ensures Onward(c, steps[..k + 1]) == Next(Onward(c, steps[..k]), steps[k])
  {
    hide Next;
    assert steps[..k + 1][..k] == steps[..k];
  }

  lemma NoStep(c: Controller)
    ensures Onward(c, []) == c
  {
  }

  /** Nobody writes, waits to write or borrows. */
  ghost predicate Quiet(c: Controller) {
    !c.writerActive && c.waiting == {} && c.loans == map[]
  }

  lemma QuietCounts(maximum: nat, steps: seq<Step>)
    requires Quiet(Run(maximum, steps))
    ensures var c := Run(maximum, steps); c.borrows == 0 && c.writersWaiting == 0 && c.holders == {}
  {
    hide Run, Safety.Engaged, Safety.AllCoherent, Safety.Counted, Safety.Reserved, Safety.Closing;
    Safety.RunSound(maximum, steps);
  }

  lemma LeaseIsCoherent(maximum: nat, steps: seq<Step>, l: nat)
    requires l in Run(maximum, steps).leases
    ensures Safety.Coherent(Run(maximum, steps).leases[l])
  {
    hide Run, Safety.Engaged, Safety.Exclusive, Safety.Counted, Safety.Reserved, Safety.Closing, Safety.Coherent;
    Safety.RunSound(maximum, steps);
  }

  // ----- prepare -----

  /** A healthy controller with room left hands out a lease with an open descriptor. */
  lemma PrepareCompletes(maximum: nat, before: seq<Step>, l: nat)
    requires var c := Run(maximum, before);
             && !c.poisoned && !c.closed && c.reserved < c.maximum && l !in c.reserving && l !in c.leases
    ensures var c := Run(maximum, before);
            Onward(c, [ReserveStep(l), OpenStep(l), AttachStep(l)])
            == c.(reserved := c.reserved + 1,
                  leases := c.leases[l := Lease(Handed, true, false, NoOperation, 0, false, true, 0)])
  {
    hide Run;
    var c, steps := Run(maximum, before), [ReserveStep(l), OpenStep(l), AttachStep(l)];
    Three(c, steps);
    assert c.reserving + {l} - {l} == c.reserving;
  }

  lemma Three(c: Controller, steps: seq<Step>)
    requires |steps| == 3
    ensures Onward(c, steps) == Next(Next(Next(c, steps[0]), steps[1]), steps[2])
  {
    hide Next, Onward;
    NoStep(c);
    assert steps[..0] == [] && steps[..3] == steps;
    OneStep(c, steps, 0);
    OneStep(c, steps, 1);
    OneStep(c, steps, 2);
  }

  /** Without room, poisoned or closed, it reserves nothing. */
  lemma PrepareRefused(c: Controller, l: nat)
    requires c.poisoned || c.closed || c.maximum <= c.reserved
    ensures Next(c, ReserveStep(l)) == c
  {
  }

  /** A reservation whose directory cannot be made or opened goes back; only the latter poisons the controller. */
  lemma UnreserveReturns(maximum: nat, before: seq<Step>, l: nat, poison: bool)
    requires l in Run(maximum, before).reserving
    ensures var c := Run(maximum, before);
            Next(c, UnreserveStep(l, poison))
            == c.(reserved := c.reserved - 1, reserving := c.reserving - {l}, poisoned := c.poisoned || poison)
  {
    hide Run;
  }

  /** A prepared lease is handed out exactly while nothing has poisoned the controller. */
  lemma AttachDecided(maximum: nat, before: seq<Step>, l: nat)
    requires l in Run(maximum, before).leases && Run(maximum, before).leases[l].birth == Preparing
    ensures var c := Run(maximum, before);
            Next(c, AttachStep(l))
            == if c.poisoned then c else c.(leases := c.leases[l := c.leases[l].(birth := Handed, attachable := true)])
  {
    hide Run;
  }

  // ----- borrow -----

  /** A borrower gets in exactly while the controller is healthy and no writer is in or waits. */
  lemma AdmitDecided(maximum: nat, before: seq<Step>, b: nat, l: nat)
    ensures var c := Run(maximum, before);
            var n := Next(c, AdmitStep(b, l));
            if && b !in c.loans && l in c.leases && c.leases[l].birth == Handed && !c.poisoned && !c.closed
               && c.waiting == {} && c.holders == {}
            then n == c.(borrows := c.borrows + 1, loans := c.loans[b := Admitted(l)])
            else n == c
  {
    hide Run, Safety.Engaged, Safety.AllCoherent, Safety.Counted, Safety.Reserved, Safety.Closing;
    Safety.RunSound(maximum, before);
  }

  /** While nobody writes, a caller of a usable lease holds its open descriptor, and afterwards all is as before. */
  lemma BorrowCompletes(maximum: nat, before: seq<Step>, b: nat, l: nat)
    requires var c := Run(maximum, before);
             && !c.poisoned && !c.closed && Quiet(c) && l in c.leases && c.leases[l].birth == Handed
             && c.leases[l].attachable && c.leases[l].operation == NoOperation
    ensures var c := Run(maximum, before);
            var held := Onward(c, [AdmitStep(b, l), HoldStep(b)]);
            && held == c.(borrows := 1, loans := map[b := Holding(l)],
                          leases := c.leases[l := c.leases[l].(lent := c.leases[l].lent + 1)])
            && held.leases[l].open
            && Onward(held, [ReturnStep(b), LeaveStep(b)]) == c
  {
    hide Run, Next, Onward;
    var c := Run(maximum, before);
    QuietCounts(maximum, before);
    LeaseIsCoherent(maximum, before, l);
    Two(c, [AdmitStep(b, l), HoldStep(b)]);
    BorrowHolds(c, b, l);
    Two(Next(Next(c, AdmitStep(b, l)), HoldStep(b)), [ReturnStep(b), LeaveStep(b)]);
    BorrowReturns(c, b, l);
  }

  /** Lent to one caller. */
  function LentTo(c: Controller, b: nat, loan: Loan, lease: Lease): Controller {
    c.(borrows := 1, loans := map[b := loan], leases := c.leases[loan.lease := lease])
  }

  lemma BorrowHolds(c: Controller, b: nat, l: nat)
    requires !c.poisoned && !c.closed && !c.writerActive && c.writersWaiting == 0 && c.loans == map[] && c.borrows == 0
    requires l in c.leases && c.leases[l].birth == Handed && Lendable(c.leases[l])
    ensures Next(Next(c, AdmitStep(b, l)), HoldStep(b))
            == LentTo(c, b, Holding(l), c.leases[l].(lent := c.leases[l].lent + 1))
  {
    assert Enabled(c, AdmitStep(b, l));
    var k := Next(c, AdmitStep(b, l));
    assert k == LentTo(c, b, Admitted(l), c.leases[l]) by {
      assert c.leases[l := c.leases[l]] == c.leases;
    }
    assert Enabled(k, HoldStep(b));
    assert map[b := Admitted(l)][b := Holding(l)] == map[b := Holding(l)];
  }

  lemma BorrowReturns(c: Controller, b: nat, l: nat)
    requires l in c.leases && c.loans == map[] && c.borrows == 0
    ensures var held := LentTo(c, b, Holding(l), c.leases[l].(lent := c.leases[l].lent + 1));
            Next(Next(held, ReturnStep(b)), LeaveStep(b)) == c
  {
    hide Next;
    GivesBack(c, b, l, c.leases[l]);
    Leaves(c, b, l);
  }

  lemma GivesBack(c: Controller, b: nat, l: nat, lease: Lease)
    ensures Next(LentTo(c, b, Holding(l), lease.(lent := lease.lent + 1)), ReturnStep(b))
            == LentTo(c, b, Leaving(l), lease)
  {
    var held := LentTo(c, b, Holding(l), lease.(lent := lease.lent + 1));
    assert Enabled(held, ReturnStep(b));
    assert map[b := Holding(l)][b := Leaving(l)] == map[b := Leaving(l)];
    Twice(c.leases, l, lease.(lent := lease.lent + 1), lease);
  }

  lemma Leaves(c: Controller, b: nat, l: nat)
    requires l in c.leases && c.loans == map[] && c.borrows == 0
    ensures Next(LentTo(c, b, Leaving(l), c.leases[l]), LeaveStep(b)) == c
  {
    assert Enabled(LentTo(c, b, Leaving(l), c.leases[l]), LeaveStep(b));
    assert map[b := Leaving(l)] - {b} == map[] && c.leases[l := c.leases[l]] == c.leases;
  }

  lemma Two(c: Controller, steps: seq<Step>)
    requires |steps| == 2
    ensures Onward(c, steps) == Next(Next(c, steps[0]), steps[1])
  {
    hide Next, Onward;
    NoStep(c);
    assert steps[..0] == [] && steps[..2] == steps;
    OneStep(c, steps, 0);
    OneStep(c, steps, 1);
  }

  /** A lease that is being destroyed or was never usable is not lent: the caller leaves with nothing. */
  lemma BorrowTurnedAway(maximum: nat, before: seq<Step>, b: nat)
    requires var c := Run(maximum, before);
             && b in c.loans && c.loans[b].Admitted? && c.loans[b].lease in c.leases
             && (!c.leases[c.loans[b].lease].attachable || c.leases[c.loans[b].lease].operation != NoOperation)
    ensures var c := Run(maximum, before);
            Next(c, HoldStep(b)) == c.(loans := c.loans[b := Leaving(c.loans[b].lease)])
  {
    hide Run;
  }

  // ----- one lease and the authority -----

  datatype Authority = Free | WantedBy(writer: Writer) | HeldBy(writer: Writer)

  /** The controller with this lease, count, poison and authority. */
  function At(c: Controller, l: nat, lease: Lease, reserved: int, poisoned: bool, authority: Authority): Controller {
    c.(leases := c.leases[l := lease], reserved := reserved, poisoned := poisoned,
       waiting := if authority.WantedBy? then {authority.writer} else {},
       writersWaiting := if authority.WantedBy? then 1 else 0,
       writerActive := authority.HeldBy?, holders := if authority.HeldBy? then {authority.writer} else {})
  }

  lemma AtRest(c: Controller, l: nat)
    requires l in c.leases && !c.writerActive && c.waiting == {} && c.holders == {} && c.writersWaiting == 0
    ensures At(c, l, c.leases[l], c.reserved, c.poisoned, Free) == c
  {
    assert c.leases[l := c.leases[l]] == c.leases;
  }

  lemma TakesAuthority(c: Controller, l: nat, lease: Lease, reserved: int, poisoned: bool, writer: Writer)
    requires c.borrows == 0
    ensures Next(At(c, l, lease, reserved, poisoned, WantedBy(writer)), BeginWriteStep(writer))
            == At(c, l, lease, reserved, poisoned, HeldBy(writer))
  {
    var k := At(c, l, lease, reserved, poisoned, WantedBy(writer));
    assert Enabled(k, BeginWriteStep(writer));
    assert {writer} - {writer} == {} && {} + {writer} == {writer};
  }

  lemma ReleasesIt(c: Controller, l: nat, lease: Lease, reserved: int, poisoned: bool, replaced: bool)
    requires !lease.released && (lease.birth == Undoing || lease.operation == Deciding)
    ensures var writer := WriterOf(lease, l);
            Next(At(c, l, lease, reserved, poisoned, HeldBy(writer)), ReleaseStep(l, replaced))
            == At(c, l, lease.(released := true), reserved - 1, poisoned || replaced, HeldBy(writer))
  {
    var k := At(c, l, lease, reserved, poisoned, HeldBy(WriterOf(lease, l)));
    assert Enabled(k, ReleaseStep(l, replaced));
    Twice(c.leases, l, lease, lease.(released := true));
  }

  lemma Twice(leases: map<nat, Lease>, l: nat, first: Lease, second: Lease)
    ensures leases[l := first][l := second] == leases[l := second]
  {
  }

  lemma ClosesIt(c: Controller, l: nat, lease: Lease, reserved: int, poisoned: bool)
    requires lease.released && lease.open
    ensures var writer := WriterOf(lease, l);
            Next(At(c, l, lease, reserved, poisoned, HeldBy(writer)), CloseDescriptorStep(l))
            == At(c, l, lease.(open := false, closes := lease.closes + 1), reserved, poisoned, HeldBy(writer))
  {
    var k := At(c, l, lease, reserved, poisoned, HeldBy(WriterOf(lease, l)));
    assert Enabled(k, CloseDescriptorStep(l));
    Twice(c.leases, l, lease, lease.(open := false, closes := lease.closes + 1));
  }

  // ----- destroy -----

  function DestroySteps(l: nat, replaced: bool): seq<Step> {
    [DestroyStep(l), DrainedStep(l, false), BeginWriteStep(DestroyBy(l)), DecideStep(l), ReleaseStep(l, replaced),
     CloseDescriptorStep(l), EndDestroyStep(l), FinishStep(l)]
  }

  /** Left alone, a destroy returns the reservation, closes the descriptor and frees the authority; only a directory
      that was replaced poisons the controller. */
  lemma DestroyCompletes(maximum: nat, before: seq<Step>, l: nat, replaced: bool)
    requires var c := Run(maximum, before);
             && Quiet(c) && l in c.leases && c.leases[l].birth == Handed && !c.leases[l].destroyed
             && (c.leases[l].operation == NoOperation || c.leases[l].operation == Finished)
    ensures var c := Run(maximum, before);
            Onward(c, DestroySteps(l, replaced))
            == c.(reserved := c.reserved - 1, poisoned := c.poisoned || replaced,
                  leases := c.leases[l := c.leases[l].(operation := Finished, destroyed := true, released := true,
                                                       open := false, closes := 1)])
  {
    hide Run, Onward, Next, At;
    var c, steps := Run(maximum, before), DestroySteps(l, replaced);
    var lease := c.leases[l];
    QuietCounts(maximum, before);
    LeaseIsCoherent(maximum, before, l);
    NobodyHolds(maximum, before, l);
    NoStep(c);
    assert steps[..0] == [] && steps[..8] == steps;
    OneStep(c, steps, 0);
    OneStep(c, steps, 1);
    OneStep(c, steps, 2);
    OneStep(c, steps, 3);
    OneStep(c, steps, 4);
    OneStep(c, steps, 5);
    OneStep(c, steps, 6);
    OneStep(c, steps, 7);
    AtRest(c, l);
    DestroyBegins(c, l, lease);
    TakesAuthority(c, l, lease.(operation := Queued), c.reserved, c.poisoned, DestroyBy(l));
    DestroyDecides(c, l, lease);
    ReleasesIt(c, l, lease.(operation := Deciding), c.reserved, c.poisoned, replaced);
    var given := lease.(operation := Deciding, released := true);
    ClosesIt(c, l, given, c.reserved - 1, c.poisoned || replaced);
    DestroyEnds(c, l, given.(open := false, closes := 1), c.reserved - 1, c.poisoned || replaced);
    AtFree(c, l, lease.(operation := Finished, destroyed := true, released := true, open := false, closes := 1),
           c.reserved - 1, c.poisoned || replaced);
  }

  lemma AtFree(c: Controller, l: nat, lease: Lease, reserved: int, poisoned: bool)
    requires !c.writerActive && c.waiting == {} && c.holders == {} && c.writersWaiting == 0
    ensures At(c, l, lease, reserved, poisoned, Free)
            == c.(reserved := reserved, poisoned := poisoned, leases := c.leases[l := lease])
  {
  }

  lemma NobodyHolds(maximum: nat, steps: seq<Step>, l: nat)
    requires Run(maximum, steps).loans == map[] && l in Run(maximum, steps).leases
    ensures Run(maximum, steps).leases[l].lent == 0
  {
    hide Run, Safety.Engaged, Safety.Exclusive, Safety.AllCoherent, Safety.Reserved, Safety.Closing;
    Safety.RunSound(maximum, steps);
    assert Safety.Holders(Run(maximum, steps).loans, l) == {};
  }

  lemma DestroyBegins(c: Controller, l: nat, lease: Lease)
    requires lease.birth == Handed && !lease.destroyed && lease.lent == 0
    requires lease.operation == NoOperation || lease.operation == Finished
    ensures var first := Next(At(c, l, lease, c.reserved, c.poisoned, Free), DestroyStep(l));
            && first == At(c, l, lease.(operation := Quiescing), c.reserved, c.poisoned, Free)
            && Next(first, DrainedStep(l, false))
               == At(c, l, lease.(operation := Queued), c.reserved, c.poisoned, WantedBy(DestroyBy(l)))
  {
    var k := At(c, l, lease, c.reserved, c.poisoned, Free);
    assert Enabled(k, DestroyStep(l));
    Twice(c.leases, l, lease, lease.(operation := Quiescing));
    assert Next(k, DestroyStep(l)) == At(c, l, lease.(operation := Quiescing), c.reserved, c.poisoned, Free);
    Twice(c.leases, l, lease.(operation := Quiescing), lease.(operation := Queued));
    assert {} + {DestroyBy(l)} == {DestroyBy(l)};
  }

  lemma DestroyDecides(c: Controller, l: nat, lease: Lease)
    ensures Next(At(c, l, lease.(operation := Queued), c.reserved, c.poisoned, HeldBy(DestroyBy(l))), DecideStep(l))
            == At(c, l, lease.(operation := Deciding), c.reserved, c.poisoned, HeldBy(DestroyBy(l)))
  {
    var k := At(c, l, lease.(operation := Queued), c.reserved, c.poisoned, HeldBy(DestroyBy(l)));
    assert Enabled(k, DecideStep(l));
    Twice(c.leases, l, lease.(operation := Queued), lease.(operation := Deciding));
  }

  lemma DestroyEnds(c: Controller, l: nat, lease: Lease, reserved: int, poisoned: bool)
    requires lease.operation == Deciding && lease.released && !lease.open
    ensures var first := Next(At(c, l, lease, reserved, poisoned, HeldBy(DestroyBy(l))), EndDestroyStep(l));
            && first == At(c, l, lease.(operation := Decided), reserved, poisoned, Free)
            && Next(first, FinishStep(l))
               == At(c, l, lease.(operation := Finished, destroyed := true), reserved, poisoned, Free)
  {
    var k := At(c, l, lease, reserved, poisoned, HeldBy(DestroyBy(l)));
    assert Enabled(k, EndDestroyStep(l));
    assert {DestroyBy(l)} - {DestroyBy(l)} == {};
    Twice(c.leases, l, lease, lease.(operation := Decided));
    assert Next(k, EndDestroyStep(l)) == At(c, l, lease.(operation := Decided), reserved, poisoned, Free);
    Twice(c.leases, l, lease.(operation := Decided), lease.(operation := Finished, destroyed := true));
  }

  /** A destroy that cannot drain its lease leaves the reservation owed and can be tried again. */
  lemma DestroyFails(maximum: nat, before: seq<Step>, l: nat)
    requires var c := Run(maximum, before);
             && l in c.leases && c.leases[l].birth == Handed && !c.leases[l].destroyed && c.leases[l].lent == 0
             && (c.leases[l].operation == NoOperation || c.leases[l].operation == Finished)
    ensures var c := Run(maximum, before);
            var n := Onward(c, [DestroyStep(l), DrainedStep(l, true), FinishStep(l)]);
            && n == c.(leases := c.leases[l := c.leases[l].(operation := Finished)])
            && !n.leases[l].released && Enabled(n, DestroyStep(l))
  {
    hide Run, Onward, Next;
    LeaseIsCoherent(maximum, before, l);
    Three(Run(maximum, before), [DestroyStep(l), DrainedStep(l, true), FinishStep(l)]);
    FailsAndEnds(Run(maximum, before), l);
  }

  lemma FailsAndEnds(c: Controller, l: nat)
    requires l in c.leases && c.leases[l].birth == Handed && !c.leases[l].destroyed && c.leases[l].lent == 0
    requires !c.leases[l].released && (c.leases[l].operation == NoOperation || c.leases[l].operation == Finished)
    ensures Next(Next(Next(c, DestroyStep(l)), DrainedStep(l, true)), FinishStep(l))
            == c.(leases := c.leases[l := c.leases[l].(operation := Finished)])
  {
    var lease := c.leases[l];
    var first := c.(leases := c.leases[l := lease.(operation := Quiescing)]);
    var second := c.(leases := c.leases[l := lease.(operation := Decided)]);
    assert Next(c, DestroyStep(l)) == first;
    CannotDrain(c, l, lease);
    hide Next;
    GivesUp(c, l, lease);
  }

  lemma CannotDrain(c: Controller, l: nat, lease: Lease)
    requires lease.lent == 0
    ensures Next(c.(leases := c.leases[l := lease.(operation := Quiescing)]), DrainedStep(l, true))
            == c.(leases := c.leases[l := lease.(operation := Decided)])
  {
    Twice(c.leases, l, lease.(operation := Quiescing), lease.(operation := Decided));
  }

  lemma GivesUp(c: Controller, l: nat, lease: Lease)
    requires !lease.released && !lease.destroyed
    ensures Next(c.(leases := c.leases[l := lease.(operation := Decided)]), FinishStep(l))
            == c.(leases := c.leases[l := lease.(operation := Finished)])
  {
    Twice(c.leases, l, lease.(operation := Decided), lease.(operation := Finished));
  }

  // ----- rollback -----

  function RollbackSteps(l: nat, replaced: bool): seq<Step> {
    [UndoStep(l), BeginWriteStep(RollbackBy(l)), ReleaseStep(l, replaced), CloseDescriptorStep(l), EndRollbackStep(l)]
  }

  /** Left alone, the rollback of a lease that could not be prepared returns the reservation and closes the
      descriptor. */
  lemma RollbackCompletes(maximum: nat, before: seq<Step>, l: nat, replaced: bool)
    requires var c := Run(maximum, before); Quiet(c) && l in c.leases && c.leases[l].birth == Preparing
    ensures var c := Run(maximum, before);
            Onward(c, RollbackSteps(l, replaced))
            == c.(reserved := c.reserved - 1, poisoned := c.poisoned || replaced,
                  leases := c.leases[l := c.leases[l].(birth := Discarded, released := true, open := false,
                                                       closes := 1)])
  {
    hide Run, Onward, Next, At;
    var c, steps := Run(maximum, before), RollbackSteps(l, replaced);
    var lease := c.leases[l];
    QuietCounts(maximum, before);
    LeaseIsCoherent(maximum, before, l);
    NoStep(c);
    assert steps[..0] == [] && steps[..5] == steps;
    OneStep(c, steps, 0);
    OneStep(c, steps, 1);
    OneStep(c, steps, 2);
    OneStep(c, steps, 3);
    OneStep(c, steps, 4);
    AtRest(c, l);
    RollbackBegins(c, l, lease);
    var undoing := lease.(birth := Undoing);
    TakesAuthority(c, l, undoing, c.reserved, c.poisoned, RollbackBy(l));
    ReleasesIt(c, l, undoing, c.reserved, c.poisoned, replaced);
    ClosesIt(c, l, undoing.(released := true), c.reserved - 1, c.poisoned || replaced);
    RollbackEnds(c, l, undoing.(released := true, open := false, closes := 1), c.reserved - 1, c.poisoned || replaced);
    AtFree(c, l, lease.(birth := Discarded, released := true, open := false, closes := 1), c.reserved - 1,
           c.poisoned || replaced);
  }

  lemma RollbackBegins(c: Controller, l: nat, lease: Lease)
    requires lease.birth == Preparing
    ensures Next(At(c, l, lease, c.reserved, c.poisoned, Free), UndoStep(l))
            == At(c, l, lease.(birth := Undoing), c.reserved, c.poisoned, WantedBy(RollbackBy(l)))
  {
    var k := At(c, l, lease, c.reserved, c.poisoned, Free);
    assert Enabled(k, UndoStep(l));
    Twice(c.leases, l, lease, lease.(birth := Undoing));
    assert {} + {RollbackBy(l)} == {RollbackBy(l)};
  }

  lemma RollbackEnds(c: Controller, l: nat, lease: Lease, reserved: int, poisoned: bool)
    requires lease.birth == Undoing && lease.released && !lease.open
    ensures Next(At(c, l, lease, reserved, poisoned, HeldBy(RollbackBy(l))), EndRollbackStep(l))
            == At(c, l, lease.(birth := Discarded), reserved, poisoned, Free)
  {
    var k := At(c, l, lease, reserved, poisoned, HeldBy(RollbackBy(l)));
    assert Enabled(k, EndRollbackStep(l));
    assert {RollbackBy(l)} - {RollbackBy(l)} == {};
    Twice(c.leases, l, lease, lease.(birth := Discarded));
  }

  /** A rollback that cannot decide leaves its caller a lease that owes its reservation and cannot be used. */
  lemma RollbackKept(maximum: nat, before: seq<Step>, l: nat)
    requires var c := Run(maximum, before); Quiet(c) && l in c.leases && c.leases[l].birth == Preparing
    ensures var c := Run(maximum, before);
            var n := Onward(c, [UndoStep(l), BeginWriteStep(RollbackBy(l)), KeepStep(l)]);
            && n == c.(leases := c.leases[l := c.leases[l].(birth := Handed)])
            && !n.leases[l].attachable && !n.leases[l].released && n.leases[l].open && Enabled(n, DestroyStep(l))
  {
    hide Run, Onward, Next, At;
    var c := Run(maximum, before);
    var lease := c.leases[l];
    QuietCounts(maximum, before);
    LeaseIsCoherent(maximum, before, l);
    Three(c, [UndoStep(l), BeginWriteStep(RollbackBy(l)), KeepStep(l)]);
    AtRest(c, l);
    RollbackBegins(c, l, lease);
    TakesAuthority(c, l, lease.(birth := Undoing), c.reserved, c.poisoned, RollbackBy(l));
    KeepsIt(c, l, lease.(birth := Undoing), c.reserved, c.poisoned);
    AtFree(c, l, lease.(birth := Handed), c.reserved, c.poisoned);
  }

  lemma KeepsIt(c: Controller, l: nat, lease: Lease, reserved: int, poisoned: bool)
    requires lease.birth == Undoing && !lease.released
    ensures Next(At(c, l, lease, reserved, poisoned, HeldBy(RollbackBy(l))), KeepStep(l))
            == At(c, l, lease.(birth := Handed), reserved, poisoned, Free)
  {
    var k := At(c, l, lease, reserved, poisoned, HeldBy(RollbackBy(l)));
    assert Enabled(k, KeepStep(l));
    assert {RollbackBy(l)} - {RollbackBy(l)} == {};
    Twice(c.leases, l, lease, lease.(birth := Handed));
  }

  // ----- close -----

  /** Once every reservation is back, a close that is left alone closes the root, once. */
  lemma CloseCompletes(maximum: nat, before: seq<Step>)
    requires var c := Run(maximum, before); Quiet(c) && !c.closed && c.reserved == 0
    ensures var c := Run(maximum, before);
            Onward(c, [CloseStep, BeginWriteStep(CloseBy), CloseRootStep])
            == c.(closed := true, rootOpen := false, rootCloses := 1)
  {
    hide Run, Onward, Next;
    var c := Run(maximum, before);
    QuietCounts(maximum, before);
    RootIsOpen(maximum, before);
    Three(c, [CloseStep, BeginWriteStep(CloseBy), CloseRootStep]);
    CloseRuns(c);
  }

  lemma RootIsOpen(maximum: nat, steps: seq<Step>)
    requires !Run(maximum, steps).closed
    ensures Run(maximum, steps).rootOpen && Run(maximum, steps).rootCloses == 0
  {
    hide Run, Safety.Engaged, Safety.Exclusive, Safety.AllCoherent, Safety.Counted, Safety.Reserved;
    Safety.RunSound(maximum, steps);
  }

  lemma CloseRuns(c: Controller)
    requires !c.closed && c.reserved == 0 && c.rootCloses == 0 && c.borrows == 0 && !c.writerActive
    requires c.waiting == {} && c.holders == {} && c.writersWaiting == 0
    ensures Next(Next(Next(c, CloseStep), BeginWriteStep(CloseBy)), CloseRootStep)
            == c.(closed := true, rootOpen := false, rootCloses := 1)
  {
    assert Enabled(c, CloseStep) && {} + {CloseBy} == {CloseBy};
    var first := Next(c, CloseStep);
    assert first == c.(closed := true, waiting := {CloseBy}, writersWaiting := 1);
    assert Enabled(first, BeginWriteStep(CloseBy)) && {CloseBy} - {CloseBy} == {};
    var second := Next(first, BeginWriteStep(CloseBy));
    assert second == c.(closed := true, writerActive := true, holders := {CloseBy});
    assert Enabled(second, CloseRootStep);
  }

  // ----- what is final -----

  /** Nothing is reserved again once the controller is poisoned or closed, and no lease is ever forgotten. */
  ghost predicate Later(c: Controller, n: Controller) {
    && (c.poisoned ==> n.poisoned) && (c.closed ==> n.closed)
    && c.leases.Keys <= n.leases.Keys
    && (c.poisoned || c.closed ==>
          n.reserving <= c.reserving && n.leases.Keys <= c.leases.Keys + c.reserving - n.reserving)
  }

  lemma StepLater(c: Controller, step: Step)
    requires c.reserving !! c.leases.Keys
    ensures Later(c, Next(c, step)) && Next(c, step).reserving !! Next(c, step).leases.Keys
  {
    FlagsStay(c, step);
    if step.OpenStep? || step.ReserveStep? || step.UnreserveStep? {
      assert Enabled(c, step) || Next(c, step) == c;
    } else {
      LeasesStay(c, step);
      hide Next;
    }
  }

  lemma FlagsStay(c: Controller, step: Step)
    ensures (c.poisoned ==> Next(c, step).poisoned) && (c.closed ==> Next(c, step).closed)
  {
  }

  lemma LeasesStay(c: Controller, step: Step)
    requires !step.OpenStep? && !step.ReserveStep? && !step.UnreserveStep?
    ensures Next(c, step).leases.Keys == c.leases.Keys && Next(c, step).reserving == c.reserving
  {
    hide Next;
    forall k: nat
      ensures k in Next(c, step).leases <==> k in c.leases
    {
      KeyStays(c, step, k);
    }
    KeyStays(c, step, 0);
    assert Next(c, step).leases.Keys == c.leases.Keys;
  }

  lemma KeyStays(c: Controller, step: Step, k: nat)
    requires !step.OpenStep? && !step.ReserveStep? && !step.UnreserveStep?
    ensures (k in Next(c, step).leases <==> k in c.leases) && Next(c, step).reserving == c.reserving
  {
    if OfBirth(step) {
      BirthKeeps(c, step, k);
    } else if OfDestroy(step) {
      DestroyKeeps(c, step, k);
    }
  }

  predicate OfBirth(step: Step) {
    || step.AttachStep? || step.UndoStep? || step.KeepStep? || step.ReleaseStep? || step.CloseDescriptorStep?
    || step.EndRollbackStep?
  }

  predicate OfDestroy(step: Step) {
    step.DestroyStep? || step.DrainedStep? || step.DecideStep? || step.EndDestroyStep? || step.FinishStep?
  }

  lemma WithKeeps(c: Controller, l: nat, lease: Lease, k: nat)
    requires l in c.leases
    ensures var n := WithLease(c, l, lease);
            (k in n.leases <==> k in c.leases) && (k in c.leases && k != l ==> n.leases[k] == c.leases[k])
    ensures WithLease(c, l, lease).reserving == c.reserving
  {
  }

  lemma BirthKeeps(c: Controller, step: Step, k: nat)
    requires OfBirth(step)
    ensures (k in Next(c, step).leases <==> k in c.leases) && Next(c, step).reserving == c.reserving
    ensures k in c.leases && k != step.lease ==> Next(c, step).leases[k] == c.leases[k]
  {
    hide WithLease;
    if Enabled(c, step) {
      match step
      case AttachStep(l) => WithKeeps(c, l, Attach(c.leases[l]), k);
      case UndoStep(l) => WithKeeps(c, l, Undo(c.leases[l]), k);
      case KeepStep(l) => WithKeeps(c, l, HandOver(c.leases[l]), k);
      case ReleaseStep(l, _) => WithKeeps(c, l, Release(c.leases[l]), k);
      case CloseDescriptorStep(l) => WithKeeps(c, l, CloseDescriptor(c.leases[l]), k);
      case EndRollbackStep(l) => WithKeeps(c, l, Discard(c.leases[l]), k);
    }
  }

  lemma DestroyKeeps(c: Controller, step: Step, k: nat)
    requires OfDestroy(step)
    ensures (k in Next(c, step).leases <==> k in c.leases) && Next(c, step).reserving == c.reserving
    ensures k in c.leases && k != step.lease ==> Next(c, step).leases[k] == c.leases[k]
  {
    hide WithLease;
    if Enabled(c, step) {
      match step
      case DestroyStep(l) => WithKeeps(c, l, InOperation(c.leases[l], Quiescing), k);
      case DrainedStep(l, failed) => WithKeeps(c, l, InOperation(c.leases[l], if failed then Decided else Queued), k);
      case DecideStep(l) => WithKeeps(c, l, InOperation(c.leases[l], Deciding), k);
      case EndDestroyStep(l) => WithKeeps(c, l, InOperation(c.leases[l], Decided), k);
      case FinishStep(l) => WithKeeps(c, l, Finish(c.leases[l]), k);
    }
  }

  lemma {:induction false} OnwardLater(c: Controller, steps: seq<Step>)
    requires c.reserving !! c.leases.Keys
    ensures Later(c, Onward(c, steps)) && Onward(c, steps).reserving !! Onward(c, steps).leases.Keys
  {
    hide Next;
    if steps != [] {
      OnwardLater(c, steps[..|steps| - 1]);
      StepLater(Onward(c, steps[..|steps| - 1]), steps[|steps| - 1]);
    }
  }

  /** However a run goes on, poison and close are final: no reservation is made any more, and only those in flight
      become leases. */
  lemma PoisonIsFinal(maximum: nat, before: seq<Step>, after: seq<Step>)
    ensures Later(Run(maximum, before), Run(maximum, before + after))
  {
    hide Run, Onward, Later;
    OnwardRuns(maximum, before, after);
    ReservedApart(maximum, before);
    OnwardLater(Run(maximum, before), after);
  }

  lemma ReservedApart(maximum: nat, steps: seq<Step>)
    ensures Run(maximum, steps).reserving !! Run(maximum, steps).leases.Keys
  {
    hide Run, Safety.Engaged, Safety.Exclusive, Safety.AllCoherent, Safety.Counted, Safety.Closing;
    Safety.RunSound(maximum, steps);
  }

  /** A lease whose directory is gone is never touched again. */
  lemma {:induction false} DestroyedIsFinal(maximum: nat, before: seq<Step>, after: seq<Step>, l: nat)
    requires l in Run(maximum, before).leases
    requires Run(maximum, before).leases[l].destroyed || Run(maximum, before).leases[l].birth == Discarded
    ensures var n := Run(maximum, before + after);
            && l in n.leases && n.leases[l] == Run(maximum, before).leases[l]
            && n.leases[l].released && !n.leases[l].open && n.leases[l].closes == 1
    decreases |after|
  {
    hide Next, Safety.Sound;
    if after == [] {
      assert before + after == before;
      LeaseIsCoherent(maximum, before, l);
    } else {
      var front := after[..|after| - 1];
      DestroyedIsFinal(maximum, before, front, l);
      assert (before + after)[..|before + after| - 1] == before + front;
      Safety.RunSound(maximum, before + front);
      GoneStays(Run(maximum, before + front), after[|after| - 1], l);
    }
  }

  lemma GoneStays(c: Controller, step: Step, l: nat)
    requires Safety.Sound(c) && l in c.leases && (c.leases[l].destroyed || c.leases[l].birth == Discarded)
    ensures var n := Next(c, step); l in n.leases && n.leases[l] == c.leases[l]
  {
    hide Safety.Engaged, Safety.Exclusive, Safety.Closing, Safety.Coherent, Safety.Counted, Next, Enabled;
    CoherentAt(c.leases, l);
    GoneIsIdle(c.leases[l]);
    if Concerns(c, step, l) {
      if step.ReturnStep? {
        NothingToReturn(c, step.loan, l);
      } else {
        GoneIsRefused(c, step, l);
      }
      Refused(c, step);
    } else {
      OthersStay(c, step, l);
    }
  }

  /** The step is about this lease and could change it. */
  predicate Concerns(c: Controller, step: Step, l: nat) {
    match step
    case OpenStep(m) => m == l
    case AttachStep(m) => m == l
    case UndoStep(m) => m == l
    case KeepStep(m) => m == l
    case ReleaseStep(m, _) => m == l
    case CloseDescriptorStep(m) => m == l
    case EndRollbackStep(m) => m == l
    case ReturnStep(b) => b in c.loans && c.loans[b].lease == l
    case DestroyStep(m) => m == l
    case DrainedStep(m, _) => m == l
    case DecideStep(m) => m == l
    case EndDestroyStep(m) => m == l
    case FinishStep(m) => m == l
    case _ => false
  }

  lemma Refused(c: Controller, step: Step)
    requires !Enabled(c, step)
    ensures Next(c, step) == c
  {
  }

  lemma NothingToReturn(c: Controller, b: nat, l: nat)
    requires Safety.Counted(c.loans, c.leases) && l in c.leases && c.leases[l].lent == 0
    requires b in c.loans && c.loans[b].lease == l
    ensures !Enabled(c, ReturnStep(b))
  {
    assert b !in Safety.Holders(c.loans, l);
  }

  lemma GoneIsRefused(c: Controller, step: Step, l: nat)
    requires l in c.leases && Gone(c.leases[l]) && l !in c.reserving && Concerns(c, step, l) && !step.ReturnStep?
    ensures !Enabled(c, step)
  {
  }

  lemma OthersStay(c: Controller, step: Step, l: nat)
    requires l in c.leases && !Lendable(c.leases[l]) && !Concerns(c, step, l)
    ensures l in Next(c, step).leases && Next(c, step).leases[l] == c.leases[l]
  {
    if OfBirth(step) {
      BirthKeeps(c, step, l);
    } else if OfDestroy(step) {
      DestroyKeeps(c, step, l);
    } else {
      RestKeepsOthers(c, step, l);
    }
  }

  lemma RestKeepsOthers(c: Controller, step: Step, l: nat)
    requires l in c.leases && !Lendable(c.leases[l]) && !OfBirth(step) && !OfDestroy(step) && !Concerns(c, step, l)
    ensures l in Next(c, step).leases && Next(c, step).leases[l] == c.leases[l]
  {
  }

  predicate Gone(lease: Lease) {
    && lease.released && !lease.open && lease.lent == 0 && !Lendable(lease)
    && (if lease.birth == Discarded then lease.operation == NoOperation
        else lease.birth == Handed && lease.destroyed && lease.operation == Finished)
  }

  lemma CoherentAt(leases: map<nat, Lease>, l: nat)
    requires Safety.AllCoherent(leases) && l in leases
    ensures Safety.Coherent(leases[l])
  {
  }

  lemma GoneIsIdle(lease: Lease)
    requires Safety.Coherent(lease) && (lease.destroyed || lease.birth == Discarded)
    ensures Gone(lease)
  {
  }
}
