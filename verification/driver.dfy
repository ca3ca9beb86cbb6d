/** The driver loop of src/main.rs: create, load, and cycle until `cycle`
    returns false.  The loop may never end, so the model runs it for at
    most `fuel` cycles. */
module Driver {
  import opened Basics
  import opened Lmc
  import opened LmcProperties

  /** Up to `fuel` cycles.  A `Continue` result means the fuel ran out
      while the machine was still running. */
  function Run(m: Machine, io: Io, fuel: nat): (r: Outcome)
    ensures fuel == 0 ==> r == Continue(m, io)
    ensures fuel > 0 && !Step(m, io).Continue? ==> r == Step(m, io)
    ensures !r.Fault? ==> io.output <= r.io.output
    ensures !r.Fault? ==> |r.io.input| <= |io.input| && r.io.input == io.input[|io.input| - |r.io.input|..]
    decreases fuel
  {
    if fuel == 0 then Continue(m, io)
    else
      match Step(m, io)
      case Continue(m', io') => Run(m', io', fuel - 1)
      case other => other
  }

  /** `main`: a fresh machine loaded with the program, run for `fuel` cycles. */
  function Boot(program: seq<U16>, io: Io, fuel: nat): (r: Outcome)
    ensures |program| > MailboxSize ==> r == Fault(AddressOutOfRange)
    ensures |program| <= MailboxSize && fuel > 0 && (|program| == 0 || program[0] == 0) ==>
      r.Halt? && r.io == io
    ensures (forall i :: 0 <= i < |program| ==> program[i] <= MaxValue) &&
            InputBounded(io) && OutputBounded(io) ==>
      r != Fault(AddOverflow) && r != Fault(InputUnparsable)
  {
    match Load(Create(), program)
    case Ok(m) =>
      if (forall i :: 0 <= i < |program| ==> program[i] <= MaxValue) &&
         InputBounded(io) && OutputBounded(io)
      then
        assert Bounded(m) by {
          assert forall i :: 0 <= i < MailboxSize ==> m.mailbox[i] <= MaxValue;
        }
        RunPreservesBounded(m, io, fuel);
        Run(m, io, fuel)
      else Run(m, io, fuel)
    case Err(f) => Fault(f)
  }

  /** With a cycle to spare, a machine whose pc rests on a zero cell halts. */
  lemma RunHaltsOnZeroCell(m: Machine, io: Io, fuel: nat)
    requires fuel > 0 && m.pc < MailboxSize && m.mailbox[m.pc] == 0
    ensures Run(m, io, fuel).Halt?
    ensures Run(m, io, fuel).io == io
  {
    ZeroCellHalts(m, io);
  }

  /** The three-digit bound holds along a whole run: no overflow panic, no
      rejected input, and every register, cell and printed value stays in
      0..999 when the run does not fault. */
  lemma {:induction false} RunPreservesBounded(m: Machine, io: Io, fuel: nat)
    requires Bounded(m) && InputBounded(io) && OutputBounded(io)
    ensures Run(m, io, fuel) != Fault(AddOverflow)
    ensures Run(m, io, fuel) != Fault(InputUnparsable)
    ensures !Run(m, io, fuel).Fault? ==>
      Bounded(Run(m, io, fuel).machine) && InputBounded(Run(m, io, fuel).io) &&
      OutputBounded(Run(m, io, fuel).io)
    decreases fuel
  {
    if fuel > 0 {
      StepPreservesBounded(m, io);
      match Step(m, io)
      case Continue(m', io') => RunPreservesBounded(m', io', fuel - 1);
      case _ =>
    }
  }

  /** Read a number, double it through cell 98, print it, halt. */
  const Doubler: seq<U16> := [901, 398, 598, 198, 902, 0]

  /** The mailbox after loading `Doubler` into a new machine. */
  const DoublerCells: Mailbox := Doubler + seq(93, _ => 0)

  /** The same mailbox once cell 98 holds 7. */
  const DoublerCells7: Mailbox := DoublerCells[98 := 7]

  lemma DoublerCycle1()
    ensures Step(Machine(0, 0, false, DoublerCells, 0, Instruction(0, 0)), Io([7], []))
         == Continue(Machine(1, 7, false, DoublerCells, 901, Instruction(9, 1)), Io([], []))
  {
    assert DoublerCells[0] == 901;
  }

  lemma DoublerCycle2()
    ensures Step(Machine(1, 7, false, DoublerCells, 901, Instruction(9, 1)), Io([], []))
         == Continue(Machine(2, 7, false, DoublerCells7, 398, Instruction(3, 98)), Io([], []))
  {
    assert DoublerCells[1] == 398;
  }

  lemma DoublerCycle3()
    ensures Step(Machine(2, 7, false, DoublerCells7, 398, Instruction(3, 98)), Io([], []))
         == Continue(Machine(3, 7, false, DoublerCells7, 598, Instruction(5, 98)), Io([], []))
  {
    assert DoublerCells7[2] == 598 && DoublerCells7[98] == 7;
  }

  lemma DoublerCycle4()
    ensures Step(Machine(3, 7, false, DoublerCells7, 598, Instruction(5, 98)), Io([], []))
         == Continue(Machine(4, 14, false, DoublerCells7, 7, Instruction(1, 98)), Io([], []))
  {
    assert DoublerCells7[3] == 198 && DoublerCells7[98] == 7;
  }

  lemma DoublerCycle5()
    ensures Step(Machine(4, 14, false, DoublerCells7, 7, Instruction(1, 98)), Io([], []))
         == Continue(Machine(5, 14, false, DoublerCells7, 902, Instruction(9, 2)), Io([], [14]))
  {
    assert DoublerCells7[4] == 902;
  }

  lemma DoublerCycle6()
    ensures Step(Machine(5, 14, false, DoublerCells7, 902, Instruction(9, 2)), Io([], [14]))
         == Halt(Machine(6, 14, false, DoublerCells7, 0, Instruction(0, 0)), Io([], [14]))
  {
    assert DoublerCells7[5] == 0;
  }

  /** The doubling program prints 14 for input 7 and halts after six cycles. */
  lemma DoublerPrintsFourteen()
    ensures Boot(Doubler, Io([7], []), 6).Halt?
    ensures Boot(Doubler, Io([7], []), 6).io == Io([], [14])
  {
    assert Create().mailbox[6..] == seq(93, _ => 0);
    assert Load(Create(), Doubler) == Ok(Machine(0, 0, false, DoublerCells, 0, Instruction(0, 0)));
    DoublerCycle1();
    DoublerCycle2();
    DoublerCycle3();
    DoublerCycle4();
    DoublerCycle5();
    DoublerCycle6();
  }

  /** The same program written against cell 99, as for a 100-cell machine,
      panics on its second cycle: address 99 is past the last of the 99
      cells. */
  lemma Cell99Faults()
    ensures Boot([901, 399, 599, 199, 902, 0], Io([7], []), 6) == Fault(AddressOutOfRange)
  {
    var m0 := Load(Create(), [901, 399, 599, 199, 902, 0]).value;
    var s1 := Step(m0, Io([7], []));
    assert s1.Continue? && s1.machine.pc == 1;
    assert Step(s1.machine, s1.io) == Fault(AddressOutOfRange);
  }
}
