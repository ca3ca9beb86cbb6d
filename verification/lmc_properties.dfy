/** Properties of one cycle of the engine: decoding, halting, the effect and
    frame of every opcode, and the 0..999 value bound. */
module LmcProperties {
  import opened Basics
  import opened Lmc

  /** Every value in the machine fits the three-digit range. */
  predicate Bounded(m: Machine) {
    m.acc <= MaxValue && forall i :: 0 <= i < MailboxSize ==> m.mailbox[i] <= MaxValue
  }

  /** Every pending input line holds a value in the three-digit range. */
  predicate InputBounded(io: Io) {
    forall i :: 0 <= i < |io.input| ==> io.input[i] <= MaxValue
  }

  /** Every printed value lies in the three-digit range. */
  predicate OutputBounded(io: Io) {
    forall i :: 0 <= i < |io.output| ==> io.output[i] <= MaxValue
  }

  /** The opcode the next cycle will execute. */
  function NextOpcode(m: Machine): U8
    requires m.pc < MailboxSize
  {
    Decode(m.mailbox[m.pc]).opcode
  }

  /** The operand the next cycle will execute. */
  function NextOperand(m: Machine): Operand
    requires m.pc < MailboxSize
  {
    Decode(m.mailbox[m.pc]).operand
  }

  /** Encoding then decoding recovers the opcode and the operand. */
  lemma DecodeEncode(ins: Instruction)
    ensures Encode(ins) < 25600
    ensures Decode(Encode(ins)) == ins
  {
    var w := Encode(ins);
    assert w / 100 == ins.opcode && w % 100 == ins.operand;
  }

  /** Decoding then encoding recovers the word modulo 25600: exactly when
      the word's hundreds fit a `u8` it is the word itself; above that,
      `as u8` loses the high part. */
  lemma EncodeDecode(word: U16)
    ensures Encode(Decode(word)) == word % 25600
    ensures Encode(Decode(word)) == word <==> word < 25600
  {
  }

  /** A freshly created machine stops on its very first cycle, with no
      effect beyond the pc increment. */
  lemma CreateHaltsAtOnce(io: Io)
    ensures Step(Create(), io) == Halt(Create().(pc := 1), io)
  {
  }

  /** `cycle` returns false exactly when the decoded opcode is 0. */
  lemma HaltIff(m: Machine, io: Io)
    ensures Step(m, io).Halt? <==> m.pc < MailboxSize && NextOpcode(m) == 0
  {
  }

  /** A halting cycle changes only pc (by one), the data register and the
      instruction register, and touches neither port. */
  lemma HaltFrame(m: Machine, io: Io)
    requires Step(m, io).Halt?
    ensures Step(m, io).io == io
    ensures Step(m, io).machine.pc == m.pc + 1
    ensures Step(m, io).machine == m.(pc := m.pc + 1, dataReg := m.mailbox[m.pc], current := Instruction(0, m.mailbox[m.pc] % 100))
  {
  }

  /** Any zero cell, including one never loaded, halts the machine when pc
      reaches it. */
  lemma ZeroCellHalts(m: Machine, io: Io)
    requires m.pc < MailboxSize && m.mailbox[m.pc] == 0
    ensures Step(m, io) == Halt(m.(pc := m.pc + 1, dataReg := 0, current := Instruction(0, 0)), io)
  {
  }

  /** Cells past a loaded program are zero, so running off its end halts. */
  lemma LoadedProgramEndsInHalt(words: seq<U16>, io: Io)
    requires |words| < MailboxSize
    ensures Load(Create(), words).Ok?
    ensures Step(Load(Create(), words).value.(pc := |words|), io).Halt?
  {
    var m := Load(Create(), words).value;
    assert m.mailbox[|words|] == 0;
  }

  /** ADD: a sum above 999 sets the flag and keeps the accumulator; otherwise
      the accumulator grows by the cell's value and the flag clears. Address
      99 and a `u16` overflow are panics. */
  lemma StepAdd(m: Machine, io: Io)
    requires m.pc < MailboxSize && NextOpcode(m) == 1
    ensures var a := NextOperand(m);
      var s := Step(m, io);
      if a == MailboxSize then s == Fault(AddressOutOfRange)
      else if m.acc + m.mailbox[a] >= 65536 then s == Fault(AddOverflow)
      else (s.Continue? && s.io == io &&
            s.machine.mailbox == m.mailbox && s.machine.pc == m.pc + 1 &&
            s.machine.dataReg == m.mailbox[a] &&
            (if m.acc + m.mailbox[a] > MaxValue
             then s.machine.acc == m.acc && s.machine.negFlag
             else s.machine.acc == m.acc + m.mailbox[a] && !s.machine.negFlag))
  {
  }

  /** SUB: a cell larger than the accumulator sets the flag and keeps the
      accumulator; otherwise the accumulator shrinks by it and the flag
      clears.  The accumulator therefore never goes negative. */
  lemma StepSub(m: Machine, io: Io)
    requires m.pc < MailboxSize && NextOpcode(m) == 2
    ensures var a := NextOperand(m);
      var s := Step(m, io);
      if a == MailboxSize then s == Fault(AddressOutOfRange)
      else (s.Continue? && s.io == io &&
            s.machine.mailbox == m.mailbox && s.machine.pc == m.pc + 1 &&
            s.machine.dataReg == m.mailbox[a] &&
            s.machine.acc <= m.acc &&
            (if m.acc < m.mailbox[a]
             then s.machine.acc == m.acc && s.machine.negFlag
             else s.machine.acc + m.mailbox[a] == m.acc && !s.machine.negFlag))
  {
  }

  /** A successful ADD is undone by a SUB of the same cell. */
  lemma SubUndoesAdd(m: Machine)
    requires Add(m).Ok? && !Add(m).value.negFlag
    ensures Sub(Add(m).value).Ok?
    ensures Sub(Add(m).value).value.acc == m.acc
    ensures !Sub(Add(m).value).value.negFlag
  {
  }

  /** STA writes exactly one cell; every other cell, the accumulator and the
      flag are unchanged. */
  lemma StepSta(m: Machine, io: Io)
    requires m.pc < MailboxSize && NextOpcode(m) == 3
    ensures var a := NextOperand(m);
      var s := Step(m, io);
      if a == MailboxSize then s == Fault(AddressOutOfRange)
      else (s.Continue? && s.io == io &&
            s.machine.mailbox[a] == m.acc &&
            (forall i :: 0 <= i < MailboxSize && i != a ==> s.machine.mailbox[i] == m.mailbox[i]) &&
            s.machine.acc == m.acc && s.machine.negFlag == m.negFlag && s.machine.pc == m.pc + 1)
  {
  }

  /** LDA changes only the accumulator. */
  lemma StepLda(m: Machine, io: Io)
    requires m.pc < MailboxSize && NextOpcode(m) == 5
    ensures var a := NextOperand(m);
      var s := Step(m, io);
      if a == MailboxSize then s == Fault(AddressOutOfRange)
      else s == Continue(Latch(m).(acc := m.mailbox[a]), io)
  {
  }

  /** Opcode 4, opcode 9 with an operand other than 1 or 2, and opcodes from
      10 up change nothing beyond the latch and the pc increment. */
  lemma StepNop(m: Machine, io: Io)
    requires m.pc < MailboxSize
    requires NextOpcode(m) == 4 || NextOpcode(m) >= 10 ||
             (NextOpcode(m) == 9 && NextOperand(m) != 1 && NextOperand(m) != 2)
    ensures Step(m, io) == Continue(Latch(m), io)
  {
  }

  /** BRA jumps to the value of the operand's cell, truncated to a byte. */
  lemma StepBra(m: Machine, io: Io)
    requires m.pc < MailboxSize && NextOpcode(m) == 6
    ensures var a := NextOperand(m);
      var s := Step(m, io);
      if a == MailboxSize then s == Fault(AddressOutOfRange)
      else s == Continue(Latch(m).(pc := m.mailbox[a] % 256), io)
  {
  }

  /** BRP jumps like BRA exactly when the flag is clear, and otherwise falls
      through without reading the operand's cell. */
  lemma StepBrp(m: Machine, io: Io)
    requires m.pc < MailboxSize && NextOpcode(m) == 8
    ensures var a := NextOperand(m);
      var s := Step(m, io);
      if m.negFlag then s == Continue(Latch(m), io)
      else if a == MailboxSize then s == Fault(AddressOutOfRange)
      else s == Continue(Latch(m).(pc := m.mailbox[a] % 256), io)
  {
  }

  /** BRZ tests the program counter, which the pre-increment has already
      made positive, so it never branches and never reads memory. */
  lemma BrzNeverBranches(m: Machine, io: Io)
    requires m.pc < MailboxSize && NextOpcode(m) == 7
    ensures Step(m, io) == Continue(Latch(m), io)
  {
  }

  /** INP consumes one input line into the accumulator. */
  lemma StepInp(m: Machine, io: Io)
    requires m.pc < MailboxSize && NextOpcode(m) == 9 && NextOperand(m) == 1
    ensures var s := Step(m, io);
      if |io.input| == 0 then s == Fault(InputExhausted)
      else if io.input[0] >= 65536 then s == Fault(InputUnparsable)
      else s == Continue(Latch(m).(acc := io.input[0]), Io(io.input[1..], io.output))
  {
  }

  /** OUT appends the accumulator to the output and changes no register. */
  lemma StepOut(m: Machine, io: Io)
    requires m.pc < MailboxSize && NextOpcode(m) == 9 && NextOperand(m) == 2
    ensures Step(m, io) == Continue(Latch(m), Io(io.input, io.output + [m.acc]))
  {
  }

  /** The three-digit bound is an invariant: with every value in 0..999 no
      cycle overflows `u16` or rejects input, and a cycle that does not
      fault keeps every value, and everything it prints, in 0..999. */
  lemma StepPreservesBounded(m: Machine, io: Io)
    requires Bounded(m) && InputBounded(io) && OutputBounded(io)
    ensures Step(m, io) != Fault(AddOverflow)
    ensures Step(m, io) != Fault(InputUnparsable)
    ensures !Step(m, io).Fault? ==>
      Bounded(Step(m, io).machine) && InputBounded(Step(m, io).io) && OutputBounded(Step(m, io).io)
  {
  }
}
