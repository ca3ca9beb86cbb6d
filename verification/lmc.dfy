/** The execution engine of the Little Man Computer (src/lmc.rs).

    The machine is an immutable record and one `cycle` of the source is the
    pure function `Step`.  Every place where the Rust code would panic (an
    array index out of range, a `u16` addition that overflows, an `unwrap` of
    failed input) is an explicit `Fault` outcome instead. */
module Lmc {
  import opened Basics

  /** Number of mailbox cells.  The source declares 99, so addresses run
      0..98 and address 99 is out of range. */
  const MailboxSize: nat := 99

  /** The largest value the machine's arithmetic accepts without setting the flag. */
  const MaxValue: nat := 999

  /** A decoded operand: `data_reg % 100`, so always below 100 (it may still
      be 99, one past the last cell). */
  type Operand = x: nat | x < 100

  type Mailbox = s: seq<U16> | |s| == MailboxSize witness seq(99, _ => 0)

  /** The decoded instruction register (`Instruction` in the source). */
  datatype Instruction = Instruction(opcode: U8, operand: Operand)

  /** The whole machine state (`LMC` in the source). */
  datatype Machine = Machine(
    pc: U8,
    acc: U16,
    negFlag: bool,
    mailbox: Mailbox,
    dataReg: U16,
    current: Instruction)

  /** The input and output ports.  Each input element is one line already
      read as a number; a number that does not fit a `u16` is a line the
      source's `parse::<u16>()` rejects.  Output collects the values printed. */
  datatype Io = Io(input: seq<nat>, output: seq<U16>)

  /** Why a cycle panicked. */
  datatype Panic =
    | PcOutOfRange        // `mailbox[program_counter]` with program_counter >= 99
    | AddressOutOfRange   // `mailbox[operand]` with operand == 99, or loading > 99 words
    | AddOverflow         // `accumulator + data_reg` overflows `u16`
    | InputExhausted      // no input line left
    | InputUnparsable     // the input line is not a `u16`

  /** What one cycle leads to: the machine runs on, stops on opcode 0, or panics. */
  datatype Outcome =
    | Continue(machine: Machine, io: Io)
    | Halt(machine: Machine, io: Io)
    | Fault(panic: Panic)

  /** The machine as `create` builds it: everything zero. */
  function Create(): (m: Machine)
    ensures m.pc == 0 && m.acc == 0 && !m.negFlag && m.dataReg == 0
    ensures forall i :: 0 <= i < MailboxSize ==> m.mailbox[i] == 0
    ensures m.current == Instruction(0, 0)
  {
    Machine(0, 0, false, seq(99, _ => 0), 0, Instruction(0, 0))
  }

  /** `load_instructions`: the words go into cells 0, 1, ... in order; more
      words than cells runs the index off the end of the mailbox. */
  function Load(m: Machine, words: seq<U16>): (r: Result<Machine, Panic>)
    ensures r.Ok? <==> |words| <= MailboxSize
    ensures r.Ok? ==> forall i :: 0 <= i < |words| ==> r.value.mailbox[i] == words[i]
    ensures r.Ok? ==> forall i :: |words| <= i < MailboxSize ==> r.value.mailbox[i] == m.mailbox[i]
    ensures r.Ok? ==> r.value == m.(mailbox := r.value.mailbox)
    ensures r.Err? ==> r.error == AddressOutOfRange
  {
    if |words| > MailboxSize then Err(AddressOutOfRange)
    else Ok(m.(mailbox := words + m.mailbox[|words|..]))
  }

  /** `load_instructions` as the source writes it: one cell per loop turn. */
  method LoadInstructions(m: Machine, words: seq<U16>) returns (r: Result<Machine, Panic>)
    ensures r == Load(m, words)
  {
    var mailbox := m.mailbox;
    var index := 0;
    while index < |words|
      invariant 0 <= index <= |words|
      invariant index <= MailboxSize
      invariant forall i :: 0 <= i < index ==> mailbox[i] == words[i]
      invariant forall i :: index <= i < MailboxSize ==> mailbox[i] == m.mailbox[i]
    {
      if index >= MailboxSize {
        return Err(AddressOutOfRange);
      }
      mailbox := mailbox[index := words[index]];
      index := index + 1;
    }
    assert mailbox == words + m.mailbox[|words|..];
    r := Ok(m.(mailbox := mailbox));
  }

  /** `decode`: hundreds digit(s) to the opcode, truncated to `u8` by the
      source's `as u8`, and the last two decimal digits to the operand. */
  function Decode(word: U16): (ins: Instruction)
    ensures ins.opcode * 100 + ins.operand == word % 25600
    ensures word <= MaxValue ==> ins.opcode <= 9
    ensures ins.opcode == 0 <==> word % 25600 < 100
  {
    Instruction(((word / 100) % 256) as U8, word % 100)
  }

  /** The inverse of `Decode` on opcodes below 256: opcode times 100 plus
      operand. */
  function Encode(ins: Instruction): U16 {
    ins.opcode * 100 + ins.operand
  }

  /** The first half of `cycle`: fetch the cell at pc into the data register,
      decode it, and advance pc before anything executes. */
  function Latch(m: Machine): (m': Machine)
    requires m.pc < MailboxSize
    ensures m'.pc == m.pc + 1
    ensures m'.dataReg == m.mailbox[m.pc] && m'.current == Decode(m'.dataReg)
    ensures m'.acc == m.acc && m'.negFlag == m.negFlag && m'.mailbox == m.mailbox
  {
    var word := m.mailbox[m.pc];
    m.(dataReg := word, current := Decode(word), pc := m.pc + 1)
  }

  /** `add`: the cell is fetched into the data register; a sum above 999
      leaves the accumulator alone and raises the flag. */
  function Add(m: Machine): (r: Result<Machine, Panic>)
    ensures m.current.operand == MailboxSize ==> r == Err(AddressOutOfRange)
    ensures m.current.operand < MailboxSize ==>
      (r.Err? <==> m.acc + m.mailbox[m.current.operand] >= 65536)
    ensures r.Err? ==> r.error == AddressOutOfRange || r.error == AddOverflow
    ensures r.Ok? ==> r.value == m.(acc := r.value.acc, negFlag := r.value.negFlag, dataReg := r.value.dataReg)
    ensures r.Ok? ==> r.value.dataReg == m.mailbox[m.current.operand]
    ensures r.Ok? ==> (r.value.negFlag <==> m.acc + r.value.dataReg > MaxValue)
    ensures r.Ok? && r.value.negFlag ==> r.value.acc == m.acc
    ensures r.Ok? && !r.value.negFlag ==> r.value.acc == m.acc + r.value.dataReg <= MaxValue
  {
    var a := m.current.operand;
    if a >= MailboxSize then Err(AddressOutOfRange)
    else
      var v := m.mailbox[a];
      if m.acc + v >= 65536 then Err(AddOverflow)
      else if m.acc + v > MaxValue then Ok(m.(dataReg := v, negFlag := true))
      else Ok(m.(dataReg := v, acc := m.acc + v, negFlag := false))
  }

  /** `sub`: the cell is fetched into the data register; a difference below
      zero leaves the accumulator alone and raises the flag. */
  function Sub(m: Machine): (r: Result<Machine, Panic>)
    ensures r.Err? <==> m.current.operand == MailboxSize
    ensures r.Err? ==> r.error == AddressOutOfRange
    ensures r.Ok? ==> r.value == m.(acc := r.value.acc, negFlag := r.value.negFlag, dataReg := r.value.dataReg)
    ensures r.Ok? ==> r.value.dataReg == m.mailbox[m.current.operand]
    ensures r.Ok? ==> (r.value.negFlag <==> m.acc < r.value.dataReg)
    ensures r.Ok? && r.value.negFlag ==> r.value.acc == m.acc
    ensures r.Ok? && !r.value.negFlag ==> r.value.acc + r.value.dataReg == m.acc
  {
    var a := m.current.operand;
    if a >= MailboxSize then Err(AddressOutOfRange)
    else
      var v := m.mailbox[a];
      if m.acc < v then Ok(m.(dataReg := v, negFlag := true))
      else Ok(m.(dataReg := v, acc := m.acc - v, negFlag := false))
  }

  /** `sta`: store the accumulator into the operand's cell. */
  function Sta(m: Machine): (r: Result<Machine, Panic>)
    ensures r.Err? <==> m.current.operand == MailboxSize
    ensures r.Err? ==> r.error == AddressOutOfRange
    ensures r.Ok? ==> r.value == m.(mailbox := r.value.mailbox)
    ensures r.Ok? ==> r.value.mailbox[m.current.operand] == m.acc
    ensures r.Ok? ==> forall i :: 0 <= i < MailboxSize && i != m.current.operand ==>
      r.value.mailbox[i] == m.mailbox[i]
  {
    var a := m.current.operand;
    if a >= MailboxSize then Err(AddressOutOfRange)
    else Ok(m.(mailbox := m.mailbox[a := m.acc]))
  }

  /** `lda`: load the operand's cell into the accumulator. */
  function Lda(m: Machine): (r: Result<Machine, Panic>)
    ensures r.Err? <==> m.current.operand == MailboxSize
    ensures r.Err? ==> r.error == AddressOutOfRange
    ensures r.Ok? ==> r.value == m.(acc := r.value.acc)
    ensures r.Ok? ==> r.value.acc == m.mailbox[m.current.operand]
  {
    var a := m.current.operand;
    if a >= MailboxSize then Err(AddressOutOfRange)
    else Ok(m.(acc := m.mailbox[a]))
  }

  /** The branch target of every jump: the operand's cell, read indirectly
      and truncated by `as u8`. */
  function Jump(m: Machine): (r: Result<Machine, Panic>)
    ensures r.Err? <==> m.current.operand == MailboxSize
    ensures r.Err? ==> r.error == AddressOutOfRange
    ensures r.Ok? ==> r.value == m.(pc := r.value.pc)
    ensures r.Ok? ==> r.value.pc == m.mailbox[m.current.operand] % 256
  {
    var a := m.current.operand;
    if a >= MailboxSize then Err(AddressOutOfRange)
    else Ok(m.(pc := m.mailbox[a] % 256))
  }

  /** `bra`: jump unconditionally. */
  function Bra(m: Machine): (r: Result<Machine, Panic>)
    ensures r.Err? <==> m.current.operand == MailboxSize
    ensures r.Ok? ==> r.value == m.(pc := m.mailbox[m.current.operand] % 256)
  {
    Jump(m)
  }

  /** `brz`: jump only when the program counter (not the accumulator) is zero. */
  function Brz(m: Machine): (r: Result<Machine, Panic>)
    ensures m.pc != 0 ==> r == Ok(m)
    ensures r.Err? <==> m.pc == 0 && m.current.operand == MailboxSize
    ensures m.pc == 0 && r.Ok? ==> r.value == m.(pc := m.mailbox[m.current.operand] % 256)
  {
    if m.pc == 0 then Jump(m) else Ok(m)
  }

  /** `brp`: jump only when the flag is clear. */
  function Brp(m: Machine): (r: Result<Machine, Panic>)
    ensures m.negFlag ==> r == Ok(m)
    ensures r.Err? <==> !m.negFlag && m.current.operand == MailboxSize
    ensures !m.negFlag && r.Ok? ==> r.value == m.(pc := m.mailbox[m.current.operand] % 256)
  {
    if !m.negFlag then Jump(m) else Ok(m)
  }

  /** `inp`: the next input line becomes the accumulator. */
  function Inp(m: Machine, io: Io): (r: Result<(Machine, Io), Panic>)
    ensures r.Err? <==> |io.input| == 0 || io.input[0] >= 65536
    ensures |io.input| == 0 ==> r == Err(InputExhausted)
    ensures r.Err? && |io.input| > 0 ==> r.error == InputUnparsable
    ensures r.Ok? ==> r.value.0 == m.(acc := io.input[0])
    ensures r.Ok? ==> [io.input[0]] + r.value.1.input == io.input
    ensures r.Ok? ==> r.value.1.output == io.output
  {
    if |io.input| == 0 then Err(InputExhausted)
    else if io.input[0] >= 65536 then Err(InputUnparsable)
    else Ok((m.(acc := io.input[0]), io.(input := io.input[1..])))
  }

  /** `out`: the accumulator is printed. */
  function Out(m: Machine, io: Io): (r: (Machine, Io))
    ensures r.0 == m && r.1.input == io.input
    ensures |r.1.output| == |io.output| + 1
    ensures r.1.output[..|io.output|] == io.output && r.1.output[|io.output|] == m.acc
  {
    (m, io.(output := io.output + [m.acc]))
  }

  /** Lift a register-only helper's result into a cycle outcome. */
  function Proceed(r: Result<Machine, Panic>, io: Io): Outcome {
    match r
    case Ok(m) => Continue(m, io)
    case Err(f) => Fault(f)
  }

  /** `execute`: dispatch on the decoded opcode.  Opcode 0 stops the machine;
      4, 9 with an operand other than 1 or 2, and 10..255 do nothing. */
  function Execute(m: Machine, io: Io): (r: Outcome)
    ensures r.Halt? <==> m.current.opcode == 0
    ensures r.Halt? ==> r == Halt(m, io)
    ensures m.current.opcode == 4 || m.current.opcode >= 10 ==> r == Continue(m, io)
    ensures m.current.opcode == 9 && m.current.operand != 1 && m.current.operand != 2 ==> r == Continue(m, io)
    ensures m.current.opcode != 9 && !r.Fault? ==> r.io == io
    ensures r.Fault? ==> 1 <= m.current.opcode <= 9 && m.current.opcode != 4
  {
    match m.current.opcode
    case 0 => Halt(m, io)
    case 1 => Proceed(Add(m), io)
    case 2 => Proceed(Sub(m), io)
    case 3 => Proceed(Sta(m), io)
    case 5 => Proceed(Lda(m), io)
    case 6 => Proceed(Bra(m), io)
    case 7 => Proceed(Brz(m), io)
    case 8 => Proceed(Brp(m), io)
    case 9 =>
      if m.current.operand == 1 then
        match Inp(m, io)
        case Ok((m', io')) => Continue(m', io')
        case Err(f) => Fault(f)
      else if m.current.operand == 2 then
        var (m', io') := Out(m, io); Continue(m', io')
      else Continue(m, io)
    case _ => Continue(m, io)
  }

  /** `cycle`: fetch, decode, advance pc, execute.  A pc of 99 or more is an
      index off the end of the mailbox. */
  function Step(m: Machine, io: Io): (r: Outcome)
    ensures m.pc >= MailboxSize ==> r == Fault(PcOutOfRange)
    ensures r.Halt? <==> m.pc < MailboxSize && Decode(m.mailbox[m.pc]).opcode == 0
    ensures r.Halt? ==> r == Halt(Latch(m), io)
    ensures !r.Fault? ==> r.io.output == io.output || r.io.output == io.output + [m.acc]
    ensures !r.Fault? ==> r.io.input == io.input || (|io.input| > 0 && r.io.input == io.input[1..])
  {
    if m.pc >= MailboxSize then Fault(PcOutOfRange)
    else Execute(Latch(m), io)
  }
}
