# lmc_rs in Dafny

A model of the core of `lmc_rs`, a Little Man Computer emulator written in
Rust, and proofs about it. Two pieces are modelled:

- **The execution engine** (`src/lmc.rs`), in `lmc.dfy`. The machine has a
  `u8` program counter, a `u16` accumulator, a negative/overflow flag, a
  mailbox of **99** `u16` cells, a data register and the decoded instruction.
  `create`, `load_instructions`, `decode` and every opcode helper become pure
  functions. One `cycle` becomes `Step`, which returns `Continue`, `Halt` or
  `Fault`. A Rust panic becomes a `Fault` carrying its `Panic` kind. Panics come from an index off the
  end of the mailbox, a `u16` overflow in ADD, or a failed read of input.
  `lmc_properties.dfy` proves what each opcode does and what it leaves alone.
  It also proves that the 0..999 bound is preserved. `driver.dfy` models the
  loop of `src/main.rs` as a fuel-bounded `Run`.
- **The line tokenizer** (`src/assembler.rs`), in `text.dfy` and
  `assembler.dfy`. These model the mnemonic table `OPS`, `is_valid_op` and
  `gen_asmtoken_line`. A line is cut at its first `//` (`CodePart`), split
  on Unicode whitespace (`SplitWs`), and classified by `Tokenize`.
  `text_properties.dfy` and `assembler_properties.dfy` state what these
  produce.

`basics.dfy` holds `Option`, `Result` and the `U8`/`U16` width types.

Quirks of the source that the model keeps:

- The mailbox has 99 cells, so address 99 is out of range. The classic
  doubling program that stores through cell 99 panics on its second cycle
  (`Driver.Cell99Faults`).
- `decode` truncates the opcode with `as u8`. So a word encodes its opcode
  faithfully only below 25600 (`LmcProperties.EncodeDecode`).
- The pc is incremented before the instruction executes. BRZ tests the pc
  for zero, not the accumulator, so BRZ never branches
  (`LmcProperties.BrzNeverBranches`).
- Branch targets are read indirectly from `mailbox[operand]` and truncated
  to a byte.
- BRZ and BRP read the mailbox only when they branch. So operand 99 faults
  only on a taken branch.
- The label branch of the tokenizer is nested inside "first field is a
  mnemonic". A lone mnemonic such as `INP` is therefore an error.
  A line whose first field is not in `OPS` gives a token with every field
  empty. That includes `HLT`, `DAT`, an unknown word like `FOO 5`, and an
  ordinary labelled line like `LOOP LDA 7`. The usual LMC assembly
  convention reads a non-mnemonic first field as a label and reports an
  unknown mnemonic as an error. This code does neither, and the model
  follows the code.
- Whenever the tokenizer produces an opcode it also produces an operand.
  `DAT` is only accepted after a label, and that label must itself be a
  mnemonic (`Assembler.WellFormed`).

## Model

| member | source | states |
|---|---|---|
| Lmc.Create | src/lmc.rs:23-34 | A new machine has pc 0, accumulator 0, flag clear, data register 0, instruction (0, 0) and every one of the 99 cells zero. |
| Lmc.Load | src/lmc.rs:36-44 | Loading succeeds exactly when there are at most 99 words. Cell i then holds word i for i below the count. Every later cell and every register is unchanged. Too many words is an out-of-range fault. |
| Lmc.LoadInstructions | src/lmc.rs:36-44 | The cell-by-cell loop of the source computes exactly what `Load` states, including the fault when the words run past the last cell. |
| Lmc.Decode | src/lmc.rs:51-56 | opcode*100 + operand equals the word mod 25600, so it equals the word itself below 25600. This is the effect of the `as u8` truncation. The operand is the word mod 100. Words up to 999 decode to opcodes 0..9. The opcode is 0 (halt) exactly when word mod 25600 is below 100. |
| Lmc.Latch | src/lmc.rs:83-87 | The first half of a cycle puts the cell at pc into the data register and its decoding into the instruction register. It advances pc by one and leaves accumulator, flag and mailbox alone. |
| Lmc.Add | src/lmc.rs:95-104 | Operand 99 is an out-of-range fault. Otherwise ADD faults exactly when acc + cell overflows u16. On success only the accumulator, flag and data register change, and the data register holds the cell. The flag is set exactly when acc + cell > 999; then the accumulator is unchanged. Otherwise it becomes the sum, which is at most 999. |
| Lmc.Sub | src/lmc.rs:106-114 | SUB faults exactly on operand 99. On success only the accumulator, flag and data register change, and the data register holds the cell. The flag is set exactly when acc < cell; then the accumulator is unchanged. Otherwise the new accumulator plus the cell equals the old accumulator. |
| Lmc.Sta | src/lmc.rs:116-118 | STA faults exactly on operand 99. Otherwise only the mailbox changes: the operand's cell takes the accumulator and every other cell is unchanged. |
| Lmc.Lda | src/lmc.rs:120-123 | LDA faults exactly on operand 99. Otherwise only the accumulator changes, and it takes the operand's cell. |
| Lmc.Bra | src/lmc.rs:125-128 | BRA faults exactly on operand 99. Otherwise only pc changes, and it becomes the operand's cell mod 256. |
| Lmc.Brz | src/lmc.rs:130-134 | When pc is nonzero BRZ changes nothing and cannot fault. When pc is 0 it faults exactly on operand 99 and otherwise sets pc to the operand's cell mod 256. |
| Lmc.Brp | src/lmc.rs:136-140 | When the flag is set BRP changes nothing and cannot fault. When the flag is clear it faults exactly on operand 99 and otherwise sets pc to the operand's cell mod 256. |
| Lmc.Inp | src/lmc.rs:142-148 | INP faults exactly when the input is empty (exhausted) or its first value is not a u16 (unparsable). Otherwise the accumulator, and nothing else, takes the first value. That value is consumed and the output is untouched. |
| Lmc.Out | src/lmc.rs:150-152 | OUT leaves the machine and the input unchanged and appends exactly the accumulator to the output. |
| Lmc.Execute | src/lmc.rs:58-81 | Execution halts exactly on opcode 0, then with nothing changed. Opcodes 4 and 10 and up, and opcode 9 with an operand other than 1 or 2, change nothing. Only opcode 9 touches the ports. Only opcodes 1-3 and 5-9 can fault. |
| Lmc.Step | src/lmc.rs:83-89 | A pc of 99 or more is a fault when fetching. A cycle halts exactly when the fetched word decodes to opcode 0, and then the result is the latched state with the ports unchanged. A cycle that does not fault consumes at most the first input value and appends at most the accumulator to the output. |
| LmcProperties.DecodeEncode | src/lmc.rs:51-56 | Decoding the word built from any opcode below 256 and operand below 100 returns that opcode and operand. |
| LmcProperties.EncodeDecode | src/lmc.rs:51-56 | Re-encoding a decoded word gives the word mod 25600. So it gives the word back if and only if the word is below 25600. |
| LmcProperties.CreateHaltsAtOnce | src/lmc.rs:23-34 | A freshly created machine halts on its first cycle, changing only pc to 1 and leaving the ports alone. |
| LmcProperties.HaltIff | src/lmc.rs:58-61 | A cycle halts if and only if pc is within the mailbox and the cell there decodes to opcode 0. |
| LmcProperties.HaltFrame | src/lmc.rs:83-89 | A halting cycle changes only pc (plus one), the data register and the instruction register, and does not touch the ports. |
| LmcProperties.ZeroCellHalts | src/lmc.rs:83-89 | Any zero cell at pc, loaded or not, halts the machine. |
| LmcProperties.LoadedProgramEndsInHalt | src/lmc.rs:36-44 | After loading fewer than 99 words into a new machine, the cell just past the program halts the machine. |
| LmcProperties.StepAdd | src/lmc.rs:95-104 | ADD faults on operand 99 or on a u16 overflow. Otherwise, when acc + cell > 999 the accumulator is unchanged and the flag is set. When the sum is at most 999 the accumulator becomes the sum and the flag clears. The data register holds the cell, and the mailbox and ports are unchanged. |
| LmcProperties.StepSub | src/lmc.rs:106-114 | SUB faults on operand 99. Otherwise, when acc < cell the accumulator is unchanged and the flag is set. When acc >= cell the accumulator drops by the cell and the flag clears, so the accumulator never goes negative or grows. |
| LmcProperties.SubUndoesAdd | src/lmc.rs:95-114 | A successful ADD followed by SUB of the same cell restores the accumulator and leaves the flag clear. |
| LmcProperties.StepSta | src/lmc.rs:116-118 | STA faults on operand 99. Otherwise it writes the accumulator into exactly the operand's cell. Every other cell, the accumulator and the flag are unchanged. |
| LmcProperties.StepLda | src/lmc.rs:120-123 | LDA faults on operand 99. Otherwise it changes only the accumulator, which takes the cell's value. |
| LmcProperties.StepNop | src/lmc.rs:58-81 | Opcode 4, opcodes 10 and up, and opcode 9 with an operand other than 1 or 2 change nothing beyond fetch, decode and the pc increment. |
| LmcProperties.StepBra | src/lmc.rs:125-128 | BRA sets pc to the operand's cell mod 256, and faults on operand 99. |
| LmcProperties.StepBrp | src/lmc.rs:136-140 | BRP branches like BRA exactly when the flag is clear. Otherwise it falls through without reading memory. |
| LmcProperties.BrzNeverBranches | src/lmc.rs:130-134 | BRZ compares the already-incremented pc with zero, so it never branches and never faults. |
| LmcProperties.StepInp | src/lmc.rs:142-148 | INP faults on exhausted input or a value outside u16. Otherwise it moves the first input value into the accumulator and consumes it. |
| LmcProperties.StepOut | src/lmc.rs:150-152 | OUT appends the accumulator to the output and changes no register beyond the latch. |
| LmcProperties.StepPreservesBounded | src/lmc.rs:95-123 | If the accumulator, all cells, all pending inputs and all outputs are at most 999, a cycle cannot overflow or reject input. A cycle that does not fault keeps all of them at most 999. |
| Driver.Run | src/main.rs:9-13 | With no fuel the machine is returned as it is. A halting or faulting first cycle ends the loop with that outcome. When the run does not fault, the original output is a prefix of the final output and the remaining input is a suffix of the original input. |
| Driver.Boot | src/main.rs:4-13 | More than 99 program words is an out-of-range fault. An empty program, or one whose first word is 0, halts with the ports untouched. A program and inputs whose values are all at most 999 never overflow or reject input. |
| Driver.RunHaltsOnZeroCell | src/main.rs:9-13 | The driver loop stops, with the ports untouched, when pc rests on a zero cell. |
| Driver.RunPreservesBounded | src/main.rs:9-13 | Over any number of cycles, a bounded machine never overflows or rejects input and stays bounded unless it faults. |
| Driver.DoublerPrintsFourteen | src/main.rs:4-13 | Loading INP, STA 98, LDA 98, ADD 98, OUT, HLT into a new machine with input 7 prints 14 and halts. |
| Driver.Cell99Faults | src/lmc.rs:116-118 | The same program stored through cell 99 faults with an out-of-range address on its second cycle. |
| Assembler.IsValidOp | src/assembler.rs:21-31 | The table scan answers true exactly when the string equals one of the nine mnemonics. |
| Assembler.Tokenize | src/assembler.rs:54-105 | No fields gives no token. More than three fields is an error. Errors and tokens carry the line index. Every token is well formed: an opcode comes with an operand, a label needs an opcode and is a mnemonic, and DAT only follows a label. There is one outcome per field count and mnemonic test, as the code nests them. |
| Text.CodePart | src/assembler.rs:51 | The result is a prefix of the line with no `//` starting before its end. It is either the whole line or stops right at a `//`. |
| Text.SplitWs | src/assembler.rs:52 | Every field is non-empty and contains no whitespace. |
| TextProperties.CodePartUnique | src/assembler.rs:51 | The prefix described by `CodePart`'s contract is unique, so that contract defines the comment cut. |
| TextProperties.CodePartIdempotent | src/assembler.rs:51 | Cutting at the first `//` twice equals cutting once. |
| TextProperties.CodePartDropsComment | src/assembler.rs:51 | Suppose the code has no `//` and does not end in `/`. Then cutting code + `//` + comment returns the code. |
| TextProperties.SplitWsKeepsVisible | src/assembler.rs:52 | The fields, concatenated, are exactly the non-whitespace characters of the input in order. |
| TextProperties.SplitWsEmptyIff | src/assembler.rs:52-56 | There are no fields if and only if the input is all whitespace. |
| TextProperties.SplitJoin | src/assembler.rs:52 | Joining whitespace-free non-empty fields with single spaces and splitting again returns the same fields. |
| Assembler.GenAsmTokenLine | src/assembler.rs:49-107 | A line gives Ok(None) if and only if everything before its first `//` is whitespace. More than three fields before the comment is a trailing-content error. Every error and token carries the line index, and every token is well formed. |
| AssemblerProperties.CommentIrrelevant | src/assembler.rs:51-52 | Tokenizing a line equals tokenizing its text before the first `//`. |
| AssemblerProperties.CommentAppended | src/assembler.rs:51-52 | Appending a comment to a line that has no `//` and does not end in `/` leaves its token unchanged. |
| AssemblerProperties.RenderRoundTrip | src/assembler.rs:61-105 | Every well-formed token with an opcode, whose fields have no whitespace or `//`, is what its own space-joined rendering tokenizes to. |
| AssemblerProperties.BareOpcodeRejected | src/assembler.rs:81-85 | The line `INP` is an error: a lone mnemonic is taken for a label with no instruction. |
| AssemblerProperties.HaltLineIsEmptyToken | src/assembler.rs:33-35 | The line `HLT` gives a token with no opcode, operand or label, since HLT is not in the table. |
| AssemblerProperties.UnknownOpcodeIsEmptyToken | src/assembler.rs:69-105 | The line `FOO 5` is not an error; it gives an empty token. |
| AssemblerProperties.LabelledLineIsEmptyToken | src/assembler.rs:69-101 | The line `LOOP LDA 7` gives an empty token, because the label branch is reached only when the first field is a mnemonic. |
| AssemblerProperties.CommentedInstruction | src/assembler.rs:69-77 | `STA 98// keep` tokenizes to opcode STA and operand 98 with no label. |

## Left out

- `assembler::load_instructions` (src/assembler.rs:38-47) only opens a file and parses its lines with `unwrap`. That is I/O and is not modelled.
- The commented-out `gen_asmtoken_vec` and the `assembler::assemble` called from `main` have no body in the source. The label map, operand resolution and word encoding therefore do not exist there, and the model does not invent them.
- Console I/O in `inp`/`out` and `main` is not modelled. This includes the `LMC` banner printed at start, the `INPUT:` prompt, `trim`, and the text of printed numbers. Input is a sequence of numbers, one per line. A value of 65536 or more stands for any line that `parse::<u16>()` rejects. End of input is its own fault. Output is the sequence of printed values.
- LmcProperties.StepAdd: models the debug build, where a `u16` overflow of `accumulator + data_reg` panics. A release build would wrap instead.
- Driver.Run: the source loop may run forever. The model runs at most `fuel` cycles and reports `Continue` when fuel runs out.
- Error message text and the mismatch between the `format!` results and the declared `&str` error type are not modelled. A tokenizer error is an error kind plus the line index.
- Rust lifetimes and borrowing of the token's string slices are not modelled; tokens hold copies of the fields.
- The state after a panic is not modelled. A `Fault` ends the run, as the panic ends the process.
