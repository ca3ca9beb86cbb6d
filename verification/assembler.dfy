/** The line tokenizer of the assembler (src/assembler.rs): the mnemonic
    table and `gen_asmtoken_line`, with the branch nesting of the source. */
module Assembler {
  import opened Basics
  import opened Text
  import opened TextProperties

  /** One source line's parse (`AsmToken`). */
  datatype Token = Token(
    opcode: Option<string>,
    operand: Option<string>,
    labelName: Option<string>,
    index: U16)

  /** Which diagnostic the tokenizer reports. */
  datatype ErrorKind =
    | TrailingContent     // more than three fields
    | MissingInstruction  // a lone mnemonic, taken for a label with nothing after it
    | UnknownOperation    // second field neither a mnemonic nor DAT

  /** A tokenizer error: its kind and the line index it names. */
  datatype TokenError = TokenError(kind: ErrorKind, index: U16)

  /** The table `OPS`: nine mnemonics.  `HLT` and `DAT` are not among them. */
  const Ops: seq<string> := ["ADD", "SUB", "STA", "LDA", "BRA", "BRP", "BRZ", "INP", "OUT"]

  /** The data pseudo-instruction, accepted only as the second field. */
  const Dat: string := "DAT"

  predicate ValidOp(op: string) {
    op in Ops
  }

  /** `is_valid_op`: a linear scan of the table for an exact match. */
  method IsValidOp(op: string) returns (b: bool)
    ensures b <==> ValidOp(op)
  {
    var i := 0;
    while i < |Ops|
      invariant 0 <= i <= |Ops|
      invariant forall k :: 0 <= k < i ==> Ops[k] != op
    {
      if Ops[i] == op {
        return true;
      }
      i := i + 1;
    }
    return false;
  }

  /** The shapes of token the tokenizer can produce: an opcode always comes
      with an operand, a label only with an opcode, a label is itself a
      mnemonic, and DAT appears only after a label. */
  predicate WellFormed(t: Token) {
    (t.opcode.Some? <==> t.operand.Some?) &&
    (t.labelName.Some? ==> t.opcode.Some? && ValidOp(t.labelName.value)) &&
    (t.opcode.Some? ==> ValidOp(t.opcode.value) || (t.opcode.value == Dat && t.labelName.Some?))
  }

  /** The classification of a line's fields by count and content. */
  function Tokenize(fs: seq<string>, index: U16): (r: Result<Option<Token>, TokenError>)
    ensures r == Ok(None) <==> |fs| == 0
    ensures |fs| > 3 ==> r == Err(TokenError(TrailingContent, index))
    ensures r.Err? ==> r.error.index == index
    ensures r.Ok? && r.value.Some? ==> r.value.value.index == index && WellFormed(r.value.value)
    ensures 0 < |fs| <= 3 && !ValidOp(fs[0]) ==> r == Ok(Some(Token(None, None, None, index)))
    ensures |fs| == 2 && ValidOp(fs[0]) ==> r == Ok(Some(Token(Some(fs[0]), Some(fs[1]), None, index)))
    ensures |fs| == 1 && ValidOp(fs[0]) ==> r == Err(TokenError(MissingInstruction, index))
    ensures |fs| == 3 && ValidOp(fs[0]) ==>
      r == if ValidOp(fs[1]) || fs[1] == Dat
           then Ok(Some(Token(Some(fs[1]), Some(fs[2]), Some(fs[0]), index)))
           else Err(TokenError(UnknownOperation, index))
  {
    if |fs| == 0 then Ok(None)
    else if |fs| > 3 then Err(TokenError(TrailingContent, index))
    else if ValidOp(fs[0]) then
      if |fs| == 2 then Ok(Some(Token(Some(fs[0]), Some(fs[1]), None, index)))
      else if |fs| == 1 then Err(TokenError(MissingInstruction, index))
      else if !ValidOp(fs[1]) && fs[1] != Dat then Err(TokenError(UnknownOperation, index))
      else Ok(Some(Token(Some(fs[1]), if |fs| == 3 then Some(fs[2]) else None, Some(fs[0]), index)))
    else Ok(Some(Token(None, None, None, index)))
  }

  /** `gen_asmtoken_line`: tokenize the fields before the first `//`.  A
      line yields neither token nor error exactly when it is blank before
      its comment. */
  function GenAsmTokenLine(line: string, index: U16): (r: Result<Option<Token>, TokenError>)
    ensures r == Ok(None) <==> AllWs(CodePart(line))
    ensures r.Err? ==> r.error.index == index
    ensures r.Ok? && r.value.Some? ==> r.value.value.index == index && WellFormed(r.value.value)
    ensures |Fields(line)| > 3 ==> r == Err(TokenError(TrailingContent, index))
  {
    SplitWsEmptyIff(CodePart(line));
    Tokenize(Fields(line), index)
  }
}
