/** What `gen_asmtoken_line` promises about whole source lines: only the
    code part matters, blank lines yield nothing, every token shape it can
    produce is recovered from a rendering of it, and the concrete
    consequences of its branch nesting. */
module AssemblerProperties {
  import opened Basics
  import opened Text
  import opened TextProperties
  import opened Assembler

  /** The fields a token occupies on a line: label, opcode, operand. */
  function TokenFields(t: Token): seq<string> {
    (if t.labelName.Some? then [t.labelName.value] else []) +
    (if t.opcode.Some? then [t.opcode.value] else []) +
    (if t.operand.Some? then [t.operand.value] else [])
  }

  /** A canonical source line for a token: its fields separated by spaces. */
  function Render(t: Token): string {
    Join(TokenFields(t))
  }

  /** A token the tokenizer could have produced from some line and that has
      a rendering: well formed, with an opcode, and every field free of
      whitespace and of comment markers. */
  predicate Renderable(t: Token) {
    WellFormed(t) && t.opcode.Some? &&
    forall j :: 0 <= j < |TokenFields(t)| ==> IsField(TokenFields(t)[j]) && NoMarker(TokenFields(t)[j])
  }

  /** Only the text before the first `//` matters. */
  lemma CommentIrrelevant(line: string, index: U16)
    ensures GenAsmTokenLine(line, index) == GenAsmTokenLine(CodePart(line), index)
  {
    CodePartIdempotent(line);
  }

  /** Appending a comment to a line does not change its token. */
  lemma CommentAppended(code: string, comment: string, index: U16)
    requires NoMarker(code)
    requires |code| == 0 || code[|code| - 1] != '/'
    ensures GenAsmTokenLine(code + "//" + comment, index) == GenAsmTokenLine(code, index)
  {
    CodePartDropsComment(code, comment);
    CodePartOfPlain(code);
  }

  /** Every well-formed token with an opcode is what its own rendering
      tokenizes to. */
  lemma RenderRoundTrip(t: Token)
    requires Renderable(t)
    ensures GenAsmTokenLine(Render(t), t.index) == Ok(Some(t))
  {
    var fs := TokenFields(t);
    FieldsOfJoin(fs);
    if t.labelName.Some? {
      assert fs == [t.labelName.value, t.opcode.value, t.operand.value];
    } else {
      assert fs == [t.opcode.value, t.operand.value];
    }
  }

  /** A lone mnemonic is taken for a label with nothing after it. */
  lemma BareOpcodeRejected()
    ensures GenAsmTokenLine("INP", 4) == Err(TokenError(MissingInstruction, 4))
  {
    FieldsOfJoin(["INP"]);
  }

  /** `HLT` is not in the table, so a halt line tokenizes to an empty token. */
  lemma HaltLineIsEmptyToken()
    ensures GenAsmTokenLine("HLT", 5) == Ok(Some(Token(None, None, None, 5)))
  {
    FieldsOfJoin(["HLT"]);
  }

  /** An unknown mnemonic is not an error: the line gives an empty token. */
  lemma UnknownOpcodeIsEmptyToken()
    ensures GenAsmTokenLine("FOO 5", 2) == Ok(Some(Token(None, None, None, 2)))
  {
    var fs := ["FOO", "5"];
    assert Join(fs) == "FOO 5" by {
      assert fs[1..] == ["5"];
    }
    FieldsOfJoin(fs);
  }

  /** A conventional labelled line, whose label is not a mnemonic, also
      gives an empty token: the label branch is only reached when the first
      field is in the table. */
  lemma LabelledLineIsEmptyToken()
    ensures GenAsmTokenLine("LOOP LDA 7", 0) == Ok(Some(Token(None, None, None, 0)))
  {
    var fs := ["LOOP", "LDA", "7"];
    assert Join(fs) == "LOOP LDA 7" by {
      assert fs[1..] == ["LDA", "7"] && fs[1..][1..] == ["7"];
    }
    FieldsOfJoin(fs);
    assert !ValidOp("LOOP");
  }

  /** An instruction with a trailing comment tokenizes to opcode and operand. */
  lemma CommentedInstruction()
    ensures GenAsmTokenLine("STA 98// keep", 1) == Ok(Some(Token(Some("STA"), Some("98"), None, 1)))
  {
    var fs := ["STA", "98"];
    assert "STA 98// keep" == "STA 98" + "//" + " keep";
    assert Join(fs) == "STA 98" by {
      assert fs[1..] == ["98"];
    }
    JoinNoMarker(fs);
    CommentAppended("STA 98", " keep", 1);
    FieldsOfJoin(fs);
  }
}
