/** The parser (src/frontend/parser/mod.rs): a line-oriented pass over the
    tokens with a shared cursor.  Each line gives at most one command
    builder; errors are added to the context and parsing goes on, skipping
    to the next line boundary after a line that failed.

    The functions below are the specification: each takes the cursor's
    position and returns what the source's function returns, where the
    cursor ends, and the errors it adds (`Parsed`).  The methods are the
    source's functions over a `TokenCursor` and a `ParseContext`, each
    proved to do what its specification says. */
module Parser {
  import opened Base
  import opened Tokens
  import opened Operants
  import opened Commands
  import opened Errors

  /** What a parsing function yields: its result, the cursor position
      after it, and the errors it added, in order. */
  datatype Parsed<T> = Parsed(value: Option<T>, pos: nat, errors: seq<ParseErrorBuilder>)

  /** An error spanning a token. */
  function ErrorAt(kind: ParseErrorType, t: Token): (e: ParseErrorBuilder)
    ensures e.kind == kind && e.start == t.start && e.end == t.end
  {
    NewError(kind, t.start, t.end)
  }

  /** Every symbol token lies inside the text, so its text can be read. */
  predicate SymbolsInBounds(tokens: seq<Token>, n: nat) {
    forall k :: 0 <= k < |tokens| && tokens[k].tokenType == Symbol ==> InBounds(tokens[k], n)
  }

  /** The upper-cased text of a symbol: the mnemonic a command names. */
  function MnemonicOf(text: string, instruction: Token): string
    requires InBounds(instruction, |text|)
  {
    Upper(Resolve(instruction, text))
  }

  /** Where `skip_empty_lines` leaves the cursor: past every `NewLine`. */
  function SkipBlank(tokens: seq<Token>, pos: nat): (p: nat)
    requires pos <= |tokens|
    ensures pos <= p <= |tokens|
    ensures forall k :: pos <= k < p ==> tokens[k].tokenType == NewLine
    ensures p < |tokens| ==> tokens[p].tokenType != NewLine
    decreases |tokens| - pos
  {
    if pos < |tokens| && tokens[pos].tokenType == NewLine then SkipBlank(tokens, pos + 1) else pos
  }

  predicate EndsLine(t: Token) { t.tokenType == NewLine || t.tokenType == End }

  /** Where `recover_to_next_line` leaves the cursor: on the next `NewLine`
      or `End`, not past it. */
  function LineBoundary(tokens: seq<Token>, pos: nat): (p: nat)
    requires pos <= |tokens|
    ensures pos <= p <= |tokens|
    ensures forall k :: pos <= k < p ==> !EndsLine(tokens[k])
    ensures p < |tokens| ==> EndsLine(tokens[p])
    decreases |tokens| - pos
  {
    if pos < |tokens| && !EndsLine(tokens[pos]) then LineBoundary(tokens, pos + 1) else pos
  }

  /** The errors `finish_line` adds: one `InvalidToken` per token before
      the line boundary. */
  function TrailingErrors(tokens: seq<Token>, pos: nat): (errors: seq<ParseErrorBuilder>)
    requires pos <= |tokens|
    ensures |errors| == LineBoundary(tokens, pos) - pos
    ensures forall k :: 0 <= k < |errors| ==> errors[k] == ErrorAt(InvalidToken, tokens[pos + k])
    decreases |tokens| - pos
  {
    if pos < |tokens| && !EndsLine(tokens[pos]) then
      [ErrorAt(InvalidToken, tokens[pos])] + TrailingErrors(tokens, pos + 1)
    else []
  }

  /** The kinds of error the parser raises. */
  predicate IsParseErrorKind(kind: ParseErrorType) {
    || kind == MissingInstruction || kind == InvalidInstruction || kind == InvalidOperant
    || kind == MissingOperant || kind == MissingParenthesisClose || kind == InvalidToken
  }

  /** Only the parser's own kinds of error. */
  predicate ParseErrorsOnly(errors: seq<ParseErrorBuilder>) {
    forall k :: 0 <= k < |errors| ==> IsParseErrorKind(errors[k].kind)
  }

  /** `parse_operant_fixed`, the cursor just past `#`: a number. Any other
      token is an invalid operand at that token; no token at all is no
      operand and no error. */
  function ParsedFixed(tokens: seq<Token>, pos: nat): (r: Parsed<Operant>)
    ensures r.pos == if pos < |tokens| then pos + 1 else pos
    ensures r.value.Some? <==> pos < |tokens| && tokens[pos].tokenType == Number
    ensures r.value.Some? ==> r.value.value == Operant(Fixed, tokens[pos]) && r.errors == []
    ensures pos >= |tokens| ==> r.value.None? && r.errors == []
    ensures pos < |tokens| && tokens[pos].tokenType != Number ==>
      r.errors == [ErrorAt(InvalidOperant, tokens[pos])]
  {
    if pos >= |tokens| then Parsed(None, pos, [])
    else
      var first := tokens[pos];
      match EnsureType(first, Number)
      case None => Parsed(None, pos + 1, [ErrorAt(InvalidOperant, first)])
      case Some(_) => Parsed(Some(Operant(Fixed, first)), pos + 1, [])
  }

  /** `parse_operant_address`, the cursor just past `(`: a number and `)`.
      Anything but a number is an invalid operant at that token, anything
      but `)` after the number a missing parenthesis at that token; running
      out of tokens is no operand and no error. */
  function ParsedAddress(tokens: seq<Token>, pos: nat): (r: Parsed<Operant>)
    ensures pos <= r.pos <= pos + 2 && (pos <= |tokens| ==> r.pos <= |tokens|)
    ensures r.value.Some? <==>
      pos + 1 < |tokens| && tokens[pos].tokenType == Number && tokens[pos + 1].tokenType == ParenthesisClose
    ensures r.value.Some? ==> r.value.value == Operant(Address, tokens[pos]) && r.pos == pos + 2 && r.errors == []
    ensures pos < |tokens| && tokens[pos].tokenType != Number ==>
      r.pos == pos + 1 && r.errors == [ErrorAt(InvalidOperant, tokens[pos])]
    ensures pos + 1 < |tokens| && tokens[pos].tokenType == Number && tokens[pos + 1].tokenType != ParenthesisClose ==>
      r.errors == [ErrorAt(MissingParenthesisClose, tokens[pos + 1])]
    ensures pos >= |tokens| || (pos + 1 == |tokens| && tokens[pos].tokenType == Number) ==>
      r.value.None? && r.errors == []
  {
    if pos >= |tokens| then Parsed(None, pos, [])
    else
      var first := tokens[pos];
      if EnsureType(first, Number).None? then Parsed(None, pos + 1, [ErrorAt(InvalidOperant, first)])
      else if pos + 1 >= |tokens| then Parsed(None, pos + 1, [])
      else
        var second := tokens[pos + 1];
        if EnsureType(second, ParenthesisClose).None? then
          Parsed(None, pos + 2, [ErrorAt(MissingParenthesisClose, second)])
        else Parsed(Some(Operant(Address, first)), pos + 2, [])
  }

  /** `parse_operant`: `(N)` is an address, `N` and `#N` a fixed number, a
      symbol a label; each form only where the mnemonic allows it. */
  function ParsedOperant(tokens: seq<Token>, pos: nat, instruction: Token, attributes: InstructionAttribute): (r: Parsed<Operant>)
    ensures pos < |tokens| ==> pos < r.pos <= |tokens|
    ensures pos >= |tokens| ==> r.pos == pos
  {
    if pos >= |tokens| then Parsed(None, pos, [ErrorAt(MissingOperant, instruction)])
    else
      var first := tokens[pos];
      match first.tokenType
      case ParenthesisOpen =>
        if !attributes.AllowAddress() then Parsed(None, pos + 1, [ErrorAt(InvalidOperant, first)])
        else ParsedAddress(tokens, pos + 1)
      case Number =>
        if !attributes.AllowFixedNumber() then Parsed(None, pos + 1, [ErrorAt(InvalidOperant, first)])
        else Parsed(Some(Operant(Fixed, first)), pos + 1, [])
      case Symbol =>
        if !attributes.AllowLabel() then Parsed(None, pos + 1, [ErrorAt(InvalidOperant, first)])
        else Parsed(Some(Operant(Label, first)), pos + 1, [])
      case Hash =>
        if !attributes.AllowFixedNumber() then Parsed(None, pos + 1, [ErrorAt(InvalidOperant, first)])
        else ParsedFixed(tokens, pos + 1)
      case _ => Parsed(None, pos + 1, [ErrorAt(MissingOperant, first)])
  }

  /** The token type an operand of each kind holds: a symbol for a label,
      a number otherwise. */
  function OperantTokenType(kind: OperantKind): TokenType {
    if kind == Label then Symbol else Number
  }

  /** The first token of each operand form, with the kind it gives. */
  function FormOf(t: TokenType): Option<OperantKind> {
    match t
    case ParenthesisOpen => Some(Address)
    case Number => Some(Fixed)
    case Hash => Some(Fixed)
    case Symbol => Some(Label)
    case _ => None
  }

  /** An operand either has a form the mnemonic allows and is read from
      its tokens, or is an error: a form the mnemonic does not allow is
      `InvalidOperant` at its first token, no form at all `MissingOperant`
      at that token, or at the mnemonic when the tokens ran out. */
  lemma ParsedOperantSound(tokens: seq<Token>, pos: nat, instruction: Token, attributes: InstructionAttribute)
    ensures var r := ParsedOperant(tokens, pos, instruction, attributes);
      && (r.value.Some? ==>
           && pos < |tokens| && FormOf(tokens[pos].tokenType) == Some(r.value.value.kind)
           && attributes.Allows(r.value.value.kind)
           && r.value.value.value in tokens
           && r.value.value.value.tokenType == OperantTokenType(r.value.value.kind))
      && ParseErrorsOnly(r.errors)
      && (pos >= |tokens| ==> r.errors == [ErrorAt(MissingOperant, instruction)])
      && (pos < |tokens| && FormOf(tokens[pos].tokenType).None? ==>
           r == Parsed(None, pos + 1, [ErrorAt(MissingOperant, tokens[pos])]))
      && (pos < |tokens| && FormOf(tokens[pos].tokenType).Some?
          && !attributes.Allows(FormOf(tokens[pos].tokenType).value) ==>
           r == Parsed(None, pos + 1, [ErrorAt(InvalidOperant, tokens[pos])]))
  {
  }

  /** Each allowed form is read whole: `(N)`, `#N`, `N` and a symbol. */
  lemma ParsedOperantForms(tokens: seq<Token>, pos: nat, instruction: Token, attributes: InstructionAttribute)
    requires pos < |tokens|
    ensures var r := ParsedOperant(tokens, pos, instruction, attributes);
      && (pos + 2 < |tokens| && attributes.AllowAddress() && tokens[pos].tokenType == ParenthesisOpen
          && tokens[pos + 1].tokenType == Number && tokens[pos + 2].tokenType == ParenthesisClose ==>
           r == Parsed(Some(Operant(Address, tokens[pos + 1])), pos + 3, []))
      && (pos + 1 < |tokens| && attributes.AllowFixedNumber() && tokens[pos].tokenType == Hash
          && tokens[pos + 1].tokenType == Number ==>
           r == Parsed(Some(Operant(Fixed, tokens[pos + 1])), pos + 2, []))
      && (attributes.AllowFixedNumber() && tokens[pos].tokenType == Number ==>
           r == Parsed(Some(Operant(Fixed, tokens[pos])), pos + 1, []))
      && (attributes.AllowLabel() && tokens[pos].tokenType == Symbol ==>
           r == Parsed(Some(Operant(Label, tokens[pos])), pos + 1, []))
  {
  }

  /** A command builder the parser can emit: its mnemonic is known, its
      operand is absent exactly for NOP and otherwise of a kind the
      mnemonic takes, and every token it holds is one of `tokens`, of the
      right type. */
  predicate WellFormed(text: string, tokens: seq<Token>, b: CommandBuilder) {
    && b.instruction in tokens && b.instruction.tokenType == Symbol
    && InBounds(b.instruction, |text|)
    && (b.labelToken.Some? ==> b.labelToken.value in tokens && b.labelToken.value.tokenType == Symbol)
    && var mnemonic := MnemonicOf(text, b.instruction);
    && mnemonic in MNEMONICS
    && (b.operant.None? <==> mnemonic == "NOP")
    && (b.operant.Some? ==>
         && Opcode(mnemonic, b.operant.value.kind).Some?
         && b.operant.value.value in tokens
         && b.operant.value.value.tokenType == OperantTokenType(b.operant.value.kind))
  }

  /** `parse_command`: the mnemonic is looked up upper-cased. */
  function ParsedCommand(text: string, tokens: seq<Token>, pos: nat, labelToken: Option<Token>, instruction: Token): (r: Parsed<CommandBuilder>)
    requires InBounds(instruction, |text|)
    ensures pos <= r.pos && (pos <= |tokens| ==> r.pos <= |tokens|)
  {
    var mnemonic := MnemonicOf(text, instruction);
    match GetInstructionAttribute(mnemonic)
    case None => Parsed(None, pos, [ErrorAt(InvalidInstruction, instruction)])
    case Some(attributes) =>
      if attributes.AllowNoOperant() then Parsed(Some(CommandBuilder(labelToken, instruction, None)), pos, [])
      else
        var operant := ParsedOperant(tokens, pos, instruction, attributes);
        match operant.value
        case None => Parsed(None, operant.pos, operant.errors)
        case Some(o) => Parsed(Some(CommandBuilder(labelToken, instruction, Some(o))), operant.pos, operant.errors)
  }

  /** An unknown mnemonic is `InvalidInstruction` at its span, NOP takes
      no operand and consumes nothing more, and every builder produced is
      well formed, with the label and mnemonic it was given. */
  lemma ParsedCommandSound(text: string, tokens: seq<Token>, pos: nat, labelToken: Option<Token>, instruction: Token)
    requires InBounds(instruction, |text|) && instruction in tokens && instruction.tokenType == Symbol
    requires labelToken.Some? ==> labelToken.value in tokens && labelToken.value.tokenType == Symbol
    ensures var r := ParsedCommand(text, tokens, pos, labelToken, instruction);
      && (r.value.Some? ==>
           && WellFormed(text, tokens, r.value.value)
           && r.value.value.instruction == instruction && r.value.value.labelToken == labelToken)
      && ParseErrorsOnly(r.errors)
      && (MnemonicOf(text, instruction) !in MNEMONICS ==>
           r == Parsed(None, pos, [ErrorAt(InvalidInstruction, instruction)]))
      && (MnemonicOf(text, instruction) == "NOP" ==>
           r == Parsed(Some(CommandBuilder(labelToken, instruction, None)), pos, []))
  {
    var attribute := GetInstructionAttribute(MnemonicOf(text, instruction));
    if attribute.Some? && !attribute.value.AllowNoOperant() {
      ParsedOperantSound(tokens, pos, instruction, attribute.value);
    }
  }

  /** Where the mnemonic of a line starting at `pos` sits: after the
      label, its colon and any blank lines, or at `pos` itself. */
  function InstructionIndex(tokens: seq<Token>, pos: nat): nat
    requires pos < |tokens|
  {
    if pos + 1 < |tokens| && tokens[pos + 1].tokenType == Colon then SkipBlank(tokens, pos + 2) else pos
  }

  /** The labelled branch of `parse_line`, from just past the colon: blank
      lines may separate the label from its mnemonic, and anything but a
      symbol there, `End` included, is `MissingInstruction`. */
  function ParsedLabelled(text: string, tokens: seq<Token>, pos: nat, labelToken: Token): (r: Parsed<CommandBuilder>)
    requires SymbolsInBounds(tokens, |text|) && pos <= |tokens|
    ensures pos <= r.pos <= |tokens|
    ensures SkipBlank(tokens, pos) < |tokens| ==> SkipBlank(tokens, pos) < r.pos
  {
    ParsedLabelledMnemonic(text, tokens, SkipBlank(tokens, pos), labelToken)
  }

  /** The mnemonic of a labelled line, at `p`, past any blank lines. */
  function ParsedLabelledMnemonic(text: string, tokens: seq<Token>, p: nat, labelToken: Token): (r: Parsed<CommandBuilder>)
    requires SymbolsInBounds(tokens, |text|) && p <= |tokens|
    ensures p <= r.pos <= |tokens|
    ensures p < |tokens| ==> p < r.pos
  {
    if p >= |tokens| then Parsed(None, p, [])
    else
      var third := tokens[p];
      if EnsureType(third, Symbol).None? then Parsed(None, p + 1, [ErrorAt(MissingInstruction, third)])
      else ParsedCommand(text, tokens, p + 1, Some(labelToken), third)
  }

  /** After a label and its colon, the next non-blank token is the
      mnemonic, or the line is `MissingInstruction` there. */
  lemma ParsedLabelledSound(text: string, tokens: seq<Token>, pos: nat, labelToken: Token)
    requires SymbolsInBounds(tokens, |text|) && pos <= |tokens|
    requires labelToken in tokens && labelToken.tokenType == Symbol
    ensures var r := ParsedLabelled(text, tokens, pos, labelToken);
      && (r.value.Some? ==>
           && WellFormed(text, tokens, r.value.value)
           && SkipBlank(tokens, pos) < r.pos
           && tokens[SkipBlank(tokens, pos)] == r.value.value.instruction
           && r.value.value.labelToken == Some(labelToken))
      && ParseErrorsOnly(r.errors)
      && (SkipBlank(tokens, pos) < |tokens| && tokens[SkipBlank(tokens, pos)].tokenType != Symbol ==>
           r == Parsed(None, SkipBlank(tokens, pos) + 1, [ErrorAt(MissingInstruction, tokens[SkipBlank(tokens, pos)])]))
  {
    var p := SkipBlank(tokens, pos);
    if p < |tokens| && tokens[p].tokenType == Symbol {
      ParsedCommandSound(text, tokens, p + 1, Some(labelToken), tokens[p]);
    }
  }

  /** `parse_line` once its first token, `first`, is a symbol: a colon
      makes that symbol a label, anything else makes it the mnemonic. */
  function ParsedAfterSymbol(text: string, tokens: seq<Token>, pos: nat, first: Token): (r: Parsed<CommandBuilder>)
    requires SymbolsInBounds(tokens, |text|) && InBounds(first, |text|)
    ensures pos <= r.pos && (pos <= |tokens| ==> r.pos <= |tokens|)
    ensures pos >= |tokens| ==> r == Parsed(None, pos, [])
  {
    if pos >= |tokens| then Parsed(None, pos, [])
    else if tokens[pos].tokenType == Colon then ParsedLabelled(text, tokens, pos + 1, first)
    else ParsedCommand(text, tokens, pos, None, first)
  }

  /** `parse_line`: a mnemonic, or a label, a colon and a mnemonic. */
  function ParsedLine(text: string, tokens: seq<Token>, pos: nat): (r: Parsed<CommandBuilder>)
    requires SymbolsInBounds(tokens, |text|)
    ensures pos < |tokens| ==> pos < r.pos <= |tokens|
    ensures pos >= |tokens| ==> r == Parsed(None, pos, [])
  {
    if pos >= |tokens| then Parsed(None, pos, [])
    else
      var first := tokens[pos];
      if EnsureType(first, Symbol).None? then
        Parsed(None, pos + 1, if first.tokenType != End then [ErrorAt(MissingInstruction, first)] else [])
      else ParsedAfterSymbol(text, tokens, pos + 1, first)
  }

  /** A line that yields a builder yields a well-formed one, whose
      mnemonic is the token at `InstructionIndex` and whose label, if it
      has one, is the line's first token. */
  lemma ParsedLineBuilds(text: string, tokens: seq<Token>, pos: nat)
    requires SymbolsInBounds(tokens, |text|)
    ensures var r := ParsedLine(text, tokens, pos);
      r.value.Some? ==>
        && WellFormed(text, tokens, r.value.value)
        && pos < |tokens| && pos <= InstructionIndex(tokens, pos) < r.pos
        && tokens[InstructionIndex(tokens, pos)] == r.value.value.instruction
        && (r.value.value.labelToken.Some? <==> InstructionIndex(tokens, pos) != pos)
        && (r.value.value.labelToken.Some? ==> r.value.value.labelToken == Some(tokens[pos]))
  {
    if pos >= |tokens| || tokens[pos].tokenType != Symbol || pos + 1 >= |tokens| {
      assert ParsedLine(text, tokens, pos).value.None?;
    } else if tokens[pos + 1].tokenType == Colon {
      ParsedLabelledSound(text, tokens, pos + 2, tokens[pos]);
    } else {
      ParsedCommandSound(text, tokens, pos + 1, None, tokens[pos]);
    }
  }

  /** A line adds only parse errors; one that does not start with a
      symbol is `MissingInstruction` at that token, except at `End`. */
  lemma ParsedLineErrors(text: string, tokens: seq<Token>, pos: nat)
    requires SymbolsInBounds(tokens, |text|)
    ensures var r := ParsedLine(text, tokens, pos);
      && ParseErrorsOnly(r.errors)
      && (pos < |tokens| && tokens[pos].tokenType != Symbol && tokens[pos].tokenType != End ==>
           r == Parsed(None, pos + 1, [ErrorAt(MissingInstruction, tokens[pos])]))
      && (pos < |tokens| && tokens[pos].tokenType == End ==> r == Parsed(None, pos + 1, []))
  {
    if pos >= |tokens| {
    } else if tokens[pos].tokenType != Symbol {
      assert ParsedLine(text, tokens, pos).errors == if tokens[pos].tokenType == End then [] else [ErrorAt(MissingInstruction, tokens[pos])];
    } else if pos + 1 >= |tokens| {
    } else if tokens[pos + 1].tokenType == Colon {
      ParsedLabelledSound(text, tokens, pos + 2, tokens[pos]);
    } else {
      ParsedCommandSound(text, tokens, pos + 1, None, tokens[pos]);
    }
  }

  /** What `parse_token` returns and what it adds to the context. */
  datatype ParseOutput = ParseOutput(commands: seq<CommandBuilder>, errors: seq<ParseErrorBuilder>)

  /** The loop of `parse_token` from position `pos`, with what it has
      collected so far: it stops on `End` or when the tokens run out. */
  function ParsedFrom(text: string, tokens: seq<Token>, pos: nat, done: ParseOutput): (r: ParseOutput)
    requires SymbolsInBounds(tokens, |text|) && pos <= |tokens|
    ensures done.commands <= r.commands && done.errors <= r.errors
    ensures |r.commands| <= |done.commands| + (|tokens| - pos)
    decreases |tokens| - pos
  {
    if pos == |tokens| || tokens[pos].tokenType == End then done
    else
      var p := SkipBlank(tokens, pos);
      var line := ParsedLine(text, tokens, p);
      match line.value
      case Some(command) =>
        var next := LineBoundary(tokens, line.pos);
        ParsedFrom(text, tokens, next, ParseOutput(
          done.commands + [command],
          done.errors + line.errors + TrailingErrors(tokens, line.pos)))
      case None =>
        var next := SkipBlank(tokens, LineBoundary(tokens, line.pos));
        ParsedFrom(text, tokens, next, ParseOutput(done.commands, done.errors + line.errors))
  }

  /** One turn of the loop: the first line from `pos`, then the rest.  A
      proof helper that unfolds the loop once for the worked examples. */
  lemma ParsedFromStep(text: string, tokens: seq<Token>, pos: nat, done: ParseOutput)
    requires SymbolsInBounds(tokens, |text|) && pos < |tokens| && tokens[pos].tokenType != End
    ensures var line := ParsedLine(text, tokens, SkipBlank(tokens, pos));
      ParsedFrom(text, tokens, pos, done) ==
        if line.value.Some? then
          ParsedFrom(text, tokens, LineBoundary(tokens, line.pos), ParseOutput(
            done.commands + [line.value.value],
            done.errors + line.errors + TrailingErrors(tokens, line.pos)))
        else
          ParsedFrom(text, tokens, SkipBlank(tokens, LineBoundary(tokens, line.pos)),
            ParseOutput(done.commands, done.errors + line.errors))
  {
  }

  /** Errors recorded before the loop starts stay in front of the ones it
      adds. */
  lemma {:induction false} ParsedFromAccumulates(text: string, tokens: seq<Token>, pos: nat, done: ParseOutput, earlier: seq<ParseErrorBuilder>)
    requires SymbolsInBounds(tokens, |text|) && pos <= |tokens|
    ensures var r := ParsedFrom(text, tokens, pos, done);
      ParsedFrom(text, tokens, pos, ParseOutput(done.commands, earlier + done.errors)) == ParseOutput(r.commands, earlier + r.errors)
    decreases |tokens| - pos
  {
    if pos < |tokens| && tokens[pos].tokenType != End {
      var line := ParsedLine(text, tokens, SkipBlank(tokens, pos));
      if line.value.Some? {
        var trailing := TrailingErrors(tokens, line.pos);
        AppendAssociates(earlier, done.errors, line.errors);
        AppendAssociates(earlier, done.errors + line.errors, trailing);
        ParsedFromAccumulates(text, tokens, LineBoundary(tokens, line.pos), ParseOutput(
          done.commands + [line.value.value], done.errors + line.errors + trailing), earlier);
      } else {
        AppendAssociates(earlier, done.errors, line.errors);
        ParsedFromAccumulates(text, tokens, SkipBlank(tokens, LineBoundary(tokens, line.pos)),
          ParseOutput(done.commands, done.errors + line.errors), earlier);
      }
    }
  }

  /** Concatenation is associative. */
  lemma AppendAssociates<T>(a: seq<T>, b: seq<T>, c: seq<T>)
    ensures a + b + c == a + (b + c)
  {
  }

  /** `parse_token`: at most one command builder per token, each well
      formed, and only the parser's own kinds of error. */
  function Parse(text: string, tokens: seq<Token>): (r: ParseOutput)
    requires SymbolsInBounds(tokens, |text|)
    ensures |r.commands| <= |tokens|
    ensures AllWellFormed(text, tokens, r.commands)
    ensures ParseErrorsOnly(r.errors)
  {
    ParsedFromWellFormed(text, tokens, 0, ParseOutput([], []));
    ParsedFromErrorKinds(text, tokens, 0, ParseOutput([], []));
    ParsedFrom(text, tokens, 0, ParseOutput([], []))
  }

  /** All the builders in a list are well formed. */
  predicate AllWellFormed(text: string, tokens: seq<Token>, commands: seq<CommandBuilder>) {
    forall k :: 0 <= k < |commands| ==> WellFormed(text, tokens, commands[k])
  }

  /** Every command builder the parser emits is well formed. */
  lemma {:induction false} ParsedFromWellFormed(text: string, tokens: seq<Token>, pos: nat, done: ParseOutput)
    requires SymbolsInBounds(tokens, |text|) && pos <= |tokens|
    requires AllWellFormed(text, tokens, done.commands)
    ensures AllWellFormed(text, tokens, ParsedFrom(text, tokens, pos, done).commands)
    decreases |tokens| - pos
  {
    if pos < |tokens| && tokens[pos].tokenType != End {
      var p := SkipBlank(tokens, pos);
      var line := ParsedLine(text, tokens, p);
      ParsedLineBuilds(text, tokens, p);
      if line.value.Some? {
        var next := ParseOutput(done.commands + [line.value.value],
          done.errors + line.errors + TrailingErrors(tokens, line.pos));
        assert AllWellFormed(text, tokens, next.commands);
        ParsedFromWellFormed(text, tokens, LineBoundary(tokens, line.pos), next);
      } else {
        ParsedFromWellFormed(text, tokens, SkipBlank(tokens, LineBoundary(tokens, line.pos)),
          ParseOutput(done.commands, done.errors + line.errors));
      }
    }
  }

  /** The parser raises only its own kinds of error: never a label or
      "not allowed" error, which are the resolver's. */
  lemma {:induction false} ParsedFromErrorKinds(text: string, tokens: seq<Token>, pos: nat, done: ParseOutput)
    requires SymbolsInBounds(tokens, |text|) && pos <= |tokens|
    requires ParseErrorsOnly(done.errors)
    ensures ParseErrorsOnly(ParsedFrom(text, tokens, pos, done).errors)
    decreases |tokens| - pos
  {
    if pos < |tokens| && tokens[pos].tokenType != End {
      var p := SkipBlank(tokens, pos);
      var line := ParsedLine(text, tokens, p);
      ParsedLineErrors(text, tokens, p);
      if line.value.Some? {
        var trailing := TrailingErrors(tokens, line.pos);
        assert ParseErrorsOnly(done.errors + line.errors + trailing);
        ParsedFromErrorKinds(text, tokens, LineBoundary(tokens, line.pos), ParseOutput(
          done.commands + [line.value.value], done.errors + line.errors + trailing));
      } else {
        assert ParseErrorsOnly(done.errors + line.errors);
        ParsedFromErrorKinds(text, tokens, SkipBlank(tokens, LineBoundary(tokens, line.pos)),
          ParseOutput(done.commands, done.errors + line.errors));
      }
    }
  }

  /** Token starts strictly increase, as the lexer emits them. */
  predicate Ascending(tokens: seq<Token>) {
    forall k, m :: 0 <= k < m < |tokens| ==> tokens[k].start < tokens[m].start
  }

  /** The mnemonics of the builders start in strictly increasing order, all
      before `bound`. */
  predicate InOrderBefore(commands: seq<CommandBuilder>, bound: nat) {
    && (forall k, m :: 0 <= k < m < |commands| ==> commands[k].instruction.start < commands[m].instruction.start)
    && (forall k :: 0 <= k < |commands| ==> commands[k].instruction.start < bound)
  }

  /** The start of the token at `pos`, or past every start at the end. */
  function StartAt(tokens: seq<Token>, pos: nat): nat {
    if pos < |tokens| then tokens[pos].start else MaxStart(tokens) + 1
  }

  /** The largest token start, or 0 for no tokens. */
  function MaxStart(tokens: seq<Token>): (m: nat)
    ensures forall k :: 0 <= k < |tokens| ==> tokens[k].start <= m
  {
    if tokens == [] then 0
    else
      var rest := MaxStart(tokens[1..]);
      assert forall k :: 1 <= k < |tokens| ==> tokens[k] == tokens[1..][k - 1];
      if tokens[0].start > rest then tokens[0].start else rest
  }

  /** Starts grow with the position in ascending tokens. */
  lemma StartAtAscends(tokens: seq<Token>, a: nat, b: nat)
    requires Ascending(tokens) && a <= b <= |tokens|
    ensures StartAt(tokens, a) <= StartAt(tokens, b)
    ensures a < b ==> StartAt(tokens, a) < StartAt(tokens, b)
  {
  }

  /** A builder whose mnemonic starts at or after the bound keeps the
      order when appended. */
  lemma InOrderAppend(commands: seq<CommandBuilder>, c: CommandBuilder, bound: nat, newBound: nat)
    requires InOrderBefore(commands, bound) && bound <= c.instruction.start < newBound
    ensures InOrderBefore(commands + [c], newBound)
  {
  }

  /** Commands come out in source order: their mnemonics' offsets strictly
      increase. */
  lemma {:induction false} ParsedFromInOrder(text: string, tokens: seq<Token>, pos: nat, done: ParseOutput)
    requires SymbolsInBounds(tokens, |text|) && pos <= |tokens| && Ascending(tokens)
    requires InOrderBefore(done.commands, StartAt(tokens, pos))
    ensures InOrderBefore(ParsedFrom(text, tokens, pos, done).commands, StartAt(tokens, |tokens|))
    decreases |tokens| - pos
  {
    if pos < |tokens| && tokens[pos].tokenType != End {
      var p := SkipBlank(tokens, pos);
      var line := ParsedLine(text, tokens, p);
      ParsedLineBuilds(text, tokens, p);
      if line.value.Some? {
        var j := InstructionIndex(tokens, p);
        var next := LineBoundary(tokens, line.pos);
        StartAtAscends(tokens, pos, j);
        StartAtAscends(tokens, j, next);
        InOrderAppend(done.commands, line.value.value, StartAt(tokens, pos), StartAt(tokens, next));
        ParsedFromInOrder(text, tokens, next, ParseOutput(
          done.commands + [line.value.value], done.errors + line.errors + TrailingErrors(tokens, line.pos)));
      } else {
        var next := SkipBlank(tokens, LineBoundary(tokens, line.pos));
        StartAtAscends(tokens, pos, next);
        ParsedFromInOrder(text, tokens, next, ParseOutput(done.commands, done.errors + line.errors));
      }
    } else {
      StartAtAscends(tokens, pos, |tokens|);
    }
  }

  /** Builders come out in source order: on ascending tokens, as the
      lexer emits them, their mnemonics' offsets strictly increase. */
  lemma ParseInOrder(text: string, tokens: seq<Token>)
    requires SymbolsInBounds(tokens, |text|) && Ascending(tokens)
    ensures InOrderBefore(Parse(text, tokens).commands, StartAt(tokens, |tokens|))
  {
    ParsedFromInOrder(text, tokens, 0, ParseOutput([], []));
  }

  /** `ParseContext`: the source text and the error list every function
      adds to. */
  datatype ParseContext = ParseContext(text: string, errors: ParseErrorReportBuilder)

  /** The cursor over `tokens.iter().peekable()`: the index of the next
      token. */
  class TokenCursor {
    const tokens: seq<Token>
    var pos: nat

    constructor (tokens: seq<Token>)
      ensures this.tokens == tokens && pos == 0
    {
      this.tokens := tokens;
      pos := 0;
    }

    /** `peek`. */
    function Peek(): (t: Option<Token>)
      reads this
      ensures t.Some? <==> pos < |tokens|
      ensures t.Some? ==> t.value == tokens[pos]
    {
      if pos < |tokens| then Some(tokens[pos]) else None
    }

    /** `next`: the token under the cursor, which moves past it. */
    method Next() returns (t: Option<Token>)
      modifies this
      ensures t == old(Peek())
      ensures pos == if old(pos) < |tokens| then old(pos) + 1 else old(pos)
    {
      t := Peek();
      if pos < |tokens| {
        pos := pos + 1;
      }
    }
  }

  /** `skip_empty_lines`. */
  method SkipEmptyLines(cursor: TokenCursor)
    requires cursor.pos <= |cursor.tokens|
    modifies cursor
    ensures cursor.pos == SkipBlank(cursor.tokens, old(cursor.pos))
  {
    while cursor.Peek().Some? && cursor.Peek().value.tokenType == NewLine
      invariant old(cursor.pos) <= cursor.pos <= |cursor.tokens|
      invariant SkipBlank(cursor.tokens, cursor.pos) == SkipBlank(cursor.tokens, old(cursor.pos))
      decreases |cursor.tokens| - cursor.pos
    {
      var _ := cursor.Next();
    }
  }

  /** `recover_to_next_line`. */
  method RecoverToNextLine(cursor: TokenCursor)
    requires cursor.pos <= |cursor.tokens|
    modifies cursor
    ensures cursor.pos == LineBoundary(cursor.tokens, old(cursor.pos))
  {
    while cursor.Peek().Some? && !EndsLine(cursor.Peek().value)
      invariant old(cursor.pos) <= cursor.pos <= |cursor.tokens|
      invariant LineBoundary(cursor.tokens, cursor.pos) == LineBoundary(cursor.tokens, old(cursor.pos))
      decreases |cursor.tokens| - cursor.pos
    {
      var _ := cursor.Next();
    }
  }

  /** `finish_line`: every token left on the line is an `InvalidToken`. */
  method FinishLine(cursor: TokenCursor, context: ParseContext)
    requires cursor.pos <= |cursor.tokens|
    modifies cursor, context.errors
    ensures cursor.pos == LineBoundary(cursor.tokens, old(cursor.pos))
    ensures context.errors.errors == old(context.errors.errors) + TrailingErrors(cursor.tokens, old(cursor.pos))
  {
    while cursor.Peek().Some?
      invariant old(cursor.pos) <= cursor.pos <= |cursor.tokens|
      invariant LineBoundary(cursor.tokens, cursor.pos) == LineBoundary(cursor.tokens, old(cursor.pos))
      invariant old(context.errors.errors) + TrailingErrors(cursor.tokens, old(cursor.pos))
        == context.errors.errors + TrailingErrors(cursor.tokens, cursor.pos)
      decreases |cursor.tokens| - cursor.pos
    {
      var next := cursor.Peek().value;
      if next.tokenType == NewLine || next.tokenType == End {
        break;
      }
      AppendAssociates(context.errors.errors, [ErrorAt(InvalidToken, next)], TrailingErrors(cursor.tokens, cursor.pos + 1));
      context.errors.Add(NewError(InvalidToken, next.start, next.end));
      var _ := cursor.Next();
    }
  }

  /** `parse_operant_fixed`. */
  method ParseOperantFixed(cursor: TokenCursor, context: ParseContext) returns (operant: Option<Operant>)
    modifies cursor, context.errors
    ensures var r := ParsedFixed(cursor.tokens, old(cursor.pos));
      operant == r.value && cursor.pos == r.pos && context.errors.errors == old(context.errors.errors) + r.errors
  {
    var first := cursor.Next();
    if first.None? {
      return None;
    }
    var token := first.value;
    if EnsureType(token, Number).None? {
      context.errors.Add(NewError(InvalidOperant, token.start, token.end));
      return None;
    }
    return Some(Operant(Fixed, token));
  }

  /** `parse_operant_address`. */
  method ParseOperantAddress(cursor: TokenCursor, context: ParseContext) returns (operant: Option<Operant>)
    modifies cursor, context.errors
    ensures var r := ParsedAddress(cursor.tokens, old(cursor.pos));
      operant == r.value && cursor.pos == r.pos && context.errors.errors == old(context.errors.errors) + r.errors
  {
    var first := cursor.Next();
    if first.None? {
      return None;
    }
    var token := first.value;
    if EnsureType(token, Number).None? {
      context.errors.Add(NewError(InvalidOperant, token.start, token.end));
      return None;
    }
    var second := cursor.Next();
    if second.None? {
      return None;
    }
    if EnsureType(second.value, ParenthesisClose).None? {
      context.errors.Add(NewError(MissingParenthesisClose, second.value.start, second.value.end));
      return None;
    }
    return Some(Operant(Address, token));
  }

  /** `parse_operant`. */
  method ParseOperant(cursor: TokenCursor, context: ParseContext, instruction: Token, attributes: InstructionAttribute)
    returns (operant: Option<Operant>)
    modifies cursor, context.errors
    ensures var r := ParsedOperant(cursor.tokens, old(cursor.pos), instruction, attributes);
      operant == r.value && cursor.pos == r.pos && context.errors.errors == old(context.errors.errors) + r.errors
  {
    var next := cursor.Next();
    if next.None? {
      context.errors.Add(NewError(MissingOperant, instruction.start, instruction.end));
      return None;
    }
    var first := next.value;
    match first.tokenType {
      case ParenthesisOpen =>
        if !attributes.AllowAddress() {
          context.errors.Add(NewError(InvalidOperant, first.start, first.end));
          return None;
        }
        operant := ParseOperantAddress(cursor, context);
      case Number =>
        if !attributes.AllowFixedNumber() {
          context.errors.Add(NewError(InvalidOperant, first.start, first.end));
          return None;
        }
        operant := Some(Operant(Fixed, first));
      case Symbol =>
        if !attributes.AllowLabel() {
          context.errors.Add(NewError(InvalidOperant, first.start, first.end));
          return None;
        }
        operant := Some(Operant(Label, first));
      case Hash =>
        if !attributes.AllowFixedNumber() {
          context.errors.Add(NewError(InvalidOperant, first.start, first.end));
          return None;
        }
        operant := ParseOperantFixed(cursor, context);
      case _ =>
        context.errors.Add(NewError(MissingOperant, first.start, first.end));
        return None;
    }
  }

  /** `parse_command`. */
  method ParseCommand(cursor: TokenCursor, context: ParseContext, labelToken: Option<Token>, instruction: Token)
    returns (command: Option<CommandBuilder>)
    requires InBounds(instruction, |context.text|)
    modifies cursor, context.errors
    ensures var r := ParsedCommand(context.text, cursor.tokens, old(cursor.pos), labelToken, instruction);
      command == r.value && cursor.pos == r.pos && context.errors.errors == old(context.errors.errors) + r.errors
  {
    var attribute := GetInstructionAttribute(Upper(Resolve(instruction, context.text)));
    if attribute.None? {
      context.errors.Add(NewError(InvalidInstruction, instruction.start, instruction.end));
      return None;
    }
    var attributes := attribute.value;
    if attributes.AllowNoOperant() {
      return Some(CommandBuilder(labelToken, instruction, None));
    }
    var operant := ParseOperant(cursor, context, instruction, attributes);
    if operant.None? {
      return None;
    }
    return Some(CommandBuilder(labelToken, instruction, operant));
  }

  /** `parse_line`. */
  method ParseLine(cursor: TokenCursor, context: ParseContext) returns (command: Option<CommandBuilder>)
    requires SymbolsInBounds(cursor.tokens, |context.text|)
    modifies cursor, context.errors
    ensures var r := ParsedLine(context.text, cursor.tokens, old(cursor.pos));
      command == r.value && cursor.pos == r.pos && context.errors.errors == old(context.errors.errors) + r.errors
  {
    ghost var errors := context.errors.errors;
    assert errors + [] == errors;
    var next := cursor.Next();
    if next.None? {
      return None;
    }
    var first := next.value;
    if EnsureType(first, Symbol).None? {
      if first.tokenType != End {
        context.errors.Add(NewError(MissingInstruction, first.start, first.end));
      }
      return None;
    }
    command := ParseAfterSymbol(cursor, context, first);
  }

  /** The rest of `parse_line` once its first token is a symbol. */
  method ParseAfterSymbol(cursor: TokenCursor, context: ParseContext, first: Token) returns (command: Option<CommandBuilder>)
    requires SymbolsInBounds(cursor.tokens, |context.text|) && InBounds(first, |context.text|)
    requires cursor.pos <= |cursor.tokens|
    modifies cursor, context.errors
    ensures var r := ParsedAfterSymbol(context.text, cursor.tokens, old(cursor.pos), first);
      command == r.value && cursor.pos == r.pos && context.errors.errors == old(context.errors.errors) + r.errors
  {
    ghost var errors := context.errors.errors;
    assert errors + [] == errors;
    var second := cursor.Peek();
    if second.None? {
      return None;
    }
    if second.value.tokenType == Colon {
      var _ := cursor.Next();
      command := ParseLabelled(cursor, context, first);
    } else {
      command := ParseCommand(cursor, context, None, first);
    }
  }

  /** The labelled branch of `parse_line`, from just past the colon. */
  method ParseLabelled(cursor: TokenCursor, context: ParseContext, labelToken: Token) returns (command: Option<CommandBuilder>)
    requires SymbolsInBounds(cursor.tokens, |context.text|) && cursor.pos <= |cursor.tokens|
    modifies cursor, context.errors
    ensures var r := ParsedLabelled(context.text, cursor.tokens, old(cursor.pos), labelToken);
      command == r.value && cursor.pos == r.pos && context.errors.errors == old(context.errors.errors) + r.errors
  {
    SkipEmptyLines(cursor);
    command := ParseLabelledMnemonic(cursor, context, labelToken);
  }

  /** The mnemonic that follows a label, once blank lines are skipped. */
  method ParseLabelledMnemonic(cursor: TokenCursor, context: ParseContext, labelToken: Token) returns (command: Option<CommandBuilder>)
    requires SymbolsInBounds(cursor.tokens, |context.text|) && cursor.pos <= |cursor.tokens|
    modifies cursor, context.errors
    ensures var r := ParsedLabelledMnemonic(context.text, cursor.tokens, old(cursor.pos), labelToken);
      command == r.value && cursor.pos == r.pos && context.errors.errors == old(context.errors.errors) + r.errors
  {
    ghost var errors := context.errors.errors;
    assert errors + [] == errors;
    var afterLabel := cursor.Next();
    if afterLabel.None? {
      return None;
    }
    var third := afterLabel.value;
    if EnsureType(third, Symbol).None? {
      context.errors.Add(NewError(MissingInstruction, third.start, third.end));
      return None;
    }
    command := ParseCommand(cursor, context, Some(labelToken), third);
  }

  /** `parse_token`: the command builders of the tokens, in order; the
      errors are added to the context. */
  method ParseToken(tokens: seq<Token>, context: ParseContext) returns (commands: seq<CommandBuilder>)
    requires SymbolsInBounds(tokens, |context.text|)
    modifies context.errors
    ensures commands == Parse(context.text, tokens).commands
    ensures context.errors.errors == old(context.errors.errors) + Parse(context.text, tokens).errors
  {
    commands := [];
    var cursor := new TokenCursor(tokens);

    while cursor.Peek().Some?
      invariant cursor.tokens == tokens && cursor.pos <= |tokens|
      invariant ParsedFrom(context.text, tokens, cursor.pos, ParseOutput(commands, context.errors.errors))
        == ParsedFrom(context.text, tokens, 0, ParseOutput([], old(context.errors.errors)))
      decreases |tokens| - cursor.pos
    {
      if cursor.Peek().value.tokenType == End {
        break;
      }
      ghost var start := cursor.pos;
      ghost var done := ParseOutput(commands, context.errors.errors);
      SkipEmptyLines(cursor);
      var command := ParseLine(cursor, context);
      if command.Some? {
        commands := commands + [command.value];
        FinishLine(cursor, context);
      } else {
        RecoverToNextLine(cursor);
        SkipEmptyLines(cursor);
      }
      ParsedFromStep(context.text, tokens, start, done);
    }
    assert ParsedFrom(context.text, tokens, cursor.pos, ParseOutput(commands, context.errors.errors))
      == ParseOutput(commands, context.errors.errors);
    assert old(context.errors.errors) + [] == old(context.errors.errors);
    ParsedFromAccumulates(context.text, tokens, 0, ParseOutput([], []), old(context.errors.errors));
  }
}
