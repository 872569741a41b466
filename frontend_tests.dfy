/** The compile tests of src/frontend/test.rs that agree with the model:
    the empty program, a single `ADD #1`, and two instructions on one
    line, which must not compile; and a missing operand at the end of a
    line, whose recovery loses the next line.  Each pass is checked on its own, with
    the program passed as a parameter equal to the test text. */
module FrontendTests {
  import opened Base
  import opened Tokens
  import opened Lines
  import opened Errors
  import opened Commands
  import opened Operants
  import opened Lexer
  import opened Parser
  import opened Resolver
  import opened Frontend

  /** `test_empty_line_compile`: the empty program compiles to nothing. */
  lemma CompileEmptyProgram(text: string)
    requires text == ""
    ensures CompileSpec(text) == Compiled([])
  {
    assert Lex(text) == Lexed([Token(End, 0, 1)], [LineInfo(0, 0)]);
    assert ParsedProgram(text) == ParseOutput([], []);
  }

  /** The tokens of `ADD #1`: the number at the end of the text spans its
      first digit only. */
  function SingleLineTokens(): seq<Token> {
    [Token(Symbol, 0, 3), Token(Hash, 4, 5), Token(Number, 5, 6), Token(End, 6, 7)]
  }

  /** The builder the parser makes of `ADD #1`. */
  function SingleLineBuilder(): CommandBuilder {
    CommandBuilder(None, Token(Symbol, 0, 3), Some(Operant(Fixed, Token(Number, 5, 6))))
  }

  /** Four iterations of the lexer's loop: the symbol, a space, `#` and the
      number, so the one line ends at the count 4. */
  lemma LexSingleLine(text: string)
    requires text == "ADD #1"
    ensures Lex(text) == Lexed(SingleLineTokens(), [LineInfo(0, 4)])
  {
    var st0 := LexState(0, 0, 0, [], []);
    assert SymbolRunEnd(text, 3) == 3;
    assert SymbolRunEnd(text, 1) == 3;
    var st1 := ScanChar(text, st0);
    assert st1 == LexState(3, 0, 1, [Token(Symbol, 0, 3)], []);
    var st2 := ScanChar(text, st1);
    assert st2 == LexState(4, 0, 2, [Token(Symbol, 0, 3)], []);
    var st3 := ScanChar(text, st2);
    assert st3 == LexState(5, 0, 3, [Token(Symbol, 0, 3), Token(Hash, 4, 5)], []);
    assert DigitRunEnd(text, 6) == 6;
    var st4 := ScanChar(text, st3);
    assert st4 == LexState(6, 0, 4, SingleLineTokens()[..3], []);
    assert ScanFrom(text, st3) == ScanFrom(text, st4) == st4;
    assert ScanFrom(text, st1) == ScanFrom(text, st2) == ScanFrom(text, st3);
    assert ScanFrom(text, st0) == ScanFrom(text, st1);
  }

  /** The parser reads `ADD #1` as one command with an immediate operand
      and reports nothing. */
  lemma ParseSingleLine(text: string, tokens: seq<Token>)
    requires text == "ADD #1" && tokens == SingleLineTokens()
    ensures SymbolsInBounds(tokens, |text|)
    ensures Parse(text, tokens) == ParseOutput([SingleLineBuilder()], [])
  {
    assert Resolve(tokens[0], text) == "ADD";
    ParseAddLine(text, tokens);
  }

  /** The loop over `ADD #1` and `End`. */
  lemma ParseAddLine(text: string, tokens: seq<Token>)
    requires |tokens| == 4 && SymbolsInBounds(tokens, |text|)
    requires tokens[0] == Token(Symbol, 0, 3) && tokens[1] == Token(Hash, 4, 5) && tokens[2] == Token(Number, 5, 6) && tokens[3] == Token(End, 6, 7)
    requires MnemonicOf(text, tokens[0]) == "ADD"
    ensures ParsedFrom(text, tokens, 0, ParseOutput([], [])) == ParseOutput([SingleLineBuilder()], [])
  {
    AttributesADD();
    assert SkipBlank(tokens, 0) == 0;
    assert ParsedLine(text, tokens, 0) == Parsed(Some(SingleLineBuilder()), 3, []);
    assert LineBoundary(tokens, 3) == 3;
    assert TrailingErrors(tokens, 3) == [];
    ParsedFromStep(text, tokens, 0, ParseOutput([], []));
  }

  /** The operand `1` reads as 1, and `ADD` with an immediate operand is
      `AddFix`. */
  lemma TranslateSingleLine(text: string, b: CommandBuilder, lines: seq<LineInfo>)
    requires text == "ADD #1" && b == SingleLineBuilder() && lines == [LineInfo(0, 4)]
    ensures BuilderInBounds(text, b)
    ensures Translated(text, b, map[], lines) == Ok(Command(AddFix, 1, 0))
  {
    assert Resolve(Token(Number, 5, 6), text) == "1";
    assert DecimalValue("1") == 1;
    assert ParseUsize("1") == Some(1);
    assert ResolveOperant(text, b.operant.value, map[]) == Ok(1);
    assert Upper(Resolve(Token(Symbol, 0, 3), text)) == "ADD";
    assert LineIndexOf(lines, 0) == 0;
  }

  /** The resolver turns the builder into `AddFix 1` on line 0. */
  lemma ResolveSingleLine(text: string, builders: seq<CommandBuilder>, lines: seq<LineInfo>)
    requires text == "ADD #1" && builders == [SingleLineBuilder()] && lines == [LineInfo(0, 4)]
    ensures AllInBounds(text, builders)
    ensures Resolved(text, builders, lines) == Resolution([Command(AddFix, 1, 0)], [])
  {
    TranslateSingleLine(text, builders[0], lines);
    assert LabelPass(text, builders, 1) == LabelPassOutput(map[], []);
    var results := TranslateAll(text, builders, map[], lines);
    assert results == [Ok(Command(AddFix, 1, 0))];
    assert Collect(results, 1) == Resolution([Command(AddFix, 1, 0)], []);
  }

  /** `test_compile_single_line`: `ADD #1` compiles to `AddFix 1` on
      line 0. */
  lemma CompileSingleLine(text: string)
    requires text == "ADD #1"
    ensures CompileSpec(text) == Compiled([Command(AddFix, 1, 0)])
  {
    LexSingleLine(text);
    ParseSingleLine(text, SingleLineTokens());
    ResolveSingleLine(text, [SingleLineBuilder()], [LineInfo(0, 4)]);
  }

  /** The test text of `test_compile_invalid_multi_line_code`. */
  function TwoOnOneLine(): string {
    "\nADD #2 ADD #3\n"
  }

  /** Its tokens: a line feed, two `ADD #n` instructions, a line feed and
      the closing `End`. */
  function TwoOnOneLineTokens(): seq<Token> {
    [Token(NewLine, 0, 1),
     Token(Symbol, 1, 4), Token(Hash, 5, 6), Token(Number, 6, 7),
     Token(Symbol, 8, 11), Token(Hash, 12, 13), Token(Number, 13, 14),
     Token(NewLine, 14, 15),
     Token(End, 15, 16)]
  }

  /** Its line table: the empty line before the first line feed, the line
      up to the second, and the last line closed at the iteration count 11. */
  function TwoOnOneLineLines(): seq<LineInfo> {
    [LineInfo(0, 0), LineInfo(0, 14), LineInfo(14, 11)]
  }

  /** The lexer's state after each iteration of its loop over the test
      text: `TwoOnOneLineStateK` is the state after K iterations. */
  function TwoOnOneLineState0(): LexState { LexState(0, 0, 0, [], []) }
  function TwoOnOneLineState1(): LexState { LexState(1, 0, 1, TwoOnOneLineTokens()[..1], TwoOnOneLineLines()[..1]) }
  function TwoOnOneLineState2(): LexState { LexState(4, 0, 2, TwoOnOneLineTokens()[..2], TwoOnOneLineLines()[..1]) }
  function TwoOnOneLineState3(): LexState { LexState(5, 0, 3, TwoOnOneLineTokens()[..2], TwoOnOneLineLines()[..1]) }
  function TwoOnOneLineState4(): LexState { LexState(6, 0, 4, TwoOnOneLineTokens()[..3], TwoOnOneLineLines()[..1]) }
  function TwoOnOneLineState5(): LexState { LexState(7, 0, 5, TwoOnOneLineTokens()[..4], TwoOnOneLineLines()[..1]) }
  function TwoOnOneLineState6(): LexState { LexState(8, 0, 6, TwoOnOneLineTokens()[..4], TwoOnOneLineLines()[..1]) }
  function TwoOnOneLineState7(): LexState { LexState(11, 0, 7, TwoOnOneLineTokens()[..5], TwoOnOneLineLines()[..1]) }
  function TwoOnOneLineState8(): LexState { LexState(12, 0, 8, TwoOnOneLineTokens()[..5], TwoOnOneLineLines()[..1]) }
  function TwoOnOneLineState9(): LexState { LexState(13, 0, 9, TwoOnOneLineTokens()[..6], TwoOnOneLineLines()[..1]) }
  function TwoOnOneLineState10(): LexState { LexState(14, 0, 10, TwoOnOneLineTokens()[..7], TwoOnOneLineLines()[..1]) }
  function TwoOnOneLineState11(): LexState { LexState(15, 14, 11, TwoOnOneLineTokens()[..8], TwoOnOneLineLines()[..2]) }

  /** One iteration of the lexer's loop over the test text. */
  lemma StepTwoOnOneLine0(text: string)
    requires text == TwoOnOneLine()
    ensures TwoOnOneLineState0().pos < |text| && ScanChar(text, TwoOnOneLineState0()) == TwoOnOneLineState1()
  {
  }
  lemma StepTwoOnOneLine1(text: string)
    requires text == TwoOnOneLine()
    ensures TwoOnOneLineState1().pos < |text| && ScanChar(text, TwoOnOneLineState1()) == TwoOnOneLineState2()
  {
    assert SymbolRunEnd(text, 4) == 4;
    assert SymbolRunEnd(text, 3) == 4;
    assert SymbolRunEnd(text, 2) == 4;
  }
  lemma StepTwoOnOneLine2(text: string)
    requires text == TwoOnOneLine()
    ensures TwoOnOneLineState2().pos < |text| && ScanChar(text, TwoOnOneLineState2()) == TwoOnOneLineState3()
  {
  }
  lemma StepTwoOnOneLine3(text: string)
    requires text == TwoOnOneLine()
    ensures TwoOnOneLineState3().pos < |text| && ScanChar(text, TwoOnOneLineState3()) == TwoOnOneLineState4()
  {
  }
  lemma StepTwoOnOneLine4(text: string)
    requires text == TwoOnOneLine()
    ensures TwoOnOneLineState4().pos < |text| && ScanChar(text, TwoOnOneLineState4()) == TwoOnOneLineState5()
  {
    assert DigitRunEnd(text, 7) == 7;
  }
  lemma StepTwoOnOneLine5(text: string)
    requires text == TwoOnOneLine()
    ensures TwoOnOneLineState5().pos < |text| && ScanChar(text, TwoOnOneLineState5()) == TwoOnOneLineState6()
  {
  }
  lemma StepTwoOnOneLine6(text: string)
    requires text == TwoOnOneLine()
    ensures TwoOnOneLineState6().pos < |text| && ScanChar(text, TwoOnOneLineState6()) == TwoOnOneLineState7()
  {
    assert SymbolRunEnd(text, 11) == 11;
    assert SymbolRunEnd(text, 10) == 11;
    assert SymbolRunEnd(text, 9) == 11;
  }
  lemma StepTwoOnOneLine7(text: string)
    requires text == TwoOnOneLine()
    ensures TwoOnOneLineState7().pos < |text| && ScanChar(text, TwoOnOneLineState7()) == TwoOnOneLineState8()
  {
  }
  lemma StepTwoOnOneLine8(text: string)
    requires text == TwoOnOneLine()
    ensures TwoOnOneLineState8().pos < |text| && ScanChar(text, TwoOnOneLineState8()) == TwoOnOneLineState9()
  {
  }
  lemma StepTwoOnOneLine9(text: string)
    requires text == TwoOnOneLine()
    ensures TwoOnOneLineState9().pos < |text| && ScanChar(text, TwoOnOneLineState9()) == TwoOnOneLineState10()
  {
    assert DigitRunEnd(text, 14) == 14;
  }
  lemma StepTwoOnOneLine10(text: string)
    requires text == TwoOnOneLine()
    ensures TwoOnOneLineState10().pos < |text| && ScanChar(text, TwoOnOneLineState10()) == TwoOnOneLineState11()
  {
  }

  /** The rest of the lexer's loop from each state. */
  lemma ScanTwoOnOneLine11(text: string)
    requires text == TwoOnOneLine()
    ensures ScanFrom(text, TwoOnOneLineState11()) == TwoOnOneLineState11()
  {
  }
  lemma ScanTwoOnOneLine10(text: string)
    requires text == TwoOnOneLine()
    ensures ScanFrom(text, TwoOnOneLineState10()) == TwoOnOneLineState11()
  {
    StepTwoOnOneLine10(text);
    ScanTwoOnOneLine11(text);
  }
  lemma ScanTwoOnOneLine9(text: string)
    requires text == TwoOnOneLine()
    ensures ScanFrom(text, TwoOnOneLineState9()) == TwoOnOneLineState11()
  {
    StepTwoOnOneLine9(text);
    ScanTwoOnOneLine10(text);
  }
  lemma ScanTwoOnOneLine8(text: string)
    requires text == TwoOnOneLine()
    ensures ScanFrom(text, TwoOnOneLineState8()) == TwoOnOneLineState11()
  {
    StepTwoOnOneLine8(text);
    ScanTwoOnOneLine9(text);
  }
  lemma ScanTwoOnOneLine7(text: string)
    requires text == TwoOnOneLine()
    ensures ScanFrom(text, TwoOnOneLineState7()) == TwoOnOneLineState11()
  {
    StepTwoOnOneLine7(text);
    ScanTwoOnOneLine8(text);
  }
  lemma ScanTwoOnOneLine6(text: string)
    requires text == TwoOnOneLine()
    ensures ScanFrom(text, TwoOnOneLineState6()) == TwoOnOneLineState11()
  {
    StepTwoOnOneLine6(text);
    ScanTwoOnOneLine7(text);
  }
  lemma ScanTwoOnOneLine5(text: string)
    requires text == TwoOnOneLine()
    ensures ScanFrom(text, TwoOnOneLineState5()) == TwoOnOneLineState11()
  {
    StepTwoOnOneLine5(text);
    ScanTwoOnOneLine6(text);
  }
  lemma ScanTwoOnOneLine4(text: string)
    requires text == TwoOnOneLine()
    ensures ScanFrom(text, TwoOnOneLineState4()) == TwoOnOneLineState11()
  {
    StepTwoOnOneLine4(text);
    ScanTwoOnOneLine5(text);
  }
  lemma ScanTwoOnOneLine3(text: string)
    requires text == TwoOnOneLine()
    ensures ScanFrom(text, TwoOnOneLineState3()) == TwoOnOneLineState11()
  {
    StepTwoOnOneLine3(text);
    ScanTwoOnOneLine4(text);
  }
  lemma ScanTwoOnOneLine2(text: string)
    requires text == TwoOnOneLine()
    ensures ScanFrom(text, TwoOnOneLineState2()) == TwoOnOneLineState11()
  {
    StepTwoOnOneLine2(text);
    ScanTwoOnOneLine3(text);
  }
  lemma ScanTwoOnOneLine1(text: string)
    requires text == TwoOnOneLine()
    ensures ScanFrom(text, TwoOnOneLineState1()) == TwoOnOneLineState11()
  {
    StepTwoOnOneLine1(text);
    ScanTwoOnOneLine2(text);
  }
  lemma ScanTwoOnOneLine0(text: string)
    requires text == TwoOnOneLine()
    ensures ScanFrom(text, TwoOnOneLineState0()) == TwoOnOneLineState11()
  {
    StepTwoOnOneLine0(text);
    ScanTwoOnOneLine1(text);
  }

  /** The lexer's output on the test text. */
  lemma LexTwoOnOneLine(text: string)
    requires text == TwoOnOneLine()
    ensures Lex(text) == Lexed(TwoOnOneLineTokens(), TwoOnOneLineLines())
  {
    ScanTwoOnOneLine0(text);
    assert TwoOnOneLineState11().tokens + [NewSingle(End, 15)] == TwoOnOneLineTokens();
    assert TwoOnOneLineState11().lines + [LineInfo(14, 11)] == TwoOnOneLineLines();
  }

  /** The first instruction of the line. */
  function FirstOfTwoBuilder(): CommandBuilder {
    CommandBuilder(None, Token(Symbol, 1, 4), Some(Operant(Fixed, Token(Number, 6, 7))))
  }

  /** The tokens of the second instruction, left over on the line. */
  function LeftOverErrors(): seq<ParseErrorBuilder> {
    [ParseErrorBuilder(InvalidToken, 8, 11), ParseErrorBuilder(InvalidToken, 12, 13), ParseErrorBuilder(InvalidToken, 13, 14)]
  }

  /** The parser takes the first instruction and reports each token of the
      second as invalid. */
  lemma ParseTwoOnOneLine(text: string, tokens: seq<Token>)
    requires text == TwoOnOneLine() && tokens == TwoOnOneLineTokens()
    ensures SymbolsInBounds(tokens, |text|)
    ensures Parse(text, tokens) == ParseOutput([FirstOfTwoBuilder()], LeftOverErrors())
  {
    assert SymbolsInBounds(tokens, |text|);
    assert Resolve(tokens[1], text) == "ADD";
    ParseTwoLines(text, tokens);
  }

  /** The loop over the two lines of the test. */
  lemma ParseTwoLines(text: string, tokens: seq<Token>)
    requires |tokens| == 9 && SymbolsInBounds(tokens, |text|)
    requires tokens[0] == Token(NewLine, 0, 1) && tokens[1] == Token(Symbol, 1, 4) && tokens[2] == Token(Hash, 5, 6) && tokens[3] == Token(Number, 6, 7)
    requires tokens[4] == Token(Symbol, 8, 11) && tokens[5] == Token(Hash, 12, 13) && tokens[6] == Token(Number, 13, 14) && tokens[7] == Token(NewLine, 14, 15)
    requires tokens[8] == Token(End, 15, 16)
    requires MnemonicOf(text, tokens[1]) == "ADD"
    ensures ParsedFrom(text, tokens, 0, ParseOutput([], [])) == ParseOutput([FirstOfTwoBuilder()], LeftOverErrors())
  {
    ParseFirstOfTwo(text, tokens, ParseOutput([], []));
    assert [] + [FirstOfTwoBuilder()] == [FirstOfTwoBuilder()] && [] + LeftOverErrors() == LeftOverErrors();
    ParseRestOfTwo(text, tokens, ParseOutput([FirstOfTwoBuilder()], LeftOverErrors()));
  }

  /** The first line: one instruction, then three tokens that are left over. */
  lemma ParseFirstOfTwo(text: string, tokens: seq<Token>, done: ParseOutput)
    requires |tokens| == 9 && SymbolsInBounds(tokens, |text|)
    requires tokens[0] == Token(NewLine, 0, 1) && tokens[1] == Token(Symbol, 1, 4) && tokens[2] == Token(Hash, 5, 6) && tokens[3] == Token(Number, 6, 7)
    requires tokens[4] == Token(Symbol, 8, 11) && tokens[5] == Token(Hash, 12, 13) && tokens[6] == Token(Number, 13, 14) && tokens[7] == Token(NewLine, 14, 15)
    requires MnemonicOf(text, tokens[1]) == "ADD"
    ensures ParsedFrom(text, tokens, 0, done)
      == ParsedFrom(text, tokens, 7, ParseOutput(done.commands + [FirstOfTwoBuilder()], done.errors + LeftOverErrors()))
  {
    assert SkipBlank(tokens, 0) == 1;
    FirstOfTwoLine(text, tokens);
    LeftOverTokens(tokens);
    assert done.errors + [] + LeftOverErrors() == done.errors + LeftOverErrors();
    ParsedFromStep(text, tokens, 0, done);
  }

  /** The parser reads `ADD #2` and stops before the second `ADD`. */
  lemma FirstOfTwoLine(text: string, tokens: seq<Token>)
    requires |tokens| == 9 && SymbolsInBounds(tokens, |text|)
    requires tokens[1] == Token(Symbol, 1, 4) && tokens[2] == Token(Hash, 5, 6) && tokens[3] == Token(Number, 6, 7) && tokens[4] == Token(Symbol, 8, 11)
    requires MnemonicOf(text, tokens[1]) == "ADD"
    ensures ParsedLine(text, tokens, 1) == Parsed(Some(FirstOfTwoBuilder()), 4, [])
  {
    AttributesADD();
  }

  /** The rest of the line is three invalid tokens. */
  lemma LeftOverTokens(tokens: seq<Token>)
    requires |tokens| == 9
    requires tokens[4] == Token(Symbol, 8, 11) && tokens[5] == Token(Hash, 12, 13) && tokens[6] == Token(Number, 13, 14) && tokens[7] == Token(NewLine, 14, 15)
    ensures LineBoundary(tokens, 4) == 7
    ensures TrailingErrors(tokens, 4) == LeftOverErrors()
  {
    assert LineBoundary(tokens, 7) == 7;
    assert TrailingErrors(tokens, 7) == [];
  }

  /** The second line is empty and ends the text. */
  lemma ParseRestOfTwo(text: string, tokens: seq<Token>, done: ParseOutput)
    requires |tokens| == 9 && SymbolsInBounds(tokens, |text|)
    requires tokens[7] == Token(NewLine, 14, 15) && tokens[8] == Token(End, 15, 16)
    ensures ParsedFrom(text, tokens, 7, done) == done
  {
    assert SkipBlank(tokens, 7) == 8;
    assert ParsedLine(text, tokens, 8) == Parsed(None, 9, []);
    ParsedFromStep(text, tokens, 7, done);
  }

  /** The text `ADD\nLDA #1`: an operand missing at the end of a line. */
  function SwallowedLine(): string {
    "ADD\nLDA #1"
  }

  /** Its tokens. */
  function SwallowedLineTokens(): seq<Token> {
    [Token(Symbol, 0, 3), Token(NewLine, 3, 4), Token(Symbol, 4, 7), Token(Hash, 8, 9), Token(Number, 9, 10), Token(End, 10, 11)]
  }

  /** The operand parser takes the line feed after `ADD` as the missing
      operand and moves past it, so recovery skips the whole of the next
      line: the valid `LDA #1` is never parsed. */
  lemma ParseSwallowsNextLine(text: string, tokens: seq<Token>)
    requires text == SwallowedLine() && tokens == SwallowedLineTokens()
    ensures SymbolsInBounds(tokens, |text|)
    ensures Parse(text, tokens) == ParseOutput([], [ErrorAt(MissingOperant, Token(NewLine, 3, 4))])
  {
    assert SymbolsInBounds(tokens, |text|);
    assert Resolve(tokens[0], text) == "ADD";
    ParseSwallowedLoop(text, tokens);
  }

  /** The loop over `ADD`, the line feed, `LDA #1` and `End`. */
  lemma ParseSwallowedLoop(text: string, tokens: seq<Token>)
    requires |tokens| == 6 && SymbolsInBounds(tokens, |text|)
    requires tokens[0] == Token(Symbol, 0, 3) && tokens[1] == Token(NewLine, 3, 4) && tokens[2] == Token(Symbol, 4, 7)
    requires tokens[3] == Token(Hash, 8, 9) && tokens[4] == Token(Number, 9, 10) && tokens[5] == Token(End, 10, 11)
    requires MnemonicOf(text, tokens[0]) == "ADD"
    ensures ParsedFrom(text, tokens, 0, ParseOutput([], [])) == ParseOutput([], [ErrorAt(MissingOperant, Token(NewLine, 3, 4))])
  {
    AttributesADD();
    assert SkipBlank(tokens, 0) == 0;
    assert ParsedLine(text, tokens, 0) == Parsed(None, 2, [ErrorAt(MissingOperant, Token(NewLine, 3, 4))]);
    assert LineBoundary(tokens, 5) == 5;
    assert LineBoundary(tokens, 2) == 5;
    assert SkipBlank(tokens, 5) == 5;
    ParsedFromStep(text, tokens, 0, ParseOutput([], []));
  }

  /** The first instruction resolves to `AddFix 2` on line 1. */
  lemma ResolveTwoOnOneLine(text: string, builders: seq<CommandBuilder>, lines: seq<LineInfo>)
    requires text == TwoOnOneLine() && builders == [FirstOfTwoBuilder()] && lines == TwoOnOneLineLines()
    ensures AllInBounds(text, builders)
    ensures Resolved(text, builders, lines) == Resolution([Command(AddFix, 2, 1)], [])
  {
    var b := builders[0];
    ResolveTwoOnOneLineOperant(text);
    assert b.operant.value == Operant(Fixed, Token(Number, 6, 7));
    assert Upper(Resolve(Token(Symbol, 1, 4), text)) == "ADD";
    assert LineIndexOf(lines, 1) == 1;
    assert Translated(text, b, map[], lines) == Ok(Command(AddFix, 2, 1));
    assert LabelPass(text, builders, 1) == LabelPassOutput(map[], []);
    var results := TranslateAll(text, builders, map[], lines);
    assert Collect(results, 1) == Resolution([Command(AddFix, 2, 1)], []);
  }

  /** The operand `2` of the first instruction reads as 2. */
  lemma ResolveTwoOnOneLineOperant(text: string)
    requires text == TwoOnOneLine()
    ensures ResolveOperant(text, Operant(Fixed, Token(Number, 6, 7)), map[]) == Ok(2)
  {
    assert Resolve(Token(Number, 6, 7), text) == "2";
    assert DecimalValue("2") == 2;
    assert ParseUsize("2") == Some(2);
  }

  /** An error inside the test's second line is placed in it, its offsets
      counted from the character after the first line feed. */
  lemma BuildOnSecondLine(err: ParseErrorBuilder, text: string, lines: seq<LineInfo>)
    requires text == TwoOnOneLine() && lines == TwoOnOneLineLines()
    requires 1 <= err.start <= 14 && 1 <= err.end
    ensures BuildError(err, text, lines) == Some(ParseError(err.kind, err.start - 1, err.end - 1, Line("ADD #2 ADD #3", 1)))
  {
    assert LineIndexOf(lines, err.start) == 1;
    assert text[1..14] == "ADD #2 ADD #3";
  }

  /** The report of the left-over tokens: each is placed in line 1. */
  lemma BuildTwoOnOneLine(text: string, errors: seq<ParseErrorBuilder>, lines: seq<LineInfo>)
    requires text == TwoOnOneLine() && errors == LeftOverErrors() && lines == TwoOnOneLineLines()
    ensures BuildReport(errors, text, lines) == Some(ParseErrorReport([
      ParseError(InvalidToken, 7, 10, Line("ADD #2 ADD #3", 1)),
      ParseError(InvalidToken, 11, 12, Line("ADD #2 ADD #3", 1)),
      ParseError(InvalidToken, 12, 13, Line("ADD #2 ADD #3", 1))]))
  {
    var line := Line("ADD #2 ADD #3", 1);
    var expected := [ParseError(InvalidToken, 7, 10, line), ParseError(InvalidToken, 11, 12, line), ParseError(InvalidToken, 12, 13, line)];
    BuildOnSecondLine(errors[0], text, lines);
    BuildOnSecondLine(errors[1], text, lines);
    BuildOnSecondLine(errors[2], text, lines);
    ThreeBuilt(errors, text, lines, expected);
  }

  /** Three errors that each build make a report of the three. */
  lemma ThreeBuilt(errors: seq<ParseErrorBuilder>, text: string, lines: seq<LineInfo>, expected: seq<ParseError>)
    requires |errors| == 3 && |expected| == 3
    requires BuildError(errors[0], text, lines) == Some(expected[0])
    requires BuildError(errors[1], text, lines) == Some(expected[1])
    requires BuildError(errors[2], text, lines) == Some(expected[2])
    ensures BuildReport(errors, text, lines) == Some(ParseErrorReport(expected))
  {
    assert errors[1..][1..] == errors[2..] && errors[2..][1..] == [];
    assert errors[2..][0] == errors[2] && errors[1..][0] == errors[1];
    assert BuildReport(errors[2..][1..], text, lines) == Some(ParseErrorReport([]));
    assert [expected[2]] + [] == [expected[2]];
    assert BuildReport(errors[2..], text, lines) == Some(ParseErrorReport([expected[2]]));
    assert [expected[1]] + [expected[2]] == [expected[1], expected[2]];
    assert BuildReport(errors[1..], text, lines) == Some(ParseErrorReport([expected[1], expected[2]]));
    assert [expected[0]] + [expected[1], expected[2]] == expected;
  }

  /** `test_compile_invalid_multi_line_code`: two instructions on one line
      do not compile; the first is accepted and the three tokens of the
      second are reported. */
  lemma CompileTwoOnOneLine(text: string)
    requires text == TwoOnOneLine()
    ensures CompileSpec(text) == Failed(ParseErrorReport([
      ParseError(InvalidToken, 7, 10, Line("ADD #2 ADD #3", 1)),
      ParseError(InvalidToken, 11, 12, Line("ADD #2 ADD #3", 1)),
      ParseError(InvalidToken, 12, 13, Line("ADD #2 ADD #3", 1))]))
  {
    TwoOnOneLineErrors(text);
    BuildTwoOnOneLine(text, LeftOverErrors(), TwoOnOneLineLines());
  }

  /** The errors the parser and the resolver record for two instructions
      on one line, and the line table they are built against. */
  lemma TwoOnOneLineErrors(text: string)
    requires text == TwoOnOneLine()
    ensures CompileErrors(text) == LeftOverErrors() && Lex(text).lines == TwoOnOneLineLines()
  {
    LexTwoOnOneLine(text);
    ParseTwoOnOneLine(text, TwoOnOneLineTokens());
    ResolveTwoOnOneLine(text, [FirstOfTwoBuilder()], TwoOnOneLineLines());
  }
}
