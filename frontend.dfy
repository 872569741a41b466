/** `compile` (src/frontend/mod.rs): the three passes over one shared error
    report and one line table.  The program compiles when no pass reports
    an error; otherwise the report is built against the text and the line
    table.  `CompileSpec` is what `compile` computes, in terms of `Lex`,
    `Parse` and `Resolved`; `Compile` runs the passes as the source does. */
module Frontend {
  import opened Base
  import opened Tokens
  import opened Lines
  import opened Errors
  import opened Commands
  import opened Operants
  import opened Lexer
  import opened Parser
  import opened Resolver

  /** The result of `compile`: the commands, the error report, or the
      panic `ParseErrorBuilder::build` raises on an error it cannot place
      in its line. */
  datatype CompileOutcome =
    | Compiled(commands: seq<Command>)
    | Failed(report: ParseErrorReport)
    | Panicked

  /** The lexer's tokens fit the text, so the parser can read every symbol
      and the resolver every span the parser keeps. */
  lemma LexedInBounds(text: string)
    ensures SymbolsInBounds(Lex(text).tokens, |text|)
    ensures AllInBounds(text, Parse(text, Lex(text).tokens).commands)
    ensures AllWellFormed(text, Lex(text).tokens, Parse(text, Lex(text).tokens).commands)
  {
    var tokens := Lex(text).tokens;
    LexTokens(text);
    assert SymbolsInBounds(tokens, |text|);
    var builders := Parse(text, tokens).commands;
    forall k | 0 <= k < |builders|
      ensures BuilderInBounds(text, builders[k])
    {
      var b := builders[k];
      assert WellFormed(text, tokens, b);
      if b.operant.Some? {
        var v := b.operant.value.value;
        var j :| 0 <= j < |tokens| && tokens[j] == v;
        assert v.tokenType != End;
        assert j < |tokens| - 1;
      }
    }
  }

  /** What the parser makes of the lexed text. */
  function ParsedProgram(text: string): (r: ParseOutput)
    ensures AllInBounds(text, r.commands)
    ensures AllWellFormed(text, Lex(text).tokens, r.commands)
  {
    LexedInBounds(text);
    Parse(text, Lex(text).tokens)
  }

  /** What the resolver makes of the parsed program, with the lexed line
      table. */
  function ResolvedProgram(text: string): Resolution {
    Resolved(text, ParsedProgram(text).commands, Lex(text).lines)
  }

  /** Every error `compile` records, in the order it records them. */
  function CompileErrors(text: string): seq<ParseErrorBuilder> {
    ParsedProgram(text).errors + ResolvedProgram(text).errors
  }

  /** What `compile` returns on `text`. */
  function CompileSpec(text: string): (r: CompileOutcome)
    ensures r.Compiled? <==> CompileErrors(text) == []
    ensures r.Failed? ==> |r.report.errors| == |CompileErrors(text)|
  {
    var errors := CompileErrors(text);
    if errors == [] then Compiled(ResolvedProgram(text).commands)
    else
      match BuildReport(errors, text, Lex(text).lines)
      case Some(report) => Failed(report)
      case None => Panicked
  }

  /** `resolve` on the parser's output for `text`. */
  method ResolveParsed(text: string, builders: seq<CommandBuilder>, errorReport: ParseErrorReportBuilder, lineTable: LineTable)
    returns (commands: seq<Command>)
    requires builders == ParsedProgram(text).commands && lineTable.lines == Lex(text).lines
    modifies errorReport
    ensures commands == ResolvedProgram(text).commands
    ensures errorReport.errors == old(errorReport.errors) + ResolvedProgram(text).errors
  {
    commands := ResolveProgram(text, builders, errorReport, lineTable);
  }

  /** `compile`: tokenize into a fresh line table, parse and resolve into
      a fresh error report, and return the commands when the report stayed
      empty. */
  method Compile(text: string) returns (outcome: CompileOutcome)
    ensures outcome == CompileSpec(text)
  {
    var errorReport := new ParseErrorReportBuilder();
    var lineTable := new LineTable();

    var tokens := Tokenize(text, lineTable);
    LexedInBounds(text);
    var context := ParseContext(text, errorReport);
    var builders := ParseToken(tokens, context);
    assert builders == ParsedProgram(text).commands;
    assert errorReport.errors == ParsedProgram(text).errors;
    var commands := ResolveParsed(text, builders, errorReport, lineTable);

    if errorReport.IsSuccessful() {
      return Compiled(commands);
    }
    var report := errorReport.Build(text, lineTable.lines);
    match report
    case Some(r) => outcome := Failed(r);
    case None => outcome := Panicked;
  }

  /** A program compiles exactly when neither the parser nor the resolver
      reports an error, and then it has one command per parsed line, each
      the translation of that line against the label table. */
  lemma CompiledIffNoErrors(text: string)
    ensures CompileSpec(text).Compiled? <==> ParsedProgram(text).errors == [] && ResolvedProgram(text).errors == []
    ensures CompileSpec(text).Compiled? ==>
      var builders := ParsedProgram(text).commands;
      var table := LabelPass(text, builders, |builders|).table;
      && |CompileSpec(text).commands| == |builders|
      && forall k :: 0 <= k < |builders| ==>
           Translated(text, builders[k], table, Lex(text).lines) == Ok(CompileSpec(text).commands[k])
  {
    if CompileSpec(text).Compiled? {
      ResolvedWithoutErrors(text, ParsedProgram(text).commands, Lex(text).lines);
    }
  }

  /** A failed compile reports every error, parser errors first, with its
      kind; a compile panics exactly when some error cannot be built. */
  lemma FailedReportsAll(text: string)
    ensures CompileSpec(text).Failed? ==>
      var errors := CompileErrors(text);
      var report := CompileSpec(text).report;
      && |report.errors| == |errors| > 0
      && forall i :: 0 <= i < |errors| ==> report.errors[i].kind == errors[i].kind
    ensures CompileSpec(text).Panicked? <==>
      exists i :: 0 <= i < |CompileErrors(text)| && BuildError(CompileErrors(text)[i], text, Lex(text).lines).None?
  {
    var errors := CompileErrors(text);
    var built := BuildReport(errors, text, Lex(text).lines);
    if built.Some? {
      forall i | 0 <= i < |errors|
        ensures built.value.errors[i].kind == errors[i].kind
      {
        assert Some(built.value.errors[i]) == BuildError(errors[i], text, Lex(text).lines);
      }
    }
  }

  /** The kinds of error a compile can report: the parser's, then the
      resolver's. */
  lemma CompileErrorKinds(text: string)
    ensures forall i :: 0 <= i < |ParsedProgram(text).errors| ==>
      IsParseErrorKind(CompileErrors(text)[i].kind)
    ensures forall i :: |ParsedProgram(text).errors| <= i < |CompileErrors(text)| ==>
      IsResolveErrorKind(CompileErrors(text)[i].kind)
  {
    var tokens := Lex(text).tokens;
    LexedInBounds(text);
    var parsed := ParsedProgram(text);
    ResolvedErrorKinds(text, tokens, parsed.commands, Lex(text).lines);
  }
}
