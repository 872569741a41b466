/** The resolver (src/frontend/resolver/mod.rs): two passes over the
    command builders.  The first maps every label to the index of the
    builder that defines it, the first definition winning; the second turns
    each builder into an executable command or into one error, in order.

    `LabelPass` and `Collect` are the specification of the two loops;
    `GetLabelTable` and `ConvertToCommands` are the loops themselves, each
    proved to compute its specification. */
module Resolver {
  import opened Base
  import opened Tokens
  import opened Operants
  import opened Commands
  import opened Errors
  import opened Lines
  import opened Parser

  /** `LabelTable`: a label's text to the index of the builder that
      defines it, which is that command's position in the program. */
  type LabelTable = map<string, nat>

  /** Every token a builder holds lies inside the text, so reading its
      text does not go out of range. */
  predicate BuilderInBounds(text: string, b: CommandBuilder) {
    && InBounds(b.instruction, |text|)
    && (b.labelToken.Some? ==> InBounds(b.labelToken.value, |text|))
    && (b.operant.Some? ==> InBounds(b.operant.value.value, |text|))
  }

  predicate AllInBounds(text: string, builders: seq<CommandBuilder>) {
    forall k :: 0 <= k < |builders| ==> BuilderInBounds(text, builders[k])
  }

  /** The text of the label a builder defines, if it has one. */
  function LabelOf(text: string, b: CommandBuilder): Option<string>
    requires BuilderInBounds(text, b)
  {
    if b.labelToken.Some? then Some(Resolve(b.labelToken.value, text)) else None
  }

  /** What the label pass has built after some builders: the table and the
      `LabelReassign` errors, in order. */
  datatype LabelPassOutput = LabelPassOutput(table: LabelTable, errors: seq<ParseErrorBuilder>)

  /** The loop of `get_label_table` over the first `n` builders: a label
      not yet in the table is entered with its builder's index, one already
      there is reported at the repeated label's span. */
  function LabelPass(text: string, builders: seq<CommandBuilder>, n: nat): (r: LabelPassOutput)
    requires n <= |builders| && AllInBounds(text, builders)
    ensures forall id :: id in r.table ==> r.table[id] < n
    ensures |r.errors| <= n
  {
    if n == 0 then LabelPassOutput(map[], [])
    else
      var prev := LabelPass(text, builders, n - 1);
      var b := builders[n - 1];
      match b.labelToken
      case None => prev
      case Some(labelToken) =>
        var identifier := Resolve(labelToken, text);
        if identifier in prev.table then
          LabelPassOutput(prev.table, prev.errors + [ErrorAt(LabelReassign, labelToken)])
        else LabelPassOutput(prev.table[identifier := n - 1], prev.errors)
  }

  /** The table holds exactly the labels some builder defines, and each
      maps to the first builder defining it. */
  lemma {:induction false} LabelPassDefines(text: string, builders: seq<CommandBuilder>, n: nat)
    requires n <= |builders| && AllInBounds(text, builders)
    ensures forall id :: id in LabelPass(text, builders, n).table <==>
      exists k :: 0 <= k < n && LabelOf(text, builders[k]) == Some(id)
    ensures forall id :: id in LabelPass(text, builders, n).table ==>
      var index := LabelPass(text, builders, n).table[id];
      && index < n && LabelOf(text, builders[index]) == Some(id)
      && forall j :: 0 <= j < index ==> LabelOf(text, builders[j]) != Some(id)
  {
    if n > 0 {
      LabelPassDefines(text, builders, n - 1);
      var prev := LabelPass(text, builders, n - 1).table;
      var table := LabelPass(text, builders, n).table;
      var last := LabelOf(text, builders[n - 1]);
      forall id
        ensures id in table <==> exists k :: 0 <= k < n && LabelOf(text, builders[k]) == Some(id)
      {
        if last == Some(id) {
          assert LabelOf(text, builders[n - 1]) == Some(id);
        }
      }
    }
  }

  /** The number of builders among the first `n` that carry a label. */
  function LabelledCount(builders: seq<CommandBuilder>, n: nat): nat
    requires n <= |builders|
  {
    if n == 0 then 0
    else LabelledCount(builders, n - 1) + if builders[n - 1].labelToken.Some? then 1 else 0
  }

  /** Every label either enters the table or is reported: all errors are
      `LabelReassign`, and there are as many as labelled builders minus
      distinct labels. */
  lemma {:induction false} LabelPassCounts(text: string, builders: seq<CommandBuilder>, n: nat)
    requires n <= |builders| && AllInBounds(text, builders)
    ensures forall i :: 0 <= i < |LabelPass(text, builders, n).errors| ==>
      LabelPass(text, builders, n).errors[i].kind == LabelReassign
    ensures |LabelPass(text, builders, n).errors| + |LabelPass(text, builders, n).table.Keys| == LabelledCount(builders, n)
  {
    if n > 0 {
      LabelPassCounts(text, builders, n - 1);
      var prev := LabelPass(text, builders, n - 1);
      var r := LabelPass(text, builders, n);
      var b := builders[n - 1];
      if b.labelToken.Some? {
        var identifier := Resolve(b.labelToken.value, text);
        if identifier !in prev.table {
          assert r.table.Keys == prev.table.Keys + {identifier};
        }
      }
    }
  }

  /** A label defined again by a later builder is reported at the later
      label's span. */
  lemma {:induction false} LabelPassReports(text: string, builders: seq<CommandBuilder>, j: nat, k: nat, n: nat)
    requires j < k < n <= |builders| && AllInBounds(text, builders)
    requires builders[k].labelToken.Some? && LabelOf(text, builders[j]) == LabelOf(text, builders[k])
    ensures ErrorAt(LabelReassign, builders[k].labelToken.value) in LabelPass(text, builders, n).errors
    decreases n
  {
    var prev := LabelPass(text, builders, n - 1);
    if k < n - 1 {
      LabelPassReports(text, builders, j, k, n - 1);
    } else {
      LabelPassDefines(text, builders, n - 1);
      assert LabelOf(text, builders[j]) == Some(Resolve(builders[k].labelToken.value, text));
      assert Resolve(builders[k].labelToken.value, text) in prev.table;
    }
  }

  /** `get_label_table`: the label pass, with its errors added to the
      report. */
  method GetLabelTable(text: string, builders: seq<CommandBuilder>, errorReport: ParseErrorReportBuilder)
    returns (table: LabelTable)
    requires AllInBounds(text, builders)
    modifies errorReport
    ensures table == LabelPass(text, builders, |builders|).table
    ensures errorReport.errors == old(errorReport.errors) + LabelPass(text, builders, |builders|).errors
  {
    table := map[];
    for index := 0 to |builders|
      invariant table == LabelPass(text, builders, index).table
      invariant errorReport.errors == old(errorReport.errors) + LabelPass(text, builders, index).errors
    {
      var command := builders[index];
      if command.labelToken.Some? {
        var labelToken := command.labelToken.value;
        var identifier := Resolve(labelToken, text);
        if identifier in table {
          AppendAssociates(old(errorReport.errors), LabelPass(text, builders, index).errors,
            [ErrorAt(LabelReassign, labelToken)]);
          errorReport.Add(NewError(LabelReassign, labelToken.start, labelToken.end));
        } else {
          table := table[identifier := index];
        }
      }
    }
  }

  /** `resolve_operant`: a label is looked up in the table, anything else
      is read as a decimal `usize`. */
  function ResolveOperant(text: string, operant: Operant, table: LabelTable): (r: Result<nat, ParseErrorBuilder>)
    requires InBounds(operant.value, |text|)
    ensures r.Err? ==> r.error.start == operant.value.start && r.error.end == operant.value.end
    ensures r.Err? ==> (r.error.kind == MissingLabel <==> operant.kind == Label)
    ensures r.Err? ==> r.error.kind == MissingLabel || r.error.kind == InvalidOperant
    ensures operant.kind == Label ==> (r.Ok? <==> Resolve(operant.value, text) in table)
    ensures operant.kind != Label && r.Ok? ==> r.value <= USIZE_MAX
    ensures operant.kind != Label ==> (r.Ok? <==> ParseUsize(Resolve(operant.value, text)).Some?)
  {
    var operantValue := Resolve(operant.value, text);
    if operant.kind == Label then
      if operantValue in table then Ok(table[operantValue])
      else Err(ErrorAt(MissingLabel, operant.value))
    else
      match ParseUsize(operantValue)
      case Some(n) => Ok(n)
      case None => Err(ErrorAt(InvalidOperant, operant.value))
  }

  /** A number operand whose text is the rendering of a `usize` resolves to
      that number, a run of digits too large for a `usize` is an invalid
      operand, and a label operand resolves to its table entry. */
  lemma ResolveOperantReads(text: string, operant: Operant, table: LabelTable, n: nat)
    requires InBounds(operant.value, |text|)
    ensures var digits := Resolve(operant.value, text);
      operant.kind != Label && digits != [] && AllDigits(digits) && DecimalValue(digits) > USIZE_MAX ==>
      ResolveOperant(text, operant, table) == Err(ErrorAt(InvalidOperant, operant.value))
    ensures operant.kind != Label && n <= USIZE_MAX && Resolve(operant.value, text) == NatToString(n) ==>
      ResolveOperant(text, operant, table) == Ok(n)
    ensures operant.kind == Label && Resolve(operant.value, text) in table ==>
      ResolveOperant(text, operant, table) == Ok(table[Resolve(operant.value, text)])
  {
    if operant.kind != Label && n <= USIZE_MAX && Resolve(operant.value, text) == NatToString(n) {
      ParseUsizeOfNatToString(n);
    }
  }

  /** The error for an operand kind the mnemonic does not take. */
  function NotAllowed(kind: OperantKind): ParseErrorType {
    match kind
    case Fixed => NotAllowedFixNumber
    case Address => NotAllowedAddress
    case Label => NotAllowedLabel
  }

  /** `translate_command` with the `translate_*_command` helpers: the
      operand is resolved first, then the upper-cased mnemonic and the
      operand's kind select the opcode from the instruction table; the
      command's line is the line of its mnemonic. */
  function Translated(text: string, b: CommandBuilder, table: LabelTable, lines: seq<LineInfo>): (r: Result<Command, ParseErrorBuilder>)
    requires BuilderInBounds(text, b)
    ensures r.Ok? ==> r.value.line == LineIndexOf(lines, b.instruction.start)
    ensures r.Err? ==>
      || (r.error.start, r.error.end) == (b.instruction.start, b.instruction.end)
      || (b.operant.Some? && (r.error.start, r.error.end) == (b.operant.value.value.start, b.operant.value.value.end))
  {
    var mnemonic := Upper(Resolve(b.instruction, text));
    var operant := if b.operant.Some? then ResolveOperant(text, b.operant.value, table) else Ok(0);
    var line := LineIndexOf(lines, b.instruction.start);
    if operant.Err? then Err(operant.error)
    else if mnemonic == "NOP" then Ok(Command(NOP, 0, line))
    else if mnemonic !in MNEMONICS then Err(ErrorAt(InvalidInstruction, b.instruction))
    else
      match b.operant
      case None => Err(ErrorAt(MissingOperant, b.instruction))
      case Some(o) =>
        match Opcode(mnemonic, o.kind)
        case Some(instruction) => Ok(Command(instruction, operant.value, line))
        case None => Err(ErrorAt(NotAllowed(o.kind), o.value))
  }

  /** A translated command is written with the builder's mnemonic, sits on
      its mnemonic's line and carries the resolved operand (0 for NOP); an
      operand that does not resolve is reported before the mnemonic is
      looked at, an unknown mnemonic is `InvalidInstruction` at its span,
      and a kind the mnemonic does not take is the matching `NotAllowed*`
      error at the operand. */
  lemma TranslatedSound(text: string, b: CommandBuilder, table: LabelTable, lines: seq<LineInfo>)
    requires BuilderInBounds(text, b)
    ensures var r := Translated(text, b, table, lines);
      var mnemonic := Upper(Resolve(b.instruction, text));
      && (r.Ok? ==>
           && Mnemonic(r.value.instruction) == mnemonic
           && r.value.line == LineIndexOf(lines, b.instruction.start)
           && (r.value.instruction == NOP <==> mnemonic == "NOP")
           && (r.value.instruction == NOP ==> r.value.operant == 0)
           && (r.value.instruction != NOP ==>
                && b.operant.Some?
                && Opcode(mnemonic, b.operant.value.kind) == Some(r.value.instruction)
                && ResolveOperant(text, b.operant.value, table) == Ok(r.value.operant)))
      && (b.operant.Some? && ResolveOperant(text, b.operant.value, table).Err? ==>
           r == Err(ResolveOperant(text, b.operant.value, table).error))
      && (mnemonic !in MNEMONICS && (b.operant.None? || ResolveOperant(text, b.operant.value, table).Ok?) ==>
           r == Err(ErrorAt(InvalidInstruction, b.instruction)))
      && (mnemonic in MNEMONICS && b.operant.Some? && ResolveOperant(text, b.operant.value, table).Ok?
          && mnemonic != "NOP" && Opcode(mnemonic, b.operant.value.kind).None? ==>
           r == Err(ErrorAt(NotAllowed(b.operant.value.kind), b.operant.value.value)))
  {
  }

  /** On a builder the parser emits, only the operand can fail: a label
      missing from the table or a number too large for a `usize`.  A
      defined label or a small enough number always translates. */
  lemma TranslatedWellFormed(text: string, tokens: seq<Token>, b: CommandBuilder, table: LabelTable, lines: seq<LineInfo>)
    requires BuilderInBounds(text, b) && WellFormed(text, tokens, b)
    ensures var r := Translated(text, b, table, lines);
      && (r.Err? ==> r.error.kind == MissingLabel || r.error.kind == InvalidOperant)
      && (b.operant.None? || ResolveOperant(text, b.operant.value, table).Ok? <==> r.Ok?)
  {
  }

  /** `translate_command`: the line is read from the line table. */
  method TranslateCommand(text: string, b: CommandBuilder, table: LabelTable, lineTable: LineTable)
    returns (r: Result<Command, ParseErrorBuilder>)
    requires BuilderInBounds(text, b)
    ensures r == Translated(text, b, table, lineTable.lines)
  {
    var instruction := Upper(Resolve(b.instruction, text));
    var operant: nat := 0;
    if b.operant.Some? {
      var resolved := ResolveOperant(text, b.operant.value, table);
      if resolved.Err? {
        return Err(resolved.error);
      }
      operant := resolved.value;
    }
    if instruction == "NOP" {
      var line := lineTable.GetLineIndexOf(b.instruction.start);
      return Ok(NewCommand(NOP, 0, line));
    }
    if instruction !in MNEMONICS {
      return Err(NewError(InvalidInstruction, b.instruction.start, b.instruction.end));
    }
    if b.operant.None? {
      return Err(NewError(MissingOperant, b.instruction.start, b.instruction.end));
    }
    var o := b.operant.value;
    var opcode := Opcode(instruction, o.kind);
    if opcode.None? {
      return Err(NewError(NotAllowed(o.kind), o.value.start, o.value.end));
    }
    var line := lineTable.GetLineIndexOf(b.instruction.start);
    r := Ok(NewCommand(opcode.value, operant, line));
  }

  /** The translation of every builder, in order. */
  function TranslateAll(text: string, builders: seq<CommandBuilder>, table: LabelTable, lines: seq<LineInfo>)
    : (results: seq<Result<Command, ParseErrorBuilder>>)
    requires AllInBounds(text, builders)
    ensures |results| == |builders|
    ensures forall k :: 0 <= k < |builders| ==> results[k] == Translated(text, builders[k], table, lines)
  {
    if builders == [] then []
    else
      var init := builders[..|builders| - 1];
      assert forall k :: 0 <= k < |init| ==> init[k] == builders[k];
      TranslateAll(text, init, table, lines) + [Translated(text, builders[|builders| - 1], table, lines)]
  }

  /** The commands and errors of a translation pass. */
  datatype Resolution = Resolution(commands: seq<Command>, errors: seq<ParseErrorBuilder>)

  /** The loop of `convert_to_commands` over the first `n` results: a
      command is pushed, an error is added to the report. */
  function Collect(results: seq<Result<Command, ParseErrorBuilder>>, n: nat): (r: Resolution)
    requires n <= |results|
    ensures |r.commands| + |r.errors| == n
  {
    if n == 0 then Resolution([], [])
    else
      var prev := Collect(results, n - 1);
      match results[n - 1]
      case Ok(command) => Resolution(prev.commands + [command], prev.errors)
      case Err(error) => Resolution(prev.commands, prev.errors + [error])
  }

  /** One output per result: the outputs of the first `n` results number
      `n`, and those of the first `m <= n` are a prefix of them. */
  lemma {:induction false} CollectInOrder(results: seq<Result<Command, ParseErrorBuilder>>, m: nat, n: nat)
    requires m <= n <= |results|
    ensures var r := Collect(results, n);
      |r.commands| + |r.errors| == n
    ensures var small := Collect(results, m);
      var r := Collect(results, n);
      small.commands <= r.commands && small.errors <= r.errors
    decreases n
  {
    if n > 0 {
      if m < n {
        CollectInOrder(results, m, n - 1);
      } else {
        CollectInOrder(results, n - 1, n - 1);
      }
    }
  }

  /** Each result sits in the output where the results before it leave
      off: a command after the earlier commands, an error after the earlier
      errors. */
  lemma CollectPlaces(results: seq<Result<Command, ParseErrorBuilder>>, k: nat)
    requires k < |results|
    ensures var before := Collect(results, k);
      var r := Collect(results, |results|);
      match results[k]
      case Ok(command) => |before.commands| < |r.commands| && r.commands[|before.commands|] == command
      case Err(error) => |before.errors| < |r.errors| && r.errors[|before.errors|] == error
  {
    CollectInOrder(results, k + 1, |results|);
  }

  /** Every output comes from a result: each command from an `Ok`, each
      error from an `Err`. */
  lemma {:induction false} CollectFrom(results: seq<Result<Command, ParseErrorBuilder>>, n: nat)
    requires n <= |results|
    ensures forall i :: 0 <= i < |Collect(results, n).commands| ==> Ok(Collect(results, n).commands[i]) in results[..n]
    ensures forall i :: 0 <= i < |Collect(results, n).errors| ==> Err(Collect(results, n).errors[i]) in results[..n]
  {
    if n > 0 {
      CollectFrom(results, n - 1);
      assert results[..n] == results[..n - 1] + [results[n - 1]];
    }
  }

  /** On builders the parser emits, the translation pass reports only
      labels missing from the table and numbers too large for a `usize`. */
  lemma ConvertedErrorKinds(text: string, tokens: seq<Token>, builders: seq<CommandBuilder>, table: LabelTable, lines: seq<LineInfo>)
    requires AllInBounds(text, builders) && AllWellFormed(text, tokens, builders)
    ensures forall i :: 0 <= i < |Collect(TranslateAll(text, builders, table, lines), |builders|).errors| ==>
      var kind := Collect(TranslateAll(text, builders, table, lines), |builders|).errors[i].kind;
      kind == MissingLabel || kind == InvalidOperant
  {
    var results := TranslateAll(text, builders, table, lines);
    forall k | 0 <= k < |results|
      ensures results[k].Err? ==> results[k].error.kind == MissingLabel || results[k].error.kind == InvalidOperant
    {
      TranslatedWellFormed(text, tokens, builders[k], table, lines);
    }
    CollectFrom(results, |results|);
    assert results[..|results|] == results;
  }

  /** `convert_to_commands`: the translation pass, with its errors added to
      the report. */
  method ConvertToCommands(text: string, builders: seq<CommandBuilder>, table: LabelTable,
                           errorReport: ParseErrorReportBuilder, lineTable: LineTable)
    returns (commands: seq<Command>)
    requires AllInBounds(text, builders)
    modifies errorReport
    ensures var r := Collect(TranslateAll(text, builders, table, lineTable.lines), |builders|);
      commands == r.commands && errorReport.errors == old(errorReport.errors) + r.errors
  {
    ghost var results := TranslateAll(text, builders, table, lineTable.lines);
    commands := [];
    for index := 0 to |builders|
      invariant var r := Collect(results, index);
        commands == r.commands && errorReport.errors == old(errorReport.errors) + r.errors
    {
      var translated := TranslateCommand(text, builders[index], table, lineTable);
      ghost var before := Collect(results, index);
      if translated.Ok? {
        commands := commands + [translated.value];
        assert Collect(results, index + 1) == Resolution(before.commands + [translated.value], before.errors);
      } else {
        AppendAssociates(old(errorReport.errors), before.errors, [translated.error]);
        errorReport.Add(translated.error);
        assert Collect(results, index + 1) == Resolution(before.commands, before.errors + [translated.error]);
      }
    }
  }

  /** What `resolve` returns and adds: the translation pass run with the
      table of the label pass; the label errors come first. */
  function Resolved(text: string, builders: seq<CommandBuilder>, lines: seq<LineInfo>): (r: Resolution)
    requires AllInBounds(text, builders)
    ensures LabelPass(text, builders, |builders|).errors <= r.errors
    ensures |r.commands| <= |builders|
  {
    var labels := LabelPass(text, builders, |builders|);
    var converted := Collect(TranslateAll(text, builders, labels.table, lines), |builders|);

    Resolution(converted.commands, labels.errors + converted.errors)
  }

  /** `resolve`. */
  method ResolveProgram(text: string, builders: seq<CommandBuilder>, errorReport: ParseErrorReportBuilder, lineTable: LineTable)
    returns (commands: seq<Command>)
    requires AllInBounds(text, builders)
    modifies errorReport
    ensures commands == Resolved(text, builders, lineTable.lines).commands
    ensures errorReport.errors == old(errorReport.errors) + Resolved(text, builders, lineTable.lines).errors
  {
    var table := GetLabelTable(text, builders, errorReport);
    commands := ConvertToCommands(text, builders, table, errorReport, lineTable);
    AppendAssociates(old(errorReport.errors), LabelPass(text, builders, |builders|).errors,
      Collect(TranslateAll(text, builders, table, lineTable.lines), |builders|).errors);
  }

  /** The resolver emits one command or one error per builder, and one
      error per repeated label. */
  lemma ResolvedCounts(text: string, builders: seq<CommandBuilder>, lines: seq<LineInfo>)
    requires AllInBounds(text, builders)
    ensures var r := Resolved(text, builders, lines);
      var labels := LabelPass(text, builders, |builders|);
      |r.commands| + |r.errors| == |builders| + |labels.errors|
  {
    var labels := LabelPass(text, builders, |builders|);
    CollectInOrder(TranslateAll(text, builders, labels.table, lines), |builders|, |builders|);
  }

  /** The kinds of error the resolver raises on the parser's output. */
  predicate IsResolveErrorKind(kind: ParseErrorType) {
    kind == LabelReassign || kind == MissingLabel || kind == InvalidOperant
  }

  /** Label errors followed by translation errors of those kinds. */
  lemma ConcatenatedKinds(labelErrors: seq<ParseErrorBuilder>, translationErrors: seq<ParseErrorBuilder>)
    requires forall i :: 0 <= i < |labelErrors| ==> labelErrors[i].kind == LabelReassign
    requires forall i :: 0 <= i < |translationErrors| ==>
      translationErrors[i].kind == MissingLabel || translationErrors[i].kind == InvalidOperant
    ensures forall i :: 0 <= i < |labelErrors + translationErrors| ==>
      IsResolveErrorKind((labelErrors + translationErrors)[i].kind)
  {
  }

  /** On builders the parser emits, the resolver reports only repeated
      labels, labels missing from the table and numbers too large for a
      `usize`. */
  lemma ResolvedErrorKinds(text: string, tokens: seq<Token>, builders: seq<CommandBuilder>, lines: seq<LineInfo>)
    requires AllInBounds(text, builders) && AllWellFormed(text, tokens, builders)
    ensures forall i :: 0 <= i < |Resolved(text, builders, lines).errors| ==>
      IsResolveErrorKind(Resolved(text, builders, lines).errors[i].kind)
  {
    var labels := LabelPass(text, builders, |builders|);
    var converted := Collect(TranslateAll(text, builders, labels.table, lines), |builders|);
    LabelPassCounts(text, builders, |builders|);
    ConvertedErrorKinds(text, tokens, builders, labels.table, lines);
    ConcatenatedKinds(labels.errors, converted.errors);
  }

  /** A pass without errors pushes every result's command, in order. */
  lemma CollectWithoutErrors(results: seq<Result<Command, ParseErrorBuilder>>)
    requires Collect(results, |results|).errors == []
    ensures |Collect(results, |results|).commands| == |results|
    ensures forall k :: 0 <= k < |results| ==> results[k] == Ok(Collect(results, |results|).commands[k])
  {
    var r := Collect(results, |results|);
    CollectInOrder(results, |results|, |results|);
    forall k | 0 <= k < |results|
      ensures results[k] == Ok(r.commands[k])
    {
      CollectPlaces(results, k);
      CollectInOrder(results, k, k);
      CollectInOrder(results, k, |results|);
    }
  }

  /** A resolution without errors translates every builder: command `k` is
      the translation of builder `k`, against the table of the first
      definitions. */
  lemma ResolvedWithoutErrors(text: string, builders: seq<CommandBuilder>, lines: seq<LineInfo>)
    requires AllInBounds(text, builders)
    requires Resolved(text, builders, lines).errors == []
    ensures |Resolved(text, builders, lines).commands| == |builders|
    ensures forall k :: 0 <= k < |builders| ==>
      Translated(text, builders[k], LabelPass(text, builders, |builders|).table, lines)
        == Ok(Resolved(text, builders, lines).commands[k])
  {
    var labels := LabelPass(text, builders, |builders|);
    var results := TranslateAll(text, builders, labels.table, lines);
    CollectWithoutErrors(results);
  }

  /** Results that are all commands collect into those commands and no
      error. */
  lemma {:induction false} CollectAllOk(results: seq<Result<Command, ParseErrorBuilder>>, commands: seq<Command>, n: nat)
    requires n <= |results| == |commands|
    requires forall k :: 0 <= k < |results| ==> results[k] == Ok(commands[k])
    ensures Collect(results, n) == Resolution(commands[..n], [])
  {
    if n > 0 {
      CollectAllOk(results, commands, n - 1);
      assert commands[..n] == commands[..n - 1] + [commands[n - 1]];
    }
  }

  /** Conversely, a program whose labels are all defined once and whose
      every line translates resolves to those translations and no error. */
  lemma ResolvedFromTranslations(text: string, builders: seq<CommandBuilder>, lines: seq<LineInfo>, commands: seq<Command>)
    requires AllInBounds(text, builders)
    requires LabelPass(text, builders, |builders|).errors == [] && |commands| == |builders|
    requires forall k :: 0 <= k < |builders| ==>
      Translated(text, builders[k], LabelPass(text, builders, |builders|).table, lines) == Ok(commands[k])
    ensures Resolved(text, builders, lines) == Resolution(commands, [])
  {
    var labels := LabelPass(text, builders, |builders|);
    CollectAllOk(TranslateAll(text, builders, labels.table, lines), commands, |builders|);
    assert commands[..|builders|] == commands;
  }
}
