/** Error accumulation (src/error.rs).  The stages record errors as a kind
    and an absolute character span; when compilation fails, each is turned
    into a report entry that carries its line number, its line's text and
    offsets relative to that line. */
module Errors {
  import opened Base
  import opened Lines

  /** `ParseErrorType`, together with `InvalidToken`, which the parser
      raises for trailing tokens (src/frontend/parser/mod.rs:68) though the
      enumeration in src/error.rs does not list it. */
  datatype ParseErrorType =
    | MissingOperant
    | MissingInstruction
    | MissingLabel
    | MissingParenthesisClose
    | InvalidFixNumber
    | InvalidAddress
    | InvalidInstruction
    | InvalidOperant
    | NotAllowedAddress
    | NotAllowedFixNumber
    | NotAllowedLabel
    | LabelReassign
    | InvalidToken

  /** `Display for ParseErrorType`: one fixed sentence per kind.  The
      sentence for `InvalidToken` is this model's, as the source has none. */
  function Message(kind: ParseErrorType): (m: string)
    ensures |m| > 1 && m[|m| - 1] == '.'
  {
    match kind
    case MissingOperant => "Missing operand."
    case MissingInstruction => "Missing instruction."
    case MissingLabel => "Missing label."
    case MissingParenthesisClose => "Missing closing parenthesis."
    case InvalidFixNumber => "Invalid fix number."
    case InvalidAddress => "Invalid address."
    case InvalidInstruction => "Invalid instruction."
    case InvalidOperant => "Invalid operand."
    case NotAllowedAddress => "Not allowed address."
    case NotAllowedFixNumber => "Not allowed fix number."
    case NotAllowedLabel => "Not allowed label."
    case LabelReassign => "Label reassignment not allowed."
    case InvalidToken => "Invalid token."
  }

  /** Every kind has its own sentence. */
  lemma MessageInjective(a: ParseErrorType, b: ParseErrorType)
    requires Message(a) == Message(b)
    ensures a == b
  {
  }

  /** `ParseErrorBuilder`: a kind and an absolute span. */
  datatype ParseErrorBuilder = ParseErrorBuilder(kind: ParseErrorType, start: nat, end: nat)

  /** `ParseErrorBuilder::new`: the fields are stored unchanged. */
  function NewError(kind: ParseErrorType, start: nat, end: nat): (e: ParseErrorBuilder)
    ensures e.kind == kind && e.start == start && e.end == end
  {
    ParseErrorBuilder(kind, start, end)
  }

  /** `Line`: the text of the line an error is on and its number. */
  datatype Line = Line(value: string, number: nat)

  /** `ParseError`: a kind, a span relative to its line, and the line. */
  datatype ParseError = ParseError(kind: ParseErrorType, start: nat, end: nat, line: Line)

  /** `ParseErrorReport`. */
  datatype ParseErrorReport = ParseErrorReport(errors: seq<ParseError>)

  /** `ParseErrorBuilder::build`, or nothing where the source panics.  The
      line text is taken from one past the line's start, and the offsets are
      made relative to that same position; both steps fail (a slice out of
      range, a `usize` subtraction below zero) unless the line start lies
      before the error span and the line is non-empty and inside the text. */
  function BuildError(err: ParseErrorBuilder, text: string, lines: seq<LineInfo>): (r: Option<ParseError>)
    ensures r.Some? ==> r.value.kind == err.kind
    ensures r.Some? ==> r.value.line.number == LineIndexOf(lines, err.start) < |lines|
    ensures r.Some? ==>
      var lineStart := LineOf(lines, err.start).0;
      r.value.start + lineStart + 1 == err.start && r.value.end + lineStart + 1 == err.end
    ensures r.Some? ==>
      var (lineStart, lineEnd) := LineOf(lines, err.start);
      lineStart < lineEnd <= |text| && r.value.line.value == text[lineStart + 1..lineEnd]
    ensures err.start <= LineOf(lines, err.start).0 ==> r.None?
    ensures err.end <= LineOf(lines, err.start).0 ==> r.None?
  {
    var number := LineIndexOf(lines, err.start);
    var (lineStart, lineEnd) := LineOf(lines, err.start);
    if lineStart + 1 > lineEnd || lineEnd > |text| then None
    else if err.start < lineStart + 1 || err.end < lineStart + 1 then None
    else Some(ParseError(
      err.kind,
      err.start - lineStart - 1,
      err.end - lineStart - 1,
      Line(text[lineStart + 1..lineEnd], number)))
  }

  /** An error recorded at the very first character can never be built:
      whichever line holds it, it does not lie past that line's start. */
  lemma ErrorAtOffsetZeroPanics(kind: ParseErrorType, end: nat, text: string, lines: seq<LineInfo>)
    ensures BuildError(ParseErrorBuilder(kind, 0, end), text, lines).None?
  {
  }

  /** An error outside every recorded line cannot be built either, and one
      strictly inside a non-empty line of the text always can. */
  lemma BuildErrorDefinedness(err: ParseErrorBuilder, text: string, lines: seq<LineInfo>)
    ensures LineIndexOf(lines, err.start) == |lines| ==> BuildError(err, text, lines).None?
    ensures var (lineStart, lineEnd) := LineOf(lines, err.start);
      (LineIndexOf(lines, err.start) < |lines| && lineStart < err.start && lineStart < err.end
       && lineEnd <= |text|) ==> BuildError(err, text, lines).Some?
  {
  }

  /** `ParseErrorReportBuilder::build`: every recorded error mapped in
      order, or nothing when building any one of them panics. */
  function BuildReport(errors: seq<ParseErrorBuilder>, text: string, lines: seq<LineInfo>): (r: Option<ParseErrorReport>)
    ensures r.Some? <==> forall i :: 0 <= i < |errors| ==> BuildError(errors[i], text, lines).Some?
    ensures r.Some? ==> |r.value.errors| == |errors|
    ensures r.Some? ==> forall i :: 0 <= i < |errors| ==> Some(r.value.errors[i]) == BuildError(errors[i], text, lines)
  {
    if errors == [] then Some(ParseErrorReport([]))
    else
      match BuildError(errors[0], text, lines)
      case None => None
      case Some(first) =>
        match BuildReport(errors[1..], text, lines)
        case None =>
          assert forall i :: 1 <= i < |errors| ==> errors[i] == errors[1..][i - 1];
          None
        case Some(rest) => Some(ParseErrorReport([first] + rest.errors))
  }

  /** `ParseErrorReportBuilder`: the append-only list every stage adds to. */
  class ParseErrorReportBuilder {
    var errors: seq<ParseErrorBuilder>

    /** `ParseErrorReportBuilder::new`: no errors. */
    constructor ()
      ensures errors == []
    {
      errors := [];
    }

    /** `is_successful`: nothing was recorded. */
    predicate IsSuccessful()
      reads this
      ensures IsSuccessful() <==> |errors| == 0
    {
      errors == []
    }

    /** `add`: the error goes at the end; nothing is removed. */
    method Add(err: ParseErrorBuilder)
      modifies this
      ensures errors == old(errors) + [err]
    {
      errors := errors + [err];
    }

    /** `build`. */
    function Build(text: string, lines: seq<LineInfo>): (r: Option<ParseErrorReport>)
      reads this
      ensures r.Some? ==> |r.value.errors| == |errors|
      ensures r.Some? ==> forall i :: 0 <= i < |errors| ==> r.value.errors[i].kind == errors[i].kind
    {
      BuildReport(errors, text, lines)
    }
  }
}
