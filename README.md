# A 4-bit accumulator machine and its assembler, in Dafny

This project models the core of a simulator for a small 4-bit accumulator
machine and its assembly language, and proves properties of that model.

**The machine.**
- A `Nibble` is a byte whose low four bits are the value. Bit 3 of the byte
  is the negative flag and bit 4 the carry flag. Additions and subtractions
  store their result untruncated, so the flags of the last operation stay
  readable.
- The `Runtime` holds an accumulator, a register file of fixed size, a
  program of `Command`s and an instruction counter. Each step runs the
  command at the counter. Jumps and branches move the counter; every other
  opcode advances it by one.

**The assembler.** `compile` runs three passes over one shared error report
and one line table.
- The **lexer** makes a single scan that never fails. It emits tokens and
  pushes one line per line feed or `//` comment, plus a last line.
- The **parser** reads one command per line: an optional `label:`, a
  mnemonic and an operand (`#N` or `N` fixed, `(N)` a register address, a
  bare symbol a label). It records errors instead of stopping, and after a
  failure it skips to the end of the line. When the failing operand
  parser has already consumed the line's `NewLine`, that end is the end of
  the following line, so the following line is lost.
- The **resolver** first builds the label table, where the first
  definition wins and a repeat is reported. It then turns each parsed
  command into a `Command`. The opcode comes from the mnemonic and the
  operand's kind; the operand is resolved; the line comes from the line
  table.
- When any pass reported an error, `compile` turns each error into a
  report entry. The entry carries the line number, the line's text and
  offsets relative to that line.

**Form of the model.**
- Pure code is modelled as datatypes and functions: nibble arithmetic,
  tokens, commands, translation and error building.
- State-changing code is modelled as classes and methods with loops, each
  proved against a specification function: the runtime, the line table,
  the error report, the character and token cursors, the lexer and parser
  loops, and the resolver's two loops.
- The lemmas state what the source promises. They also restate the
  repository's own tests as proved facts about the model.

Files, one module each:

| File | Contents |
|---|---|
| `base.dfy` | `Option`/`Result`, ASCII classes, upper-casing, `usize` parsing and formatting |
| `nibble.dfy` | `Nibble` and its arithmetic |
| `backend.dfy` | the machine step and the `Runtime` class |
| `commands.dfy` | `Instruction`, `Command`, its text, and the instruction and attribute tables |
| `token.dfy` | tokens |
| `operant.dfy` | operands and command builders |
| `line_table.dfy` | the line table |
| `errors.dfy` | error kinds, messages, building and the report |
| `lexer.dfy` | `tokenize` |
| `parser.dfy` | `parse_token` |
| `resolver.dfy` | `resolve` |
| `frontend.dfy` | `compile` |
| `backend_tests.dfy`, `lexer_tests.dfy`, `frontend_tests.dfy`, `program_tests.dfy` | the repository's tests as lemmas |

Choices made where the source is incomplete:
- **Instruction-attribute table.** The parser calls
  `get_instruction_attribute`, which the source does not define. The model
  rebuilds it from the resolver's opcode matrix. `AttributeTableAgrees`
  proves the two tables agree.
- **`InvalidToken`.** The parser raises this error kind, but the error
  enumeration lacks it. The model adds it, with the message
  "Invalid token.".
- **Optional operand.** The builder's operand is an `Option`, as the
  parser uses it. NOP skips operand resolution and gets operand 0.
- **`ParseContext`.** It is a record of the text and the error report.

Behaviours of the code worth knowing, which the model keeps:
- `#` or `(` followed by something other than a number is
  `InvalidOperant`.
- The last line-table entry ends at the number of lexer loop iterations.
  Characters that a symbol, number or comment consumes after its first one
  are not counted, so this is not the text length.
- A symbol that reaches the end of the text gets an empty span. A number
  that reaches the end spans only its first digit.
- An error at offset 0 makes building the report panic, in a debug build
  (overflow checks on).
- A mnemonic whose operand is missing at the end of a line (`ADD`,
  `LDA #`, `ADD (` or `ADD (1`) is reported at the line feed, which the
  operand parser consumes. Recovery then skips the whole next line, so
  `ADD\nLDA #1` parses to no command and one `MissingOperant`.

## Model

| member | source | states |
|---|---|---|
| Nibbles.Nibble.GetValue | src/nibble.rs:24-27 | the value is below 16 and congruent to the raw byte modulo 16 (its low four bits) |
| Nibbles.Nibble.HasCarry | src/nibble.rs:29-32 | holds exactly when bit 4 of the raw byte is set |
| Nibbles.Nibble.HasNegative | src/nibble.rs:34-37 | holds exactly when the value is at least 8 |
| Nibbles.Nibble.IsZero | src/nibble.rs:39-42 | holds exactly when the value, not the raw byte, is 0 |
| Nibbles.Nibble.AsUnsigned | src/nibble.rs:44-48 | the value as an integer in 0..15, the raw byte modulo 16 |
| Nibbles.Nibble.ArithmeticComplement | src/nibble.rs:58-60 | lies in 1..16 and added to the value gives 0 modulo 16 (16 for the value 0) |
| Nibbles.Nibble.AsSigned | src/nibble.rs:50-56 | lies in -8..7, is congruent to the value modulo 16, and is negative exactly when the negative flag is set |
| Nibbles.LowMask | src/nibble.rs:25-27 | on every byte, `raw & 0b1111` equals the arithmetic value |
| Nibbles.CarryMask | src/nibble.rs:30-32 | on every byte, `raw & 0b10000 != 0` equals the carry flag |
| Nibbles.NegativeMask | src/nibble.rs:35-37 | on every byte, `raw & 0b1000 != 0` equals the negative flag |
| Nibbles.ComplementMask | src/nibble.rs:58-60 | on every 4-bit value, `(!v & 0b1111) + 1` equals the arithmetic complement |
| Nibbles.LowByte | src/nibble.rs:75-79 | the cast `as u8` keeps the integer modulo 256 |
| Nibbles.FromUsize | src/nibble.rs:75-79 | the raw byte is the operand modulo 256, so high bits can leave flags set; the value is the operand modulo 16 |
| Nibbles.FromU8 | src/nibble.rs:81-85 | the byte is kept unchanged, flags included |
| Nibbles.FromI32 | src/nibble.rs:86-90 | for an `i32`, the raw byte is its two's-complement low byte and the value is the operand modulo 16 |
| Nibbles.Add | src/nibble.rs:110-116 | the raw result is the untruncated sum of the two values; its value is the sum modulo 16; carry holds exactly when the sum reaches 16 |
| Nibbles.Sub | src/nibble.rs:118-124 | the raw result is `a + 16 - b` on values; its value is the difference modulo 16; carry holds exactly when there is no borrow (`a >= b`) |
| Nibbles.Eq | src/nibble.rs:126-130 | two nibbles are equal exactly when their raw bytes agree modulo 16, whatever the flags |
| Nibbles.EqI32 | src/nibble.rs:132-136 | a nibble equals an integer exactly when the integer is in 0..15 and is the value |
| Nibbles.EqIsEquivalence | src/nibble.rs:126-130 | equality is reflexive, symmetric and transitive, and a nibble equals its flag-free value |
| Nibbles.ArithmeticRespectsEq | src/nibble.rs:110-124 | operands that are equal give identical sums and differences, flags included |
| Nibbles.SubInvertsAdd | src/nibble.rs:110-124 | subtracting undoes adding and adding undoes subtracting, on values |
| Nibbles.AddFiveTwo | src/nibble.rs:142-155 | 5 + 2 is 7, signed and unsigned, with no flag set |
| Nibbles.AddSevenOne | src/nibble.rs:157-170 | 7 + 1 is 8 unsigned and -8 signed, negative set, carry clear |
| Nibbles.SubFiveTwo | src/nibble.rs:172-185 | 5 - 2 is 3 with carry set and negative clear |
| Nibbles.SubTwoFour | src/nibble.rs:187-200 | 2 - 4 is 14 unsigned and -2 signed, negative set, carry clear |
| Base.Upper | src/frontend/parser/mod.rs:144-146 | upper-casing keeps the length and maps each ASCII lower-case letter to its capital, leaving every other character unchanged |
| Base.ParseUsize | src/frontend/resolver/mod.rs:119-127 | `parse::<usize>` succeeds on a non-empty digit string of value at most `usize::MAX`, with that value; it fails on the empty string and on a digit string above `usize::MAX`; a success reads the digits after an optional leading `+` |
| Base.NatToString | src/commands.rs:22-61 | the decimal rendering is a non-empty digit string, starting with `0` only for 0 |
| Base.ParseUsizeOfNatToString | src/frontend/resolver/mod.rs:119-127 | parsing the rendering of a `usize` gives it back |
| Base.NatToStringInjective | src/commands.rs:22-61 | different numbers render differently |
| Backend.Initial | src/backend/mod.rs:26-33 | the new machine has accumulator 0, exactly `register_size` zero registers and counter 0 |
| Backend.Step | src/backend/mod.rs:87-140 | one command never changes the number of registers |
| Backend.NextLine | src/backend/mod.rs:35-41 | the line of the command at the counter, or the program length once the counter is past the end |
| Backend.StatusOf | src/backend/mod.rs:79-85 | the status bits are the accumulator's carry, negative and zero flags; zero and negative are never both set |
| Backend.StepAdvances | src/backend/mod.rs:87-140 | every opcode but JMP, BRZ, BRC and BRN advances the counter by exactly one |
| Backend.StepControl | src/backend/mod.rs:110-137 | JMP sets the counter to the operand whatever the flags; a branch adds the operand when its flag is set and 1 otherwise; neither touches the accumulator or the registers |
| Backend.StepStore | src/backend/mod.rs:95-97 | storing writes the accumulator into the named register and changes no other register and not the accumulator |
| Backend.StepAccumulator | src/backend/mod.rs:91-109 | loads, adds and subtracts change only the accumulator, to the operand, the register, or the sum or difference with it |
| Backend.Run | src/backend/test.rs:31-43 | the tests' bounded execution loop ends only with the counter past the program, with the register count unchanged |
| Backend.Runtime.constructor | src/backend/mod.rs:26-33 | the new runtime's state is the initial state of that register count, over the given program |
| Backend.Runtime.GetNextLine | src/backend/mod.rs:35-41 | as `NextLine` on the runtime's counter |
| Backend.Runtime.GetRegisterValue | src/backend/mod.rs:55-57 | the register at the index, which must exist |
| Backend.Runtime.GetRegister | src/backend/mod.rs:75-77 | the whole register file |
| Backend.Runtime.GetStatusBits | src/backend/mod.rs:79-85 | as `StatusOf` on the accumulator |
| Backend.Runtime.LoadIntoAccumulator | src/backend/mod.rs:43-45 | the accumulator becomes the value; the counter is kept |
| Backend.Runtime.SetRegisterValue | src/backend/mod.rs:59-61 | exactly one register is overwritten |
| Backend.Runtime.IncreaseInstructionCounter | src/backend/mod.rs:63-65 | the counter grows by the step; the accumulator is kept |
| Backend.Runtime.SetInstructionCounter | src/backend/mod.rs:67-69 | the counter becomes the value; the accumulator is kept |
| Backend.Runtime.ExecuteCommand | src/backend/mod.rs:87-140 | the new state is `Step` of the old one |
| Backend.Runtime.Tick | src/backend/mod.rs:142-145 | performs `Step`, and reports running exactly when the counter is still inside the program; once it stops, the next line reads as the program length |
| BackendTests.ProcessorTest01 | src/backend/test.rs:4-47 | with seeds 2, 3, 4, 5 and 16 registers the program halts within 100 steps with register 14 equal to 6 and register 15 equal to 8 |
| BackendTests.ProcessorTest02 | src/backend/test.rs:49-93 | with seeds 2, 8, 1, 9 it halts within 100 steps with register 14 equal to 4 and register 15 equal to 1 |
| Commands.Discriminant | src/commands.rs:66-79 | every opcode has a discriminant below 12 |
| Commands.FromDiscriminant | src/commands.rs:66-79 | exactly the discriminants 0..11 name an opcode |
| Commands.DiscriminantBijection | src/commands.rs:66-79 | the discriminant map and its inverse undo each other |
| Commands.DiscriminantInjective | src/commands.rs:66-79 | distinct opcodes have distinct discriminants |
| Commands.NewCommand | src/commands.rs:12-20 | the opcode, operand and line are stored unchanged |
| Commands.Display | src/commands.rs:22-61 | the text starts with the opcode's mnemonic and is exactly the mnemonic for NOP only |
| Commands.DisplayShapes | src/commands.rs:22-61 | immediate opcodes render as `MNEMONIC #n`, register opcodes as `MNEMONIC (n)`, JMP as `JMP n`, NOP as `NOP` |
| Commands.DisplayInjective | src/commands.rs:22-61 | the text determines the opcode, and the operand of every opcode but NOP |
| Commands.Opcode | src/frontend/resolver/mod.rs:130-335 | a legal mnemonic and operand kind pair gives an opcode written with that mnemonic, never NOP, and a register opcode exactly for an address operand |
| Commands.AccumulatorRows | src/frontend/resolver/mod.rs:130-234 | LDA, ADD and SUB take fixed and address operands, with their own opcodes; STA takes only an address; none takes a label |
| Commands.ControlRows | src/frontend/resolver/mod.rs:236-259 | JMP takes a fixed number or a label, never an address; NOP has no operand form |
| Commands.BranchRows | src/frontend/resolver/mod.rs:261-335 | BRZ, BRC and BRN take only a fixed number |
| Commands.AttributeTableAgrees | src/frontend/parser/mod.rs:144-160 | the attribute table has one row per mnemonic, in order; NOP alone allows no operand; every mnemonic allows exactly the operand kinds that have an opcode |
| Commands.GetInstructionAttribute | src/frontend/parser/mod.rs:144-160 | a mnemonic has attributes exactly when it is one of the nine; NOP alone allows no operand; a kind is allowed exactly when the mnemonic has an opcode for it |
| Commands.TableCovers | src/frontend/resolver/mod.rs:80-93 | every opcode but NOP is reachable from its mnemonic, and every mnemonic but NOP accepts some operand form |
| Tokens.NewSingle | src/frontend/lexer/token.rs:22-28 | the span starts at the position and is one character wide |
| Tokens.NewMulti | src/frontend/lexer/token.rs:30-36 | the type and bounds are stored unchanged |
| Tokens.EnsureType | src/frontend/lexer/token.rs:38-48 | gives the token exactly when it has the expected type, and nothing otherwise |
| Tokens.Resolve | src/frontend/lexer/token.rs:50-52 | the text under the span, of length `end - start`, character by character |
| Lines.LineIndexOf | src/frontend/mod.rs:64-71 | the result holds the offset in its closed range and no earlier line does, or it is the number of lines |
| Lines.LineOf | src/frontend/mod.rs:73-80 | the start and end of the first line holding the offset, or `(0, 0)` when no line holds it |
| Lines.LineIndexOfFirst | src/frontend/mod.rs:64-71 | the search never answers past a line that holds the offset |
| Lines.LineIndexOfNone | src/frontend/mod.rs:64-71 | when no line holds the offset the answer is the number of lines |
| Lines.SharedBoundaryToEarlierLine | src/frontend/mod.rs:64-71 | on chained lines, the boundary offset two lines share belongs to the earlier one |
| Lines.LineIndexOfAppend | src/frontend/mod.rs:60-62 | pushing a line keeps every answer that an earlier line gave; an offset no earlier line holds goes to the new line when it holds it |
| Lines.LineTable.constructor | src/frontend/mod.rs:57-59 | the new table is empty |
| Lines.LineTable.Push | src/frontend/mod.rs:60-62 | the line is appended and the earlier lines are kept |
| Lines.LineTable.GetLineIndexOf | src/frontend/mod.rs:64-71 | the linear search returns `LineIndexOf` |
| Lines.LineTable.GetLineOf | src/frontend/mod.rs:73-80 | the linear search returns `LineOf` |
| Errors.Message | src/error.rs:77-94 | every error kind has a sentence ending in a full stop |
| Errors.MessageInjective | src/error.rs:77-94 | different kinds have different sentences |
| Errors.NewError | src/error.rs:120-124 | the kind and span are stored unchanged |
| Errors.BuildError | src/error.rs:103-118 | a built error keeps its kind, is numbered by the first line holding its start, has offsets relative to one past that line's start, and carries that line's text from one past its start; it cannot be built when the start or end lies at or before the line's start |
| Errors.ErrorAtOffsetZeroPanics | src/error.rs:104-111 | an error at offset 0 can never be built, whatever line holds it (the subtraction underflows, which panics in a debug build) |
| Errors.BuildErrorDefinedness | src/error.rs:104-117 | an error outside every line cannot be built; one strictly past its line's start, in a line inside the text, always can |
| Errors.BuildReport | src/error.rs:41-49 | the report maps the errors one to one, in order, and exists exactly when every error can be built |
| Errors.ParseErrorReportBuilder.constructor | src/error.rs:29-31 | the new report is empty |
| Errors.ParseErrorReportBuilder.IsSuccessful | src/error.rs:33-35 | holds exactly when no error was recorded |
| Errors.ParseErrorReportBuilder.Add | src/error.rs:37-39 | the error is appended and nothing is removed |
| Errors.ParseErrorReportBuilder.Build | src/error.rs:41-49 | a built report has one entry per recorded error, with its kind |
| Lexer.SymbolRunEnd | src/frontend/lexer/mod.rs:81-100 | the end of the run of letters and `_`: everything before it continues the symbol and the character at it does not |
| Lexer.DigitRunEnd | src/frontend/lexer/mod.rs:102-123 | the end of the run of ASCII digits, in the same sense |
| Lexer.NextLineFeed | src/frontend/lexer/mod.rs:69-74 | the first line feed at or after the position, or the text length |
| Lexer.CommentNewLine | src/frontend/lexer/mod.rs:65-76 | a `//` comment's `NewLine` sits at or after the second slash, inside the text, and on a line feed unless it is the last character |
| Lexer.ScanChar | src/frontend/lexer/mod.rs:16-50 | one loop iteration moves the cursor forward, counts once, and appends at most one token, keeping the earlier ones |
| Lexer.ScanFrom | src/frontend/lexer/mod.rs:16-50 | the loop reaches the end of the text and counts at most one iteration per character |
| Lexer.SymbolTokenMatches | src/frontend/lexer/mod.rs:81-100 | a symbol token lies inside the text and covers a letter followed by letters and `_`, or nothing |
| Lexer.NumberTokenMatches | src/frontend/lexer/mod.rs:102-123 | a number token lies inside the text and covers only digits |
| Lexer.ScanCharKeeps | src/frontend/lexer/mod.rs:16-50 | one iteration keeps the scan invariant: tokens in the text, in order, matching their text, lines chained |
| Lexer.ScanFromKeeps | src/frontend/lexer/mod.rs:16-50 | the whole loop keeps the scan invariant |
| Lexer.LexClosesScan | src/frontend/lexer/mod.rs:52-58 | after the loop, `End` at the text length closes the tokens and the line from the last line start to the count closes the lines |
| Lexer.Lex | src/frontend/lexer/mod.rs:9-59 | the tokens end with `End` at the text length; the first line starts at 0 and the last ends inside the text |
| Lexer.LexTokens | src/frontend/lexer/mod.rs:9-59 | exactly one `End`, last, at the text length; every other token inside the text, matching its text, at strictly increasing offsets |
| Lexer.LexLines | src/frontend/lexer/mod.rs:9-59 | one line per `NewLine` token plus the last; the first starts at 0 and each starts where the previous one ended |
| Lexer.NextPos | src/frontend/lexer/mod.rs:16-50 | an iteration moves the cursor forward, within the text, and every character it steps over continues the comment, number or symbol its first character began |
| Lexer.TokenAt | src/frontend/lexer/mod.rs:18-47 | an iteration emits nothing exactly on whitespace other than a line feed, and a token away from its own position only for a comment's `NewLine` |
| Lexer.ScanCharAgrees | src/frontend/lexer/mod.rs:16-50 | one loop iteration moves to `NextPos`, emits `TokenAt` and pushes a line exactly on a line feed or a comment |
| Lexer.VisitedFromSteps | src/frontend/lexer/mod.rs:16-50 | the positions the loop visits start at the cursor, each is where the one before stops, and the last stops at the end of the text |
| Lexer.VisitedFromOrdered | src/frontend/lexer/mod.rs:16-50 | no iteration reaches past the start of a later one |
| Lexer.LineBreaksFilters | src/frontend/lexer/mod.rs:23-40 | the line breaks are exactly the visited positions holding a line feed or starting a comment |
| Lexer.ScanFromVisits | src/frontend/lexer/mod.rs:16-50 | the rest of the loop emits the tokens of the positions it visits, pushes a line ending at each break among them, and iterates once per position |
| Lexer.ScanFromTokens | src/frontend/lexer/mod.rs:16-50 | the tokens part of `ScanFromVisits` |
| Lexer.ScanFromLines | src/frontend/lexer/mod.rs:16-50 | the line part of `ScanFromVisits` |
| Lexer.ScanFromCounts | src/frontend/lexer/mod.rs:16-50 | the counter part of `ScanFromVisits` |
| Lexer.LexScansEveryPosition | src/frontend/lexer/mod.rs:9-59 | the tokens are those of the visited positions, in order, then `End`; the lines end at the breaks, then at the iteration count |
| Lexer.LexTokensFromPositions | src/frontend/lexer/mod.rs:9-59 | every token but `End` is the token of one visited position |
| Lexer.VisitedCovers | src/frontend/lexer/mod.rs:16-50 | every character lies in the stretch of one visited position |
| Lexer.ScannedExactly | src/frontend/lexer/mod.rs:16-50 | a character is visited exactly when no earlier iteration steps over it |
| Lexer.VisitedNotSteppedOver | src/frontend/lexer/mod.rs:16-50 | no iteration steps over a visited position |
| Lexer.LexFindsEveryToken | src/frontend/lexer/mod.rs:9-59 | outside comments, every character other than a digit or symbol character, every digit after a non-digit and every letter after a non-symbol character is visited, and the token of a visited position is among the tokens returned |
| Lexer.LastLineEndsAtIterationCount | src/frontend/lexer/mod.rs:52-55 | on `"AB\nC"` the last line ends at 3, the iteration count, not at the length 4 |
| Lexer.CharCursor.constructor | src/frontend/lexer/mod.rs:14 | the cursor starts at the first character |
| Lexer.CharCursor.Peek | src/frontend/lexer/mod.rs:14 | the next character and its index, exactly while some remain |
| Lexer.CharCursor.Next | src/frontend/lexer/mod.rs:16 | yields the character under the cursor and moves past it |
| Lexer.GetSymbol | src/frontend/lexer/mod.rs:81-100 | the cursor stops at the end of the symbol run, and the token is the symbol token of the scan, empty when the run reaches the end of the text |
| Lexer.GetNumber | src/frontend/lexer/mod.rs:102-123 | the cursor stops at the end of the digit run, and the token spans the run, or only the first digit when the run reaches the end of the text |
| Lexer.CheckForComment | src/frontend/lexer/mod.rs:61-79 | a second `/` makes the rest of the line a comment, consumed through its line feed, giving one `NewLine`; a lone `/` is `Invalid` at its position |
| Lexer.TokenizeStep | src/frontend/lexer/mod.rs:16-50 | one loop iteration moves the cursor and state as `ScanChar` does and appends the pushed line to the line table |
| Lexer.Tokenize | src/frontend/lexer/mod.rs:9-59 | returns the tokens of `Lex` and appends its lines to the line table |
| LexerTests.TokenizeTestVector | src/frontend/lexer/test.rs:1-55 | the test text gives the 28 expected tokens and `End`, 29 in all, with the types the test lists; the line table gets six lines and a last line ending at 52 |
| Parser.SkipBlank | src/frontend/parser/mod.rs:40-52 | the cursor moves past every `NewLine` and stops on the first other token |
| Parser.LineBoundary | src/frontend/parser/mod.rs:79-91 | the cursor stops on the next `NewLine` or `End`, not past it |
| Parser.TrailingErrors | src/frontend/parser/mod.rs:56-76 | one `InvalidToken` at each token before the line's end, in order |
| Parser.ParsedFixed | src/frontend/parser/mod.rs:250-270 | moves past exactly one token when there is one; yields a fixed operand exactly on a `Number`; any other token is `InvalidOperant` at it; no token yields nothing and reports nothing |
| Parser.ParsedAddress | src/frontend/parser/mod.rs:272-300 | yields an address operand exactly on a `Number` followed by `)`, consuming both; a token other than a number is `InvalidOperant` at it; a number followed by anything but `)` is `MissingParenthesisClose` at that token; running out of tokens yields nothing and reports nothing |
| Parser.ParsedOperant | src/frontend/parser/mod.rs:167-248 | consumes at least one token when there is one |
| Parser.ParsedOperantSound | src/frontend/parser/mod.rs:167-248 | an operand is of an allowed form, read from a token of the right type; a disallowed form is `InvalidOperant` at its first token; no form is `MissingOperant` there, or at the mnemonic when the tokens ran out |
| Parser.ParsedOperantForms | src/frontend/parser/mod.rs:188-238 | `(N)`, `#N`, `N` and a symbol are each read whole, with the right kind, when allowed |
| Parser.ParsedCommand | src/frontend/parser/mod.rs:135-165 | the cursor never moves backwards or past the end |
| Parser.ParsedCommandSound | src/frontend/parser/mod.rs:135-165 | an unknown mnemonic is `InvalidInstruction` at its span; NOP takes no operand and consumes nothing; every builder is well formed, with the label and mnemonic given |
| Parser.ParsedLabelled | src/frontend/parser/mod.rs:115-127 | the labelled branch consumes the mnemonic it finds |
| Parser.ParsedLabelledMnemonic | src/frontend/parser/mod.rs:118-127 | consumes at least the mnemonic's token when there is one |
| Parser.ParsedLabelledSound | src/frontend/parser/mod.rs:115-127 | after `label:` and blank lines the next token is the mnemonic, or the line is `MissingInstruction` there |
| Parser.ParsedAfterSymbol | src/frontend/parser/mod.rs:112-132 | with no token after the first symbol, nothing is parsed and nothing reported |
| Parser.ParsedLine | src/frontend/parser/mod.rs:93-133 | a line consumes at least one token; with no tokens left it yields nothing and reports nothing |
| Parser.ParsedLineBuilds | src/frontend/parser/mod.rs:93-133 | a line's builder is well formed; its label, if any, is the line's first token, and its mnemonic is the token after the label, colon and blank lines |
| Parser.ParsedLineErrors | src/frontend/parser/mod.rs:100-110 | a line reports only parse errors; a line starting with something other than a symbol is `MissingInstruction` there, except at `End` |
| Parser.ParsedFromAccumulates | src/frontend/parser/mod.rs:16-37 | errors recorded before the loop stay in front of the ones it adds |
| Parser.ParsedFromWellFormed | src/frontend/parser/mod.rs:16-37 | every builder the loop emits is well formed |
| Parser.ParsedFromErrorKinds | src/frontend/parser/mod.rs:16-37 | the loop reports only parse error kinds |
| Parser.ParsedFromInOrder | src/frontend/parser/mod.rs:16-37 | builders come out in source order: their mnemonics' offsets strictly increase |
| Parser.ParsedFrom | src/frontend/parser/mod.rs:16-37 | the loop keeps the builders and errors it started with in front, and adds at most one builder per remaining token |
| Parser.Parse | src/frontend/parser/mod.rs:16-37 | at most one builder per token, every builder well formed, only parse errors |
| Parser.ParseInOrder | src/frontend/parser/mod.rs:16-37 | builders come out in source order |
| Parser.TokenCursor.constructor | src/frontend/parser/mod.rs:21 | the cursor starts at the first token |
| Parser.TokenCursor.Peek | src/frontend/parser/mod.rs:23 | the token under the cursor, exactly while some remain |
| Parser.TokenCursor.Next | src/frontend/parser/mod.rs:101 | yields what `Peek` showed and moves past it, staying put at the end |
| Parser.SkipEmptyLines | src/frontend/parser/mod.rs:40-52 | moves the cursor to `SkipBlank` |
| Parser.RecoverToNextLine | src/frontend/parser/mod.rs:79-91 | moves the cursor to `LineBoundary` |
| Parser.FinishLine | src/frontend/parser/mod.rs:56-76 | moves the cursor to `LineBoundary` and adds `TrailingErrors` |
| Parser.ParseOperantFixed | src/frontend/parser/mod.rs:250-270 | performs `ParsedFixed` on the cursor and the error report |
| Parser.ParseOperantAddress | src/frontend/parser/mod.rs:272-300 | performs `ParsedAddress` |
| Parser.ParseOperant | src/frontend/parser/mod.rs:167-248 | performs `ParsedOperant` |
| Parser.ParseCommand | src/frontend/parser/mod.rs:135-165 | performs `ParsedCommand` |
| Parser.ParseLine | src/frontend/parser/mod.rs:93-133 | performs `ParsedLine` |
| Parser.ParseAfterSymbol | src/frontend/parser/mod.rs:112-132 | performs `ParsedAfterSymbol` |
| Parser.ParseLabelled | src/frontend/parser/mod.rs:115-127 | performs `ParsedLabelled` |
| Parser.ParseLabelledMnemonic | src/frontend/parser/mod.rs:118-127 | performs `ParsedLabelledMnemonic` |
| Parser.ParseToken | src/frontend/parser/mod.rs:16-37 | returns the builders of `Parse` and appends its errors to the report |
| Resolver.LabelPass | src/frontend/resolver/mod.rs:35-48 | every label maps to the index of a builder, and there is at most one error per builder |
| Resolver.LabelPassDefines | src/frontend/resolver/mod.rs:35-48 | the table holds exactly the labels some command defines, each mapped to the index of the first command defining it |
| Resolver.LabelPassCounts | src/frontend/resolver/mod.rs:35-48 | every error is `LabelReassign`, and the errors plus the distinct labels number the labelled builders |
| Resolver.LabelPassReports | src/frontend/resolver/mod.rs:38-43 | a label defined again later is reported at the later label's span |
| Resolver.GetLabelTable | src/frontend/resolver/mod.rs:28-50 | returns the label pass's table and appends its errors to the report |
| Resolver.ResolveOperant | src/frontend/resolver/mod.rs:102-128 | a label resolves exactly when it is in the table; a failure is `MissingLabel` for a label and `InvalidOperant` otherwise, at the operand's span; a number fits a `usize` |
| Resolver.ResolveOperantReads | src/frontend/resolver/mod.rs:102-128 | a number written as the rendering of a `usize` resolves to it, and a known label to its table entry |
| Resolver.Translated | src/frontend/resolver/mod.rs:70-100 | a command gets the line holding its mnemonic; an error lies at the mnemonic or at the operand |
| Resolver.TranslatedSound | src/frontend/resolver/mod.rs:70-100 | a command has the builder's mnemonic, its mnemonic's line and the resolved operand (0 for NOP); operand errors come first; an unknown mnemonic is `InvalidInstruction`; a kind the mnemonic does not take is the matching `NotAllowed*` error at the operand |
| Resolver.TranslatedWellFormed | src/frontend/resolver/mod.rs:70-100 | on a builder the parser emits, translation fails exactly when the operand fails to resolve |
| Resolver.TranslateCommand | src/frontend/resolver/mod.rs:70-100 | returns `Translated`, with the line read from the line table |
| Resolver.TranslateAll | src/frontend/resolver/mod.rs:61-66 | one translation per builder, in order |
| Resolver.Collect | src/frontend/resolver/mod.rs:59-67 | each result gives exactly one command or one error |
| Resolver.CollectInOrder | src/frontend/resolver/mod.rs:59-67 | one output per input, and a prefix of the inputs gives a prefix of the outputs |
| Resolver.CollectPlaces | src/frontend/resolver/mod.rs:61-66 | each result lands right after the outputs of the results before it |
| Resolver.CollectFrom | src/frontend/resolver/mod.rs:61-66 | every command and every error comes from one of the results |
| Resolver.ConvertedErrorKinds | src/frontend/resolver/mod.rs:52-68 | on parsed builders, translation reports only `MissingLabel` and `InvalidOperant` |
| Resolver.ConvertToCommands | src/frontend/resolver/mod.rs:52-68 | returns the collected commands and appends the collected errors to the report |
| Resolver.ResolveProgram | src/frontend/resolver/mod.rs:12-26 | returns the resolved commands and appends label errors, then translation errors |
| Resolver.Resolved | src/frontend/resolver/mod.rs:12-26 | the label errors come first, and there are at most as many commands as builders |
| Resolver.ResolvedCounts | src/frontend/resolver/mod.rs:12-26 | commands plus errors number the builders plus the repeated labels |
| Resolver.ResolvedErrorKinds | src/frontend/resolver/mod.rs:12-26 | on parsed builders the resolver reports only `LabelReassign`, `MissingLabel` and `InvalidOperant` |
| Resolver.CollectWithoutErrors | src/frontend/resolver/mod.rs:59-67 | a pass without errors has one command per result, each that result's |
| Resolver.CollectAllOk | src/frontend/resolver/mod.rs:59-67 | results that are all commands collect into exactly those commands |
| Resolver.ResolvedWithoutErrors | src/frontend/resolver/mod.rs:12-26 | a resolution without errors has command `k` as the translation of builder `k` |
| Resolver.ResolvedFromTranslations | src/frontend/resolver/mod.rs:12-26 | conversely, labels defined once and every builder translating give those commands and no error |
| Frontend.LexedInBounds | src/frontend/mod.rs:38-45 | the lexer's tokens fit the text, so every builder the parser makes is in bounds and well formed |
| Frontend.ParsedProgram | src/frontend/mod.rs:38-39 | the parsed builders are in bounds and well formed |
| Frontend.ResolveParsed | src/frontend/mod.rs:40-45 | resolving the parsed builders returns the resolved commands and appends the resolver's errors |
| Frontend.CompileSpec | src/frontend/mod.rs:34-51 | the text compiles exactly when no pass reports an error, and a failed compile reports as many entries as errors |
| Frontend.Compile | src/frontend/mod.rs:34-51 | running the passes computes `CompileSpec` |
| Frontend.CompiledIffNoErrors | src/frontend/mod.rs:47-50 | a program compiles exactly when neither the parser nor the resolver reports an error, and then command `k` translates parsed line `k` |
| Frontend.FailedReportsAll | src/frontend/mod.rs:47-50 | a failed compile reports every error, parser errors first, with its kind; it panics exactly when some error cannot be built |
| Frontend.CompileErrorKinds | src/frontend/mod.rs:34-51 | the parser's errors come first and are parse kinds, then the resolver's |
| FrontendTests.CompileEmptyProgram | src/frontend/test.rs:51-64 | the empty text compiles to no commands |
| FrontendTests.LexSingleLine | src/frontend/test.rs:36-49 | `ADD #1` lexes to a symbol, `#`, a number and `End`, with one line ending at 4 |
| FrontendTests.ParseSingleLine | src/frontend/test.rs:36-49 | it parses to one builder with an immediate operand and no error |
| FrontendTests.TranslateSingleLine | src/frontend/test.rs:36-49 | that builder translates to `AddFix 1` on line 0 |
| FrontendTests.ResolveSingleLine | src/frontend/test.rs:36-49 | resolving gives `[AddFix 1 @0]` and no error |
| FrontendTests.CompileSingleLine | src/frontend/test.rs:36-49 | `ADD #1` compiles to `[AddFix 1 @0]` |
| FrontendTests.LexTwoOnOneLine | src/frontend/test.rs:66-76 | the lexer's tokens and lines for two instructions on one line |
| FrontendTests.ParseTwoOnOneLine | src/frontend/test.rs:66-76 | the first instruction is parsed, and each of the three tokens of the second is `InvalidToken` |
| FrontendTests.BuildTwoOnOneLine | src/frontend/test.rs:66-76 | the three errors are placed on line 1, at offsets 7, 11 and 12, with its text |
| FrontendTests.ResolveTwoOnOneLine | src/frontend/test.rs:66-76 | the first instruction resolves to `AddFix 2` on line 1 |
| FrontendTests.ParseSwallowsNextLine | src/frontend/parser/mod.rs:16-37 | `ADD\nLDA #1` parses to no command and a single `MissingOperant` at the line feed: the operand parser consumes the line feed (src/frontend/parser/mod.rs:176 and 239-246) and recovery (src/frontend/parser/mod.rs:79-91) skips the `LDA #1` line |
| FrontendTests.CompileTwoOnOneLine | src/frontend/test.rs:66-76 | the text fails to compile, with those three errors |
| ProgramTests.LexProgram | src/frontend/test.rs:5-34 | the lexer's tokens and lines for the labelled program |
| ProgramTests.ParseProgram | src/frontend/test.rs:5-34 | it parses to six builders and no error |
| ProgramTests.ResolveProgramTest | src/frontend/test.rs:5-34 | they resolve to the six expected commands and no error |
| ProgramTests.CompileProgram | src/frontend/test.rs:5-34 | the program compiles to the six commands the test lists, on lines 2 to 7 |

## Left out

- examples/basic.rs, the interactive terminal front end, is not modelled: it is user interface, terminal escape codes and standard-input reads.
- src/lib.rs only re-exports modules and is not modelled.
- `Debug` and `Display` for `Nibble`, the `Into` conversions out of `Nibble`, and the `Debug`/`Clone` derives are not modelled; they are presentation or trivial reads of the value.
- `store_into_register` and `get_instruction_counter` in src/backend/mod.rs are never called and are not modelled.
- Backend.Runtime: an out-of-range `ram[pc]` or `register[r]` panics in the source; here a precondition (`CanExecute`, an index bound) excludes it.
- Backend.Step: its own contract states only that the register count is kept. `StepAdvances`, `StepControl`, `StepStore` and `StepAccumulator` state its effect opcode by opcode.
- Backend.Run: the tests' "too many iterations" panic is modelled as `Run` returning nothing when the step budget runs out.
- Text is ASCII. `is_alphabetic`, `is_whitespace` and `to_uppercase` are restricted to ASCII. The difference between character offsets and the byte length used for `End` does not arise.
- `usize` arithmetic is unbounded in the model except where it matters. `parse::<usize>` rejects values above `usize::MAX` (64-bit), and `as u8` truncates explicitly. Counter and offset overflow past `usize::MAX` is not modelled.
- Errors.BuildError: where `ParseErrorBuilder::build` panics (a slice out of range or a `usize` subtraction below zero), the model returns nothing. This is the debug build, with overflow checks on. In a release build the subtraction wraps around, and only the out-of-range slice panics; that behaviour is not modelled. `compile` then yields `Panicked` instead of crashing.
- Errors.ParseErrorReportBuilder.Build: its own contract states only the entry count and kinds. `BuildReport` states the full one-to-one mapping.
- Parser: Rust's `Peekable` iterators and borrowed `&Token`s are modelled as an index into a sequence of tokens and tokens held by value.
- Resolver: the `HashMap` label table is a Dafny `map` from label text to index.
- Resolver.TranslatedSound: a builder with no operand and a mnemonic other than NOP gets `MissingOperant` at the mnemonic. This case fills a gap: the parser never produces it, and the source's non-optional operand cannot express it.
- `CommandBuilder` is taken by `&mut` in the resolver but never mutated. The model passes it by value.
- `get_instruction_attribute` is not part of the source. The model rebuilds its table from the resolver's opcode matrix.
- The `InvalidToken` message is the model's own, "Invalid token.", because the source has none.
- `ParseContext` is not part of the source. It is modelled as a record of the text and the error report.
- The test `test_compile_optional_operant` (src/frontend/test.rs:78-97) is not modelled. It expects a `JMP` command that is not in its text. Its `NOP` at the end of the text gets an empty symbol span at offset 8 and is reported as an invalid instruction. That offset lies past the last line, which ends at the iteration count 7, so `get_line_of` gives `(0, 0)`, the slice `text[1..0]` panics, and the model's `compile` yields `Panicked`.
