/** The lexer (src/frontend/lexer/mod.rs): one left-to-right pass over the
    characters that never fails.  It emits tokens and records the line
    table, and closes with an `End` token at the text length.

    `ScanChar` is one iteration of the source's outer loop and `Lex` the
    whole pass; `Tokenize` and its helpers are the loops of the source,
    over a shared character cursor, proved to compute `Lex`.  The text is
    ASCII, so a character index is also a byte offset. */
module Lexer {
  import opened Base
  import opened Tokens
  import opened Lines

  /** A character that continues a symbol. */
  predicate IsSymbolChar(c: char) {
    c == '_' || IsAlphabetic(c)
  }

  /** The end of the run of symbol characters starting at `i`. */
  function SymbolRunEnd(text: string, i: nat): (j: nat)
    requires i <= |text|
    ensures i <= j <= |text|
    ensures forall k :: i <= k < j ==> IsSymbolChar(text[k])
    ensures j < |text| ==> !IsSymbolChar(text[j])
    decreases |text| - i
  {
    if i == |text| || !IsSymbolChar(text[i]) then i else SymbolRunEnd(text, i + 1)
  }

  /** The end of the run of decimal digits starting at `i`. */
  function DigitRunEnd(text: string, i: nat): (j: nat)
    requires i <= |text|
    ensures i <= j <= |text|
    ensures forall k :: i <= k < j ==> IsAsciiDigit(text[k])
    ensures j < |text| ==> !IsAsciiDigit(text[j])
    decreases |text| - i
  {
    if i == |text| || !IsAsciiDigit(text[i]) then i else DigitRunEnd(text, i + 1)
  }

  /** The first line feed at or after `i`, or the text length. */
  function NextLineFeed(text: string, i: nat): (j: nat)
    requires i <= |text|
    ensures i <= j <= |text|
    ensures forall k :: i <= k < j ==> text[k] != '\n'
    ensures j < |text| ==> text[j] == '\n'
    decreases |text| - i
  {
    if i == |text| || text[i] == '\n' then i else NextLineFeed(text, i + 1)
  }

  /** The token `get_symbol` returns for a symbol whose first letter is at
      `start`: it spans the run, except that a run reaching the end of the
      text leaves the end where it started, giving an empty span. */
  function SymbolToken(text: string, start: nat): Token
    requires start < |text|
  {
    var j := SymbolRunEnd(text, start + 1);
    NewMulti(Symbol, start, if j < |text| then j else start)
  }

  /** The token `get_number` returns for a number whose first digit is at
      `start`: it spans the run, except that a run reaching the end of the
      text covers only its first digit. */
  function NumberToken(text: string, start: nat): Token
    requires start < |text|
  {
    var j := DigitRunEnd(text, start + 1);
    NewMulti(Number, start, if j < |text| then j else start + 1)
  }

  /** Where the `NewLine` token of a `//` comment starting at `slash` sits:
      the line feed that closes the comment, or the last character of the
      text when none does. */
  function CommentNewLine(text: string, slash: nat): (p: nat)
    requires slash + 1 < |text|
    ensures slash + 1 <= p < |text|
    ensures p + 1 < |text| ==> text[p] == '\n'
  {
    var j := NextLineFeed(text, slash + 2);
    if j < |text| then j else |text| - 1
  }

  /** What the outer loop holds between iterations: the cursor position,
      where the current line started, the iteration count, and what it has
      emitted and recorded so far. */
  datatype LexState = LexState(
    pos: nat,
    lineStart: nat,
    counter: nat,
    tokens: seq<Token>,
    lines: seq<LineInfo>)

  /** The state after an iteration that emits `t` and moves the cursor to
      `pos`. */
  function Emit(st: LexState, t: Token, pos: nat): (next: LexState)
    ensures next.tokens == st.tokens + [t] && next.lines == st.lines && next.pos == pos
  {
    st.(pos := pos, counter := st.counter + 1, tokens := st.tokens + [t])
  }

  /** One iteration of the outer loop of `tokenize`, on the character at the
      cursor.  `counter` goes up once per iteration, however many characters
      the iteration consumes. */
  function ScanChar(text: string, st: LexState): (next: LexState)
    requires st.pos < |text|
    ensures st.pos < next.pos <= |text|
    ensures next.counter == st.counter + 1
    ensures |st.tokens| <= |next.tokens| <= |st.tokens| + 1 && next.tokens[..|st.tokens|] == st.tokens
  {
    var i, c := st.pos, text[st.pos];
    var counter := st.counter + 1;
    if c == '#' then Emit(st, NewSingle(Hash, i), i + 1)
    else if c == '(' then Emit(st, NewSingle(ParenthesisOpen, i), i + 1)
    else if c == ')' then Emit(st, NewSingle(ParenthesisClose, i), i + 1)
    else if c == ':' then Emit(st, NewSingle(Colon, i), i + 1)
    else if c == '\n' then
      LexState(i + 1, i, counter, st.tokens + [NewSingle(NewLine, i)], st.lines + [LineInfo(st.lineStart, i)])
    else if c == '/' then
      if i + 1 < |text| && text[i + 1] == '/' then
        var p := CommentNewLine(text, i);
        LexState(p + 1, i, counter, st.tokens + [NewSingle(NewLine, p)], st.lines + [LineInfo(st.lineStart, i)])
      else Emit(st, NewSingle(Invalid, i), i + 1)
    else if IsAsciiDigit(c) then Emit(st, NumberToken(text, i), DigitRunEnd(text, i + 1))
    else if IsAlphabetic(c) then Emit(st, SymbolToken(text, i), SymbolRunEnd(text, i + 1))
    else if IsWhitespace(c) then st.(pos := i + 1, counter := counter)
    else Emit(st, NewSingle(Invalid, i), i + 1)
  }

  /** The outer loop run to the end of the text. */
  function ScanFrom(text: string, st: LexState): (last: LexState)
    requires st.pos <= |text|
    ensures last.pos == |text|
    ensures st.counter <= last.counter <= st.counter + |text| - st.pos
    decreases |text| - st.pos
  {
    if st.pos == |text| then st else ScanFrom(text, ScanChar(text, st))
  }

  /** What `tokenize` returns and what it pushes to the line table. */
  datatype Lexed = Lexed(tokens: seq<Token>, lines: seq<LineInfo>)

  /** `tokenize`: the scan, then the last line `[line_start, counter]` and
      the `End` token at the text length.  There is always a line; the
      first starts at offset 0 and the last ends within the text. */
  function Lex(text: string): (r: Lexed)
    ensures |r.tokens| >= 1 && r.tokens[|r.tokens| - 1] == NewSingle(End, |text|)
    ensures |r.lines| >= 1 && r.lines[0].start == 0 && r.lines[|r.lines| - 1].end <= |text|
  {
    ScanFromKeeps(text, LexState(0, 0, 0, [], []));
    var last := ScanFrom(text, LexState(0, 0, 0, [], []));
    Lexed(last.tokens + [NewSingle(End, |text|)], last.lines + [LineInfo(last.lineStart, last.counter)])
  }

  /** The number of `NewLine` tokens in a list. */
  function CountNewLines(tokens: seq<Token>): nat {
    if tokens == [] then 0
    else CountNewLines(tokens[..|tokens| - 1]) + if tokens[|tokens| - 1].tokenType == NewLine then 1 else 0
  }

  /** A symbol's text: empty, or a letter followed by letters and `_`. */
  predicate IsSymbolText(s: string) {
    s == [] || (IsAlphabetic(s[0]) && forall k :: 1 <= k < |s| ==> IsSymbolChar(s[k]))
  }

  /** The text under a scanned token agrees with its type. */
  predicate TokenMatchesText(text: string, t: Token)
    requires InBounds(t, |text|)
  {
    match t.tokenType
    case Hash => t.end == t.start + 1 && text[t.start] == '#'
    case ParenthesisOpen => t.end == t.start + 1 && text[t.start] == '('
    case ParenthesisClose => t.end == t.start + 1 && text[t.start] == ')'
    case Colon => t.end == t.start + 1 && text[t.start] == ':'
    case NewLine => t.end == t.start + 1 && (text[t.start] == '\n' || t.start + 1 == |text|)
    case Number => t.start < t.end && AllDigits(text[t.start..t.end])
    case Symbol => IsSymbolText(text[t.start..t.end])
    case Invalid =>
      t.end == t.start + 1 && !IsAsciiDigit(text[t.start]) && !IsAlphabetic(text[t.start])
        && (text[t.start] == '/' || !IsWhitespace(text[t.start]))
    case End => false
  }

  /** What holds of the scan state after every iteration: the tokens lie in
      the text in strictly increasing order before the cursor, none is
      `End`, each agrees with its text, there is one recorded line per
      `NewLine` token, and the lines chain from offset 0 to `lineStart`. */
  predicate ScanInvariant(text: string, st: LexState) {
    && st.pos <= |text|
    && st.counter <= st.pos
    && (forall k :: 0 <= k < |st.tokens| ==>
         InBounds(st.tokens[k], |text|) && st.tokens[k].start < st.pos
         && TokenMatchesText(text, st.tokens[k]))
    && (forall k, m :: 0 <= k < m < |st.tokens| ==> st.tokens[k].start < st.tokens[m].start)
    && |st.lines| == CountNewLines(st.tokens)
    && Chained(st.lines, st.lineStart)
  }

  /** Lines that start at 0, each starting where the previous one ended,
      the last one ending at `last`. */
  predicate Chained(lines: seq<LineInfo>, last: nat) {
    && (lines == [] ==> last == 0)
    && (lines != [] ==> lines[0].start == 0 && lines[|lines| - 1].end == last)
    && forall k :: 0 <= k < |lines| - 1 ==> lines[k].end == lines[k + 1].start
  }

  /** A single-character token at the cursor keeps the invariant. */
  lemma EmitSingleKeeps(text: string, st: LexState, t: Token)
    requires ScanInvariant(text, st) && st.pos < |text|
    requires t.start == st.pos && t.end == st.pos + 1 && t.tokenType != NewLine
    requires TokenMatchesText(text, t)
    ensures ScanInvariant(text, Emit(st, t, st.pos + 1))
  {
    var ts := st.tokens + [t];
    assert ts[..|ts| - 1] == st.tokens;
  }

  /** A multi-character token starting at the cursor keeps the invariant. */
  lemma EmitRunKeeps(text: string, st: LexState, t: Token, pos: nat)
    requires ScanInvariant(text, st) && st.pos < pos <= |text|
    requires t.start == st.pos && InBounds(t, |text|) && t.tokenType in {Number, Symbol}
    requires TokenMatchesText(text, t)
    ensures ScanInvariant(text, Emit(st, t, pos))
  {
    var ts := st.tokens + [t];
    assert ts[..|ts| - 1] == st.tokens;
  }

  /** A `NewLine` token together with its recorded line keeps the
      invariant. */
  lemma EmitNewLineKeeps(text: string, st: LexState, at: nat, boundary: nat, pos: nat)
    requires ScanInvariant(text, st) && st.pos <= boundary <= at < pos <= |text|
    requires TokenMatchesText(text, NewSingle(NewLine, at)) && at < |text|
    ensures ScanInvariant(text, LexState(pos, boundary, st.counter + 1,
      st.tokens + [NewSingle(NewLine, at)], st.lines + [LineInfo(st.lineStart, boundary)]))
  {
    var ts := st.tokens + [NewSingle(NewLine, at)];
    assert ts[..|ts| - 1] == st.tokens;
  }

  /** Every symbol token the scan emits reads as a symbol. */
  lemma SymbolTokenMatches(text: string, i: nat)
    requires i < |text| && IsAlphabetic(text[i])
    ensures InBounds(SymbolToken(text, i), |text|) && TokenMatchesText(text, SymbolToken(text, i))
  {
    var t := SymbolToken(text, i);
    var s := text[t.start..t.end];
    if s != [] {
      assert s[0] == text[i];
      assert forall k :: 1 <= k < |s| ==> s[k] == text[i + k];
    }
  }

  /** Every number token the scan emits reads as digits. */
  lemma NumberTokenMatches(text: string, i: nat)
    requires i < |text| && IsAsciiDigit(text[i])
    ensures InBounds(NumberToken(text, i), |text|) && TokenMatchesText(text, NumberToken(text, i))
  {
    var t := NumberToken(text, i);
    var s := text[t.start..t.end];
    assert forall k :: 0 <= k < |s| ==> s[k] == text[i + k];
  }

  /** One iteration keeps the invariant. */
  lemma ScanCharKeeps(text: string, st: LexState)
    requires ScanInvariant(text, st) && st.pos < |text|
    ensures ScanInvariant(text, ScanChar(text, st))
  {
    var i, c := st.pos, text[st.pos];
    var next := ScanChar(text, st);
    if c in "#():" {
      var t := NewSingle(if c == '#' then Hash else if c == '(' then ParenthesisOpen
        else if c == ')' then ParenthesisClose else Colon, i);
      assert next == Emit(st, t, i + 1);
      EmitSingleKeeps(text, st, t);
    } else if c == '\n' || c == '/' {
      ScanLineKeeps(text, st);
    } else {
      ScanOtherKeeps(text, st);
    }
  }

  /** The same, for a line feed or a slash. */
  lemma ScanLineKeeps(text: string, st: LexState)
    requires ScanInvariant(text, st) && st.pos < |text|
    requires text[st.pos] == '\n' || text[st.pos] == '/'
    ensures ScanInvariant(text, ScanChar(text, st))
  {
    var i, c := st.pos, text[st.pos];
    var next := ScanChar(text, st);
    if c == '\n' {
      assert next == LexState(i + 1, i, st.counter + 1, st.tokens + [NewSingle(NewLine, i)],
        st.lines + [LineInfo(st.lineStart, i)]);
      EmitNewLineKeeps(text, st, i, i, i + 1);
    } else if i + 1 < |text| && text[i + 1] == '/' {
      var p := CommentNewLine(text, i);
      assert next == LexState(p + 1, i, st.counter + 1, st.tokens + [NewSingle(NewLine, p)],
        st.lines + [LineInfo(st.lineStart, i)]);
      EmitNewLineKeeps(text, st, p, i, p + 1);
    } else {
      assert next == Emit(st, NewSingle(Invalid, i), i + 1);
      EmitSingleKeeps(text, st, NewSingle(Invalid, i));
    }
  }

  /** The same, for a digit, a letter, whitespace or another character. */
  lemma ScanOtherKeeps(text: string, st: LexState)
    requires ScanInvariant(text, st) && st.pos < |text|
    requires text[st.pos] !in "#():\n/"
    ensures ScanInvariant(text, ScanChar(text, st))
  {
    var i, c := st.pos, text[st.pos];
    var next := ScanChar(text, st);
    if IsAsciiDigit(c) {
      assert next == Emit(st, NumberToken(text, i), DigitRunEnd(text, i + 1));
      NumberTokenMatches(text, i);
      EmitRunKeeps(text, st, NumberToken(text, i), DigitRunEnd(text, i + 1));
    } else if IsAlphabetic(c) {
      assert next == Emit(st, SymbolToken(text, i), SymbolRunEnd(text, i + 1));
      SymbolTokenMatches(text, i);
      EmitRunKeeps(text, st, SymbolToken(text, i), SymbolRunEnd(text, i + 1));
    } else if IsWhitespace(c) {
      assert next == st.(pos := i + 1, counter := st.counter + 1);
    } else {
      assert next == Emit(st, NewSingle(Invalid, i), i + 1);
      EmitSingleKeeps(text, st, NewSingle(Invalid, i));
    }
  }

  /** The whole scan keeps the invariant. */
  lemma {:induction false} ScanFromKeeps(text: string, st: LexState)
    requires ScanInvariant(text, st)
    ensures ScanInvariant(text, ScanFrom(text, st))
    decreases |text| - st.pos
  {
    if st.pos < |text| {
      ScanCharKeeps(text, st);
      ScanFromKeeps(text, ScanChar(text, st));
    }
  }

  /** The scan from the start keeps the invariant, and `Lex` closes its
      tokens with `End` and its lines with the last line. */
  lemma LexClosesScan(text: string)
    ensures var last := ScanFrom(text, LexState(0, 0, 0, [], []));
      && ScanInvariant(text, last)
      && Lex(text).tokens == last.tokens + [Token(End, |text|, |text| + 1)]
      && Lex(text).lines == last.lines + [LineInfo(last.lineStart, last.counter)]
  {
    ScanFromKeeps(text, LexState(0, 0, 0, [], []));
  }

  /** The tokens of `Lex`: `End` last, every other token inside the text,
      not `End`, agreeing with the text, in strictly increasing order. */
  lemma LexTokens(text: string)
    ensures var r := Lex(text);
      && |r.tokens| >= 1
      && r.tokens[|r.tokens| - 1] == Token(End, |text|, |text| + 1)
      && (forall k :: 0 <= k < |r.tokens| - 1 ==>
           r.tokens[k].tokenType != End && InBounds(r.tokens[k], |text|)
           && TokenMatchesText(text, r.tokens[k]))
      && (forall k, m :: 0 <= k < m < |r.tokens| ==> r.tokens[k].start < r.tokens[m].start)
  {
    LexClosesScan(text);
    var last := ScanFrom(text, LexState(0, 0, 0, [], []));
    var r := Lex(text);
    forall k | 0 <= k < |r.tokens| - 1
      ensures r.tokens[k].tokenType != End && InBounds(r.tokens[k], |text|)
      ensures TokenMatchesText(text, r.tokens[k])
    {
      assert r.tokens[k] == last.tokens[k];
      assert TokenMatchesText(text, last.tokens[k]);
    }
    forall k, m | 0 <= k < m < |r.tokens|
      ensures r.tokens[k].start < r.tokens[m].start
    {
      if m < |r.tokens| - 1 {
        assert r.tokens[k] == last.tokens[k] && r.tokens[m] == last.tokens[m];
      } else {
        assert r.tokens[k] == last.tokens[k];
      }
    }
  }

  /** The lines of `Lex`: one per `NewLine` token plus the last one,
      chained from offset 0. */
  lemma LexLines(text: string)
    ensures var r := Lex(text);
      && |r.lines| == CountNewLines(r.tokens) + 1
      && r.lines[0].start == 0
      && (forall k :: 0 <= k < |r.lines| - 1 ==> r.lines[k].end == r.lines[k + 1].start)
  {
    LexClosesScan(text);
    var last := ScanFrom(text, LexState(0, 0, 0, [], []));
    var r := Lex(text);
    assert r.tokens[..|r.tokens| - 1] == last.tokens;
    assert Chained(last.lines, last.lineStart);
  }

  /** The final line ends at the number of loop iterations, not at the text
      length: characters a symbol, a number or a comment consumes after its
      first one are not counted.  For `"AB\nC"` the second line is recorded
      as `[2, 3]` though the text has four characters. */
  lemma LastLineEndsAtIterationCount()
    ensures Lex("AB\nC").lines == [LineInfo(0, 2), LineInfo(2, 3)]
  {
  }

  /** A `//` comment starts at `i`. */
  predicate IsCommentStart(text: string, i: nat) {
    i + 1 < |text| && text[i] == '/' && text[i + 1] == '/'
  }

  /** An iteration at `i` ends a line: a line feed, or a comment, whose
      line ends at its first `/`. */
  predicate BreaksLine(text: string, i: nat)
    requires i < |text|
  {
    text[i] == '\n' || IsCommentStart(text, i)
  }

  /** Where the cursor stands after an iteration of the outer loop that
      starts at `i`: past the digits of a number, past the letters and `_`
      of a symbol, past the line feed that closes a comment, and otherwise
      past the one character.  Every character an iteration steps over
      continues what its first character began. */
  function NextPos(text: string, i: nat): (j: nat)
    requires i < |text|
    ensures i < j <= |text|
    ensures forall k :: i < k < j ==>
      || IsCommentStart(text, i)
      || (IsAsciiDigit(text[i]) && IsAsciiDigit(text[k]))
      || (IsAlphabetic(text[i]) && IsSymbolChar(text[k]))
  {
    if IsCommentStart(text, i) then CommentNewLine(text, i) + 1
    else if IsAsciiDigit(text[i]) then DigitRunEnd(text, i + 1)
    else if IsAlphabetic(text[i]) then SymbolRunEnd(text, i + 1)
    else i + 1
  }

  /** The token an iteration at `i` emits, if any: the punctuation or line
      feed itself, a single `NewLine` for a whole comment, the number or
      symbol that starts there, nothing for whitespace, and `Invalid` for
      any other character, a lone `/` among them.  Only a comment's token
      does not start at `i`. */
  function TokenAt(text: string, i: nat): (t: Option<Token>)
    requires i < |text|
    ensures t.None? <==> IsWhitespace(text[i]) && text[i] != '\n'
    ensures t.Some? && t.value.start != i ==> IsCommentStart(text, i) && t.value.tokenType == NewLine
  {
    var c := text[i];
    if c == '#' then Some(NewSingle(Hash, i))
    else if c == '(' then Some(NewSingle(ParenthesisOpen, i))
    else if c == ')' then Some(NewSingle(ParenthesisClose, i))
    else if c == ':' then Some(NewSingle(Colon, i))
    else if c == '\n' then Some(NewSingle(NewLine, i))
    else if IsCommentStart(text, i) then Some(NewSingle(NewLine, CommentNewLine(text, i)))
    else if IsAsciiDigit(c) then Some(NumberToken(text, i))
    else if IsAlphabetic(c) then Some(SymbolToken(text, i))
    else if IsWhitespace(c) then None
    else Some(NewSingle(Invalid, i))
  }

  /** The token of an iteration as a list of none or one. */
  function Emitted(t: Option<Token>): seq<Token> {
    if t.Some? then [t.value] else []
  }

  /** The state after the iteration at the cursor, as `NextPos`,
      `TokenAt` and `BreaksLine` describe it. */
  function Advanced(text: string, st: LexState): LexState
    requires st.pos < |text|
  {
    var i := st.pos;
    LexState(
      NextPos(text, i),
      if BreaksLine(text, i) then i else st.lineStart,
      st.counter + 1,
      st.tokens + Emitted(TokenAt(text, i)),
      st.lines + (if BreaksLine(text, i) then [LineInfo(st.lineStart, i)] else []))
  }

  /** An iteration of the loop is the step `NextPos` and `TokenAt`
      describe, and records a line exactly where `BreaksLine` holds. */
  lemma ScanCharAgrees(text: string, st: LexState)
    requires st.pos < |text|
    ensures ScanChar(text, st) == Advanced(text, st)
  {
    var c := text[st.pos];
    if c in "#():\n" {
    } else if c == '/' {
    } else if IsAsciiDigit(c) {
    } else if IsAlphabetic(c) {
    }
  }

  /** The positions where the iterations start, from `i` on: each the
      position the one before it stops at, the last stopping at the end of
      the text. */
  function VisitedFrom(text: string, i: nat): (vs: seq<nat>)
    requires i <= |text|
    ensures |vs| == 0 <==> i == |text|
    ensures forall k :: 0 <= k < |vs| ==> i <= vs[k] < |text|
    decreases |text| - i
  {
    if i == |text| then []
    else
      var rest := VisitedFrom(text, NextPos(text, i));
      assert forall k :: 1 <= k < |rest| + 1 ==> ([i] + rest)[k] == rest[k - 1];
      [i] + rest
  }

  /** The visited positions start at `i`, each is where the one before it
      stops, and the last stops at the end of the text. */
  lemma {:induction false} VisitedFromSteps(text: string, i: nat)
    requires i <= |text|
    ensures var vs := VisitedFrom(text, i);
      && (vs != [] ==> vs[0] == i && NextPos(text, vs[|vs| - 1]) == |text|)
      && (forall a, b :: 0 <= a < |vs| - 1 && b == a + 1 ==> vs[b] == NextPos(text, vs[a]))
    decreases |text| - i
  {
    if i < |text| {
      var vs := VisitedFrom(text, i);
      var rest := VisitedFrom(text, NextPos(text, i));
      VisitedFromSteps(text, NextPos(text, i));
      assert vs == [i] + rest;
      forall a, b | 0 <= a < |vs| - 1 && b == a + 1
        ensures vs[b] == NextPos(text, vs[a])
      {
        if a > 0 {
          assert vs[a] == rest[a - 1] && vs[b] == rest[b - 1];
        }
      }
      if rest != [] {
        assert vs[|vs| - 1] == rest[|rest| - 1];
      }
    }
  }

  /** No iteration reaches past the start of a later one, so the visited
      positions strictly increase. */
  lemma {:induction false} VisitedFromOrdered(text: string, i: nat)
    requires i <= |text|
    ensures forall a, b :: 0 <= a < b < |VisitedFrom(text, i)| ==>
      NextPos(text, VisitedFrom(text, i)[a]) <= VisitedFrom(text, i)[b]
    decreases |text| - i
  {
    if i < |text| {
      var vs := VisitedFrom(text, i);
      var rest := VisitedFrom(text, NextPos(text, i));
      VisitedFromOrdered(text, NextPos(text, i));
      assert vs == [i] + rest;
      forall a, b | 0 <= a < b < |vs|
        ensures NextPos(text, vs[a]) <= vs[b]
      {
        assert vs[b] == rest[b - 1];
        if a > 0 {
          assert vs[a] == rest[a - 1];
          assert NextPos(text, rest[a - 1]) <= rest[b - 1];
        } else {
          assert vs[a] == i;
          assert NextPos(text, i) <= rest[b - 1];
        }
      }
    }
  }

  /** The positions where the iterations of `tokenize` start. */
  function Scanned(text: string): seq<nat> {
    VisitedFrom(text, 0)
  }

  /** The tokens the iterations at `vs` emit, in order. */
  function TokensAt(text: string, vs: seq<nat>): seq<Token>
    requires forall k :: 0 <= k < |vs| ==> vs[k] < |text|
  {
    if vs == [] then [] else Emitted(TokenAt(text, vs[0])) + TokensAt(text, vs[1..])
  }

  /** The positions among `vs` where a line ends, in order. */
  function LineBreaks(text: string, vs: seq<nat>): (breaks: seq<nat>)
    requires forall k :: 0 <= k < |vs| ==> vs[k] < |text|
    ensures |breaks| <= |vs|
  {
    if vs == [] then []
    else (if BreaksLine(text, vs[0]) then [vs[0]] else []) + LineBreaks(text, vs[1..])
  }

  /** The breaks are exactly the positions of `vs` that end a line. */
  lemma {:induction false} LineBreaksFilters(text: string, vs: seq<nat>)
    requires forall k :: 0 <= k < |vs| ==> vs[k] < |text|
    ensures forall k :: 0 <= k < |LineBreaks(text, vs)| ==>
      LineBreaks(text, vs)[k] in vs && BreaksLine(text, LineBreaks(text, vs)[k])
    ensures forall v :: v in vs && BreaksLine(text, v) ==> v in LineBreaks(text, vs)
  {
    if vs != [] {
      LineBreaksFilters(text, vs[1..]);
      var head := if BreaksLine(text, vs[0]) then [vs[0]] else [];
      var breaks := LineBreaks(text, vs);
      assert breaks == head + LineBreaks(text, vs[1..]);
      forall k | 0 <= k < |breaks|
        ensures breaks[k] in vs && BreaksLine(text, breaks[k])
      {
        if k >= |head| {
          assert breaks[k] == LineBreaks(text, vs[1..])[k - |head|];
          assert breaks[k] in vs[1..];
        }
      }
      forall v | v in vs && BreaksLine(text, v)
        ensures v in breaks
      {
        if v != vs[0] {
          var k :| 0 <= k < |vs| && vs[k] == v;
          assert v in vs[1..] by { assert vs[1..][k - 1] == v; }
        }
      }
    }
  }

  /** The end offsets of a list of lines. */
  function LineEnds(lines: seq<LineInfo>): (ends: seq<nat>)
    ensures |ends| == |lines|
  {
    if lines == [] then [] else [lines[0].end] + LineEnds(lines[1..])
  }

  /** Each entry is the end of the line at the same index. */
  lemma {:induction false} LineEndsAt(lines: seq<LineInfo>)
    ensures forall k :: 0 <= k < |lines| ==> LineEnds(lines)[k] == lines[k].end
  {
    if lines != [] {
      LineEndsAt(lines[1..]);
      assert forall k :: 1 <= k < |lines| ==> LineEnds(lines)[k] == LineEnds(lines[1..])[k - 1];
    }
  }

  lemma {:induction false} LineEndsAppend(a: seq<LineInfo>, b: seq<LineInfo>)
    ensures LineEnds(a + b) == LineEnds(a) + LineEnds(b)
  {
    if a == [] {
      assert a + b == b;
    } else {
      LineEndsAppend(a[1..], b);
      assert (a + b)[0] == a[0] && (a + b)[1..] == a[1..] + b;
    }
  }

  /** The rest of the scan from any state emits the tokens of the positions
      it visits and records a line at each break among them, one iteration
      per position. */
  lemma ScanFromVisits(text: string, st: LexState)
    requires st.pos <= |text|
    ensures var last := ScanFrom(text, st);
      var vs := VisitedFrom(text, st.pos);
      && last.tokens == st.tokens + TokensAt(text, vs)
      && LineEnds(last.lines) == LineEnds(st.lines) + LineBreaks(text, vs)
      && last.counter == st.counter + |vs|
  {
    ScanFromTokens(text, st);
    ScanFromLines(text, st);
    ScanFromCounts(text, st);
  }

  /** The scan from a state that has not reached the end is the scan from
      the state after one iteration. */
  lemma ScanFromAdvances(text: string, st: LexState)
    requires st.pos < |text|
    ensures ScanFrom(text, st) == ScanFrom(text, Advanced(text, st))
  {
    ScanCharAgrees(text, st);
  }

  lemma {:induction false} ScanFromTokens(text: string, st: LexState)
    requires st.pos <= |text|
    ensures ScanFrom(text, st).tokens == st.tokens + TokensAt(text, VisitedFrom(text, st.pos))
    decreases |text| - st.pos
  {
    if st.pos < |text| {
      var i := st.pos;
      var next := Advanced(text, st);
      ScanFromAdvances(text, st);
      ScanFromTokens(text, next);
      var rest := VisitedFrom(text, next.pos);
      VisitedStep(text, i, rest);
    }
  }

  lemma {:induction false} ScanFromLines(text: string, st: LexState)
    requires st.pos <= |text|
    ensures LineEnds(ScanFrom(text, st).lines) == LineEnds(st.lines) + LineBreaks(text, VisitedFrom(text, st.pos))
    decreases |text| - st.pos
  {
    if st.pos < |text| {
      var i := st.pos;
      var next := Advanced(text, st);
      ScanFromAdvances(text, st);
      ScanFromLines(text, next);
      var rest := VisitedFrom(text, next.pos);
      VisitedStep(text, i, rest);
      var added := if BreaksLine(text, i) then [LineInfo(st.lineStart, i)] else [];
      LineEndsAppend(st.lines, added);
      assert LineEnds(added) == if BreaksLine(text, i) then [i] else [];
    }
  }

  lemma {:induction false} ScanFromCounts(text: string, st: LexState)
    requires st.pos <= |text|
    ensures ScanFrom(text, st).counter == st.counter + |VisitedFrom(text, st.pos)|
    decreases |text| - st.pos
  {
    if st.pos < |text| {
      var next := Advanced(text, st);
      ScanFromAdvances(text, st);
      ScanFromCounts(text, next);
      VisitedStep(text, st.pos, VisitedFrom(text, next.pos));
    }
  }

  /** The positions visited from `i` are `i` and those visited from where
      its iteration stops; their tokens and breaks follow suit. */
  lemma VisitedStep(text: string, i: nat, rest: seq<nat>)
    requires i < |text| && rest == VisitedFrom(text, NextPos(text, i))
    ensures VisitedFrom(text, i) == [i] + rest
    ensures TokensAt(text, [i] + rest) == Emitted(TokenAt(text, i)) + TokensAt(text, rest)
    ensures LineBreaks(text, [i] + rest) == (if BreaksLine(text, i) then [i] else []) + LineBreaks(text, rest)
  {
    assert ([i] + rest)[1..] == rest;
  }

  /** The whole of `Lex` in terms of the visited positions: the tokens are
      those of the positions, in order, then `End`; a line ends at each line
      feed and comment the scan reaches, and the last one at the number of
      iterations. */
  lemma LexScansEveryPosition(text: string)
    ensures var r := Lex(text);
      var vs := Scanned(text);
      && r.tokens == TokensAt(text, vs) + [NewSingle(End, |text|)]
      && LineEnds(r.lines) == LineBreaks(text, vs) + [|vs|]
  {
    var last := ScanFrom(text, LexState(0, 0, 0, [], []));
    ScanFromVisits(text, LexState(0, 0, 0, [], []));
    LineEndsAppend(last.lines, [LineInfo(last.lineStart, last.counter)]);
  }

  /** Every token but `End` is the token of the iteration at one visited
      position: none starts inside a run or a comment but the comment's own
      `NewLine`. */
  lemma LexTokensFromPositions(text: string)
    ensures var r := Lex(text);
      forall m :: 0 <= m < |r.tokens| - 1 ==>
        exists j :: j in Scanned(text) && TokenAt(text, j) == Some(r.tokens[m])
  {
    var r := Lex(text);
    var vs := Scanned(text);
    LexScansEveryPosition(text);
    forall m | 0 <= m < |r.tokens| - 1
      ensures exists j :: j in vs && TokenAt(text, j) == Some(r.tokens[m])
    {
      assert r.tokens[m] == TokensAt(text, vs)[m];
      TokensAtFrom(text, vs, m);
    }
  }

  /** Each of the tokens emitted at `vs` is the token of one of them. */
  lemma {:induction false} TokensAtFrom(text: string, vs: seq<nat>, m: nat)
    requires forall k :: 0 <= k < |vs| ==> vs[k] < |text|
    requires m < |TokensAt(text, vs)|
    ensures exists j :: j in vs && TokenAt(text, j) == Some(TokensAt(text, vs)[m])
  {
    var first := Emitted(TokenAt(text, vs[0]));
    if m < |first| {
      assert TokenAt(text, vs[0]) == Some(TokensAt(text, vs)[m]);
    } else {
      TokensAtFrom(text, vs[1..], m - |first|);
      var j :| j in vs[1..] && TokenAt(text, j) == Some(TokensAt(text, vs[1..])[m - |first|]);
      assert j in vs;
    }
  }

  /** The token of every visited position is among the tokens emitted at
      `vs`. */
  lemma {:induction false} TokensAtHas(text: string, vs: seq<nat>, j: nat)
    requires forall k :: 0 <= k < |vs| ==> vs[k] < |text|
    requires j in vs && TokenAt(text, j).Some?
    ensures TokenAt(text, j).value in TokensAt(text, vs)
  {
    if vs[0] != j {
      TokensAtHas(text, vs[1..], j);
    }
  }

  /** The iterations from `i` cover every later character: each lies in
      the stretch of exactly one visited position. */
  lemma {:induction false} VisitedCovers(text: string, i: nat, k: nat)
    requires i <= k < |text|
    ensures exists m :: (0 <= m < |VisitedFrom(text, i)| &&
      VisitedFrom(text, i)[m] <= k < NextPos(text, VisitedFrom(text, i)[m]))
    decreases |text| - i
  {
    var vs := VisitedFrom(text, i);
    if k >= NextPos(text, i) {
      var rest := VisitedFrom(text, NextPos(text, i));
      VisitedCovers(text, NextPos(text, i), k);
      var m :| 0 <= m < |rest| && rest[m] <= k < NextPos(text, rest[m]);
      assert vs[m + 1] == rest[m];
    } else {
      assert vs[0] <= k < NextPos(text, vs[0]);
    }
  }

  /** Some iteration at an earlier position stepped over character `k`. */
  predicate SteppedOver(text: string, k: nat) {
    k < |text| && exists j :: 0 <= j < k && j in Scanned(text) && k < NextPos(text, j)
  }

  /** A comment the scan reaches holds character `k`. */
  predicate InComment(text: string, k: nat) {
    k < |text| && exists j :: 0 <= j < k && j in Scanned(text) && IsCommentStart(text, j) && k < NextPos(text, j)
  }

  /** The visited positions are exactly the characters no iteration steps
      over. */
  lemma ScannedExactly(text: string, k: nat)
    requires k < |text|
    ensures k in Scanned(text) <==> !SteppedOver(text, k)
  {
    if k in Scanned(text) {
      VisitedNotSteppedOver(text, k);
    } else {
      var vs := Scanned(text);
      VisitedCovers(text, 0, k);
      var m :| 0 <= m < |vs| && vs[m] <= k < NextPos(text, vs[m]);
      assert vs[m] < k && vs[m] in vs;
    }
  }

  /** An iteration never steps over a later visited position. */
  lemma VisitedNotSteppedOver(text: string, k: nat)
    requires k < |text| && k in Scanned(text)
    ensures !SteppedOver(text, k)
  {
    var vs := Scanned(text);
    VisitedFromOrdered(text, 0);
    var a :| 0 <= a < |vs| && vs[a] == k;
    forall j | 0 <= j < k && j in vs
      ensures NextPos(text, j) <= k
    {
      var b :| 0 <= b < |vs| && vs[b] == j;
      assert b < a;
    }
  }

  /** Nothing the lexer should see is skipped: a character that is neither
      a digit nor a letter or `_` is visited unless a comment holds it; so
      is a digit after a non-digit, and a letter after neither a letter nor
      `_`; and the token of every visited character is among the tokens
      `Lex` returns. */
  lemma LexFindsEveryToken(text: string, k: nat)
    requires k < |text|
    ensures !InComment(text, k) && !IsAsciiDigit(text[k]) && !IsSymbolChar(text[k]) ==> k in Scanned(text)
    ensures !InComment(text, k) && IsAsciiDigit(text[k]) && (k == 0 || !IsAsciiDigit(text[k - 1])) ==>
      k in Scanned(text)
    ensures !InComment(text, k) && IsAlphabetic(text[k]) && (k == 0 || !IsSymbolChar(text[k - 1])) ==>
      k in Scanned(text)
    ensures k in Scanned(text) && TokenAt(text, k).Some? ==> TokenAt(text, k).value in Lex(text).tokens
  {
    var vs := Scanned(text);
    ScannedExactly(text, k);
    if !InComment(text, k) && k !in vs {
      var j :| 0 <= j < k && j in vs && k < NextPos(text, j);
      assert !IsCommentStart(text, j);
      if j < k - 1 {
        assert j < k - 1 < NextPos(text, j);
      }
    }
    if k in vs && TokenAt(text, k).Some? {
      TokensAtHas(text, vs, k);
      LexScansEveryPosition(text);
    }
  }

  /** The cursor over `text.chars().enumerate().peekable()`: the index of
      the next character. */
  class CharCursor {
    const text: string
    var index: nat

    constructor (text: string)
      ensures this.text == text && index == 0
    {
      this.text := text;
      index := 0;
    }

    /** `peek`: the next character and its index, if any. */
    function Peek(): (item: Option<(nat, char)>)
      reads this
      ensures item.Some? <==> index < |text|
      ensures item.Some? ==> item.value == (index, text[index])
    {
      if index < |text| then Some((index, text[index])) else None
    }

    /** `next` on a cursor that has a next character. */
    method Next() returns (at: nat, c: char)
      requires index < |text|
      modifies this
      ensures at == old(index) && c == text[at] && index == at + 1
    {
      at, c := index, text[index];
      index := index + 1;
    }
  }

  /** `get_symbol`: the cursor is just past the symbol's first letter. */
  method GetSymbol(cursor: CharCursor, start: nat) returns (token: Token)
    requires start < |cursor.text| && cursor.index == start + 1
    modifies cursor
    ensures cursor.index == SymbolRunEnd(cursor.text, start + 1)
    ensures token == SymbolToken(cursor.text, start)
  {
    var end := start;
    while cursor.Peek().Some?
      invariant start + 1 <= cursor.index <= |cursor.text|
      invariant SymbolRunEnd(cursor.text, cursor.index) == SymbolRunEnd(cursor.text, start + 1)
      invariant end == start
      decreases |cursor.text| - cursor.index
    {
      var (index, c) := cursor.Peek().value;
      if !(c == '_' || IsAlphabetic(c)) {
        end := index;
        break;
      }
      var _, _ := cursor.Next();
    }
    token := NewMulti(Symbol, start, end);
  }

  /** `get_number`: the cursor is just past the number's first digit. */
  method GetNumber(cursor: CharCursor, start: nat) returns (token: Token)
    requires start < |cursor.text| && cursor.index == start + 1
    modifies cursor
    ensures cursor.index == DigitRunEnd(cursor.text, start + 1)
    ensures token == NumberToken(cursor.text, start)
  {
    var end := start;
    while cursor.Peek().Some?
      invariant start + 1 <= cursor.index <= |cursor.text|
      invariant DigitRunEnd(cursor.text, cursor.index) == DigitRunEnd(cursor.text, start + 1)
      invariant end == start
      decreases |cursor.text| - cursor.index
    {
      var (index, c) := cursor.Peek().value;
      if !IsAsciiDigit(c) {
        end := index;
        break;
      }
      var _, _ := cursor.Next();
    }
    if start == end {
      return NewMulti(Number, start, start + 1);
    }
    token := NewMulti(Number, start, end);
  }

  /** `check_for_comment`: the cursor is just past a `/`.  A second `/`
      starts a comment, consumed through its line feed, and gives a
      `NewLine` token; otherwise the `/` is `Invalid`. */
  method CheckForComment(cursor: CharCursor, position: nat) returns (token: Token)
    requires position < |cursor.text| && cursor.index == position + 1
    modifies cursor
    ensures var text := cursor.text;
      if position + 1 < |text| && text[position + 1] == '/' then
        token == NewSingle(NewLine, CommentNewLine(text, position))
        && cursor.index == CommentNewLine(text, position) + 1
      else token == NewSingle(Invalid, position) && cursor.index == position + 1
  {
    var peeked := cursor.Peek();
    if peeked.Some? && peeked.value.1 == '/' {
      var _, _ := cursor.Next();
      var newLinePos := position + 1;
      while cursor.Peek().Some?
        invariant position + 2 <= cursor.index <= |cursor.text|
        invariant NextLineFeed(cursor.text, cursor.index) == NextLineFeed(cursor.text, position + 2)
        invariant newLinePos == cursor.index - 1
        decreases |cursor.text| - cursor.index
      {
        var index, c := cursor.Next();
        newLinePos := index;
        if c == '\n' {
          break;
        }
      }
      return NewSingle(NewLine, newLinePos);
    }
    token := NewSingle(Invalid, position);
  }

  /** One iteration of the outer loop of `tokenize`: the character at the
      cursor and whatever it consumes after it, with the line it pushes to
      the table, if any. */
  method TokenizeStep(cursor: CharCursor, lineTable: LineTable, lineStart: nat, counter: nat,
                  tokens: seq<Token>, ghost pushed: seq<LineInfo>)
    returns (nextLineStart: nat, nextCounter: nat, nextTokens: seq<Token>, ghost added: seq<LineInfo>)
    requires cursor.index < |cursor.text|
    modifies cursor, lineTable
    ensures lineTable.lines == old(lineTable.lines) + added
    ensures ScanChar(cursor.text, LexState(old(cursor.index), lineStart, counter, tokens, pushed))
      == LexState(cursor.index, nextLineStart, nextCounter, nextTokens, pushed + added)
  {
    var text := cursor.text;
    var index, c := cursor.Next();
    nextLineStart, nextCounter, added := lineStart, counter + 1, [];
    var token: Token;
    if c == '#' {
      token := NewSingle(Hash, index);
    } else if c == '(' {
      token := NewSingle(ParenthesisOpen, index);
    } else if c == ')' {
      token := NewSingle(ParenthesisClose, index);
    } else if c == ':' {
      token := NewSingle(Colon, index);
    } else if c == '\n' {
      lineTable.Push(LineInfo(lineStart, index));
      added := [LineInfo(lineStart, index)];
      nextLineStart := index;
      token := NewSingle(NewLine, index);
    } else if c == '/' {
      token := CheckForComment(cursor, index);
      if token.tokenType == NewLine {
        lineTable.Push(LineInfo(lineStart, index));
        added := [LineInfo(lineStart, index)];
        nextLineStart := index;
      }
    } else if IsAsciiDigit(c) {
      token := GetNumber(cursor, index);
    } else if IsAlphabetic(c) {
      token := GetSymbol(cursor, index);
    } else if IsWhitespace(c) {
      nextTokens := tokens;
      return;
    } else {
      token := NewSingle(Invalid, index);
    }
    nextTokens := tokens + [token];
  }

  /** `tokenize`: the tokens of `text`; the lines are pushed to the table. */
  method Tokenize(text: string, lineTable: LineTable) returns (tokens: seq<Token>)
    modifies lineTable
    ensures tokens == Lex(text).tokens
    ensures lineTable.lines == old(lineTable.lines) + Lex(text).lines
  {
    tokens := [];
    var lineStart: nat := 0;
    var counter: nat := 0;
    var cursor := new CharCursor(text);
    ghost var pushed: seq<LineInfo> := [];

    while cursor.index < |text|
      invariant cursor.text == text && cursor.index <= |text|
      invariant lineTable.lines == old(lineTable.lines) + pushed
      invariant ScanFrom(text, LexState(cursor.index, lineStart, counter, tokens, pushed))
        == ScanFrom(text, LexState(0, 0, 0, [], []))
      decreases |text| - cursor.index
    {
      ghost var added;
      lineStart, counter, tokens, added := TokenizeStep(cursor, lineTable, lineStart, counter, tokens, pushed);
      pushed := pushed + added;
    }

    lineTable.Push(LineInfo(lineStart, counter));
    tokens := tokens + [NewSingle(End, |text|)];
  }
}
