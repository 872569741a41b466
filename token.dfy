/** Tokens produced by the lexer (src/frontend/lexer/token.rs).  A token is a
    kind and a half-open span `[start, end)` of character offsets into the
    source text; the text itself is looked up only when a token is resolved. */
module Tokens {
  import opened Base

  datatype TokenType =
    | Symbol
    | Number
    | Hash
    | Colon
    | ParenthesisOpen
    | ParenthesisClose
    | Invalid
    | NewLine
    | End

  datatype Token = Token(tokenType: TokenType, start: nat, end: nat)

  /** `Token::new_single`: a token one character wide at `position`. */
  function NewSingle(tokenType: TokenType, position: nat): (t: Token)
    ensures t.tokenType == tokenType && t.start == position
    ensures t.end - t.start == 1
  {
    Token(tokenType, position, position + 1)
  }

  /** `Token::new_multi`: the span is stored as given, even when empty. */
  function NewMulti(tokenType: TokenType, start: nat, end: nat): (t: Token)
    ensures t.tokenType == tokenType && t.start == start && t.end == end
  {
    Token(tokenType, start, end)
  }

  /** `Token::ensure_type`: the token when it has the expected type, and
      nothing otherwise.  The source's callback runs exactly when the result
      is `None`; every caller in this model performs the callback's effect
      (adding one error) on that branch. */
  function EnsureType(t: Token, tokenType: TokenType): (r: Option<Token>)
    ensures r.Some? <==> t.tokenType == tokenType
    ensures r.Some? ==> r.value == t
  {
    if t.tokenType == tokenType then Some(t) else None
  }

  /** The span lies inside a text of length `n`, so it can be resolved. */
  predicate InBounds(t: Token, n: nat) {
    t.start <= t.end <= n
  }

  /** `Token::resolve`: the text the span covers.  Rust panics on a span
      outside the text; here that is the precondition. */
  function Resolve(t: Token, text: string): (s: string)
    requires InBounds(t, |text|)
    ensures |s| == t.end - t.start
    ensures forall i :: 0 <= i < |s| ==> s[i] == text[t.start + i]
  {
    text[t.start..t.end]
  }
}
