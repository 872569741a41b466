/** The parser's output records (src/frontend/parser/operant.rs and
    src/frontend/parser/command_builder.rs): an operand is a syntactic kind
    and the token that carries its value; a command builder is an optional
    label, the mnemonic token and an optional operand.  Tokens are held by
    value instead of by reference. */
module Operants {
  import opened Base
  import opened Tokens

  /** How an operand was written: `N` or `#N` is Fixed, `(N)` is Address,
      a bare symbol is Label. */
  datatype OperantKind = Fixed | Address | Label

  datatype Operant = Operant(kind: OperantKind, value: Token)

  /** An unresolved command.  The operand is absent exactly for mnemonics
      that take none. */
  datatype CommandBuilder = CommandBuilder(
    labelToken: Option<Token>,
    instruction: Token,
    operant: Option<Operant>)
}
