/** The token stream an invocation is parsed from. TokenCollection itself is
    not part of this model; only what the directive middleware asks of it is. */
module Tokens {

  datatype TokenKind = DirectiveToken | OptionToken | OperandToken | SeparatorToken

  /** One lexical unit: its raw text, its kind and its value (for a directive
      `[debug]` the value is `debug`). */
  datatype Token = Token(raw: string, kind: TokenKind, value: string)

  type TokenCollection = seq<Token>

  /** TokenCollection.TryGetDirective(name, out _): the stream carries a
      directive token with that name. */
  predicate HasDirective(tokens: TokenCollection, name: string)
  {
    exists i :: 0 <= i < |tokens| && tokens[i].kind == DirectiveToken && tokens[i].value == name
  }
}
