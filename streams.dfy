/**
 * The grammars over a token source that is just a list of tokens. The
 * scanner never yields Power, so the power branch of factor is only reached
 * from such a source.
 */
module Streams {
  import opened Tokens
  import opened Lookahead
  import opened Parsing
  import opened Interpreting
  import opened Evaluation

  /** Token i is read from position i; past the last token, EOF for good. */
  function ListSource(ts: seq<Token>): Source {
    Source((p: nat) => if p < |ts| then (ts[p], p + 1) else (Token(EOF, 0), |ts|), |ts|)
  }

  /** Every token list behaves like a scanner. */
  lemma ListSteps(ts: seq<Token>)
    ensures Steps(ListSource(ts))
  {
  }

  /** 2 ^ 3 ^ 4 as tokens. */
  function PowerChain(): seq<Token> {
    [Token(Number, 2), Token(Power, 0), Token(Number, 3), Token(Power, 0), Token(Number, 4)]
  }

  /**
   * factor takes one power, 2 ^ 3, and leaves the second ^ as the lookahead;
   * expr stops there, and parse and calculate fail on it, expecting EOF.
   */
  lemma PowerOnce(pow: (Value, Value) -> Value)
    ensures var src := ListSource(PowerChain());
      Steps(src)
      && ParseFactor(src, Start(src)) == Ok((Binary(Leaf(Token(Number, 2)), Leaf(Token(Number, 3)), Token(Power, 0)), Cursor(Token(Power, 0), 4)))
      && ParseExpr(src, Start(src)) == Ok((Binary(Leaf(Token(Number, 2)), Leaf(Token(Number, 3)), Token(Power, 0)), Cursor(Token(Power, 0), 4)))
      && ParseInput(src, Start(src)) == Err(UnexpectedTokenError(4, Token(Power, 0), [EOF]))
      && InterpExpr(pow, src, Start(src)) == Ok((pow(Num(2.0), Num(3.0)), Cursor(Token(Power, 0), 4)))
      && InterpCalculate(pow, src, Start(src)) == Err(UnexpectedTokenError(4, Token(Power, 0), [EOF]))
  {
    var src := ListSource(PowerChain());
    ListSteps(PowerChain());
    var n := Binary(Leaf(Token(Number, 2)), Leaf(Token(Number, 3)), Token(Power, 0));
    var c := Cursor(Token(Power, 0), 4);
    assert Start(src) == Cursor(Token(Number, 2), 1);
    assert Advance(src, Start(src)) == Cursor(Token(Power, 0), 2);
    assert Advance(src, Cursor(Token(Power, 0), 2)) == Cursor(Token(Number, 3), 3);
    assert Advance(src, Cursor(Token(Number, 3), 3)) == c;
    assert ParseFactor(src, Start(src)) == Ok((n, c));
    assert ParseTerm(src, Start(src)) == Ok((n, c));
    ExprAgrees(pow, src, Start(src));
    CalculateAgrees(pow, src, Start(src));
  }
}
