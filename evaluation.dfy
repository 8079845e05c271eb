/**
 * A tree-walking evaluator for the parser's trees, and the proof that the
 * interpreter, which computes values while it parses, agrees with it: on
 * every token source and every state, each interpreter rule yields the value
 * of the tree the matching parser rule builds, the same resulting state, or
 * the same error.
 */
module Evaluation {
  import opened Tokens
  import opened Lookahead
  import opened Parsing
  import opened Interpreting

  /** The value of a tree, with the interpreter's arithmetic. */
  function Eval(pow: (Value, Value) -> Value, n: Node): Value
    requires WellFormed(n)
  {
    match n
    case Leaf(t) => Literal(t)
    case Binary(l, r, op) =>
      var a, b := Eval(pow, l), Eval(pow, r);
      if op.kind == Plus then Add(a, b)
      else if op.kind == Minus then Sub(a, b)
      else if op.kind == Multiple then Mul(a, b)
      else if op.kind == Divide then Div(a, b)
      else pow(a, b)
  }

  /** A parser outcome with its tree replaced by the tree's value. */
  function Evaluated(pow: (Value, Value) -> Value, r: Result<(Node, Cursor)>)
    : Result<(Value, Cursor)>
    requires r.Ok? ==> WellFormed(r.value.0)
  {
    match r
    case Err(e) => Err(e)
    case Ok((n, c)) => Ok((Eval(pow, n), c))
  }

  lemma {:induction false} NumberAgrees(pow: (Value, Value) -> Value, src: Source, c: Cursor)
    requires Steps(src) && Within(src, c)
    ensures InterpNumber(pow, src, c) == Evaluated(pow, ParseNumber(src, c))
    decreases Rank(src, c), 0
  {
    if c.tok.kind == LParen {
      ExprAgrees(pow, src, Advance(src, c));
    }
  }

  lemma {:induction false} FactorAgrees(pow: (Value, Value) -> Value, src: Source, c: Cursor)
    requires Steps(src) && Within(src, c)
    ensures InterpFactor(pow, src, c) == Evaluated(pow, ParseFactor(src, c))
    decreases Rank(src, c), 1
  {
    NumberAgrees(pow, src, c);
    match ParseNumber(src, c)
    case Err(_) =>
    case Ok((n, c1)) =>
      if c1.tok.kind == Power {
        NumberAgrees(pow, src, Advance(src, c1));
      }
  }

  lemma {:induction false} TermRestAgrees(
    pow: (Value, Value) -> Value, src: Source, c: Cursor, acc: Node)
    requires Steps(src) && Within(src, c) && WellFormed(acc)
    ensures InterpTermRest(pow, src, c, Eval(pow, acc)) == Evaluated(pow, ParseTermRest(src, c, acc))
    decreases Rank(src, c), 2
  {
    if c.tok.kind == Multiple || c.tok.kind == Divide {
      FactorAgrees(pow, src, Advance(src, c));
      match ParseFactor(src, Advance(src, c))
      case Err(_) =>
      case Ok((n, c1)) => TermRestAgrees(pow, src, c1, Binary(acc, n, c.tok));
    }
  }

  lemma {:induction false} TermAgrees(pow: (Value, Value) -> Value, src: Source, c: Cursor)
    requires Steps(src) && Within(src, c)
    ensures InterpTerm(pow, src, c) == Evaluated(pow, ParseTerm(src, c))
    decreases Rank(src, c), 3
  {
    FactorAgrees(pow, src, c);
    match ParseFactor(src, c)
    case Err(_) =>
    case Ok((n, c1)) => TermRestAgrees(pow, src, c1, n);
  }

  lemma {:induction false} ExprRestAgrees(
    pow: (Value, Value) -> Value, src: Source, c: Cursor, acc: Node)
    requires Steps(src) && Within(src, c) && WellFormed(acc)
    ensures InterpExprRest(pow, src, c, Eval(pow, acc)) == Evaluated(pow, ParseExprRest(src, c, acc))
    decreases Rank(src, c), 4
  {
    if c.tok.kind == Plus || c.tok.kind == Minus {
      TermAgrees(pow, src, Advance(src, c));
      match ParseTerm(src, Advance(src, c))
      case Err(_) =>
      case Ok((n, c1)) => ExprRestAgrees(pow, src, c1, Binary(acc, n, c.tok));
    }
  }

  /** The interpreter's expr is the value of the parser's expr tree. */
  lemma {:induction false} ExprAgrees(pow: (Value, Value) -> Value, src: Source, c: Cursor)
    requires Steps(src) && Within(src, c)
    ensures InterpExpr(pow, src, c) == Evaluated(pow, ParseExpr(src, c))
    decreases Rank(src, c), 5
  {
    TermAgrees(pow, src, c);
    match ParseTerm(src, c)
    case Err(_) =>
    case Ok((n, c1)) => ExprRestAgrees(pow, src, c1, n);
  }

  /** calculate() is the value of what parse() builds, or the same error. */
  lemma CalculateAgrees(pow: (Value, Value) -> Value, src: Source, c: Cursor)
    requires Steps(src) && Within(src, c)
    ensures InterpCalculate(pow, src, c) == Evaluated(pow, ParseInput(src, c))
  {
    ExprAgrees(pow, src, c);
  }
}
