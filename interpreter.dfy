/**
 * The interpreter (interpreter.go): the same recursive descent as the
 * parser, computing the value of each rule instead of a tree. The Interp*
 * functions give the meaning of each rule; the Interpreter class is the Go
 * object, whose methods are proved to follow them.
 */
module Interpreting {
  import opened Optional
  import opened Tokens
  import opened Lexing
  import opened Lookahead

  /**
   * A float64 value, without rounding: an exact real (Num(0.0) is +0), the
   * negative zero, the two infinities and NaN. + - * / follow the special
   * cases of IEEE 754 (sections 6.1, 6.2, 6.3, 7.2 and 7.3 of
   * IEEE 754-2019): infinities absorb finite operands; inf - inf, 0 * inf, 0 / 0 and
   * inf / inf are NaN; the sign of a product or a quotient is the exclusive
   * or of the operands' signs; a nonzero number divided by a zero is an
   * infinity, and a finite number divided by an infinity is a zero.
   */
  datatype Value = Num(r: real) | NegZero | PosInf | NegInf | NaN

  /** The sign bit (NaN's sign is never observed here). */
  predicate Negative(v: Value) {
    (v.Num? && v.r < 0.0) || v.NegZero? || v.NegInf?
  }

  predicate IsZero(v: Value) {
    (v.Num? && v.r == 0.0) || v.NegZero?
  }

  predicate IsInf(v: Value) {
    v.PosInf? || v.NegInf?
  }

  predicate IsFinite(v: Value) {
    v.Num? || v.NegZero?
  }

  /** The real number a finite value stands for. */
  function Real(v: Value): real
    requires IsFinite(v)
  {
    if v.NegZero? then 0.0 else v.r
  }

  /** A finite result: x itself, or for x = 0 the zero of the given sign. */
  function Finite(x: real, negative: bool): Value {
    if x != 0.0 then Num(x) else if negative then NegZero else Num(0.0)
  }

  function Infinity(negative: bool): Value {
    if negative then NegInf else PosInf
  }

  /** The sign of a product or a quotient of two nonzero reals. */
  lemma ProductSign(x: real, y: real)
    requires x != 0.0 && y != 0.0
    ensures x * y != 0.0 && (x * y < 0.0 <==> (x < 0.0) != (y < 0.0))
    ensures x / y != 0.0 && (x / y < 0.0 <==> (x < 0.0) != (y < 0.0))
  {
    assert (x / y) * y == x;
    if x < 0.0 {
      if y < 0.0 { assert x * y > 0.0; } else { assert x * y < 0.0; }
    } else {
      if y < 0.0 { assert x * y < 0.0; } else { assert x * y > 0.0; }
    }
  }

  /** Negation flips the sign bit and keeps everything else. */
  function Neg(v: Value): (r: Value)
    ensures r.NaN? <==> v.NaN?
    ensures IsInf(r) <==> IsInf(v)
    ensures IsFinite(r) <==> IsFinite(v)
    ensures IsFinite(v) ==> Real(r) == -Real(v)
    ensures !v.NaN? ==> Negative(r) != Negative(v)
  {
    match v
    case Num(x) => if x == 0.0 then NegZero else Num(-x)
    case NegZero => Num(0.0)
    case PosInf => NegInf
    case NegInf => PosInf
    case NaN => NaN
  }

  /** float64 + (interpreter.go:109). */
  function Add(a: Value, b: Value): (r: Value)
    ensures IsFinite(a) && IsFinite(b) ==> IsFinite(r) && Real(r) == Real(a) + Real(b)
    ensures r.NaN? <==> a.NaN? || b.NaN? || (IsInf(a) && IsInf(b) && a != b)
    ensures IsInf(r) <==> !r.NaN? && (IsInf(a) || IsInf(b))
    ensures IsInf(r) ==> r == (if IsInf(a) then a else b)
    ensures r.NegZero? <==> a.NegZero? && b.NegZero?
  {
    if a.NaN? || b.NaN? then NaN
    else if IsInf(a) && IsInf(b) then (if a == b then a else NaN)
    else if IsInf(a) then a
    else if IsInf(b) then b
    else Finite(Real(a) + Real(b), a.NegZero? && b.NegZero?)
  }

  /** float64 - (interpreter.go:116): the sum with the negated subtrahend. */
  function Sub(a: Value, b: Value): (r: Value)
    ensures IsFinite(a) && IsFinite(b) ==> IsFinite(r) && Real(r) == Real(a) - Real(b)
    ensures r.NaN? <==> a.NaN? || b.NaN? || (IsInf(a) && a == b)
    ensures IsInf(r) <==> !r.NaN? && (IsInf(a) || IsInf(b))
    ensures IsInf(r) ==> r == (if IsInf(a) then a else Neg(b))
    ensures r.NegZero? <==> a.NegZero? && b == Num(0.0)
  {
    Add(a, Neg(b))
  }

  /** float64 * (interpreter.go:83). */
  function Mul(a: Value, b: Value): (r: Value)
    ensures IsFinite(a) && IsFinite(b) ==> IsFinite(r) && Real(r) == Real(a) * Real(b)
    ensures r.NaN? <==> a.NaN? || b.NaN? || (IsInf(a) && IsZero(b)) || (IsZero(a) && IsInf(b))
    ensures IsInf(r) <==> !r.NaN? && (IsInf(a) || IsInf(b))
    ensures !r.NaN? ==> Negative(r) == (Negative(a) != Negative(b))
  {
    var negative := Negative(a) != Negative(b);
    if a.NaN? || b.NaN? then NaN
    else if IsInf(a) || IsInf(b) then (if IsZero(a) || IsZero(b) then NaN else Infinity(negative))
    else if IsZero(a) || IsZero(b) then Finite(0.0, negative)
    else
      ProductSign(Real(a), Real(b));
      Finite(Real(a) * Real(b), negative)
  }

  /**
   * float64 / (interpreter.go:90). A zero divisor is no error: it gives an
   * infinity, or NaN for 0 / 0.
   */
  function Div(a: Value, b: Value): (r: Value)
    ensures IsFinite(a) && IsFinite(b) && !IsZero(b) ==> IsFinite(r) && Real(r) == Real(a) / Real(b)
    ensures r.NaN? <==> a.NaN? || b.NaN? || (IsInf(a) && IsInf(b)) || (IsZero(a) && IsZero(b))
    ensures IsInf(r) <==> !r.NaN? && (IsInf(a) || IsZero(b))
    ensures IsZero(r) <==> !r.NaN? && (IsZero(a) || IsInf(b))
    ensures !r.NaN? ==> Negative(r) == (Negative(a) != Negative(b))
  {
    var negative := Negative(a) != Negative(b);
    if a.NaN? || b.NaN? then NaN
    else if IsInf(a) then (if IsInf(b) then NaN else Infinity(negative))
    else if IsInf(b) then Finite(0.0, negative)
    else if IsZero(b) then (if IsZero(a) then NaN else Infinity(negative))
    else if IsZero(a) then Finite(0.0, negative)
    else
      ProductSign(Real(a), Real(b));
      Finite(Real(a) / Real(b), negative)
  }

  /** The value of a Number token: its digit run read exactly, never negative. */
  function Literal(t: Token): (v: Value)
    ensures IsFinite(v) && !Negative(v) && Real(v) == t.value as real
  {
    Num(t.value as real)
  }

  /** number := Number | '(' expr ')'. math.Pow is the parameter pow. */
  function InterpNumber(pow: (Value, Value) -> Value, src: Source, c: Cursor)
    : (r: Result<(Value, Cursor)>)
    requires Steps(src) && Within(src, c)
    ensures Progress(src, c, r)
    decreases Rank(src, c), 0
  {
    if c.tok.kind == Number then Ok((Literal(c.tok), Advance(src, c)))
    else if c.tok.kind == LParen then
      match InterpExpr(pow, src, Advance(src, c))
      case Err(e) => Err(e)
      case Ok((v, c1)) =>
        match Eat(src, c1, RParen)
        case Err(e) => Err(e)
        case Ok(c2) => Ok((v, c2))
    else Err(NewUnexpectedTokenError(c.pos, c.tok, [Number, LParen]))
  }

  /** factor := number ('^' number)?: at most one power of two numbers. */
  function InterpFactor(pow: (Value, Value) -> Value, src: Source, c: Cursor)
    : (r: Result<(Value, Cursor)>)
    requires Steps(src) && Within(src, c)
    ensures Progress(src, c, r)
    decreases Rank(src, c), 1
  {
    match InterpNumber(pow, src, c)
    case Err(e) => Err(e)
    case Ok((v, c1)) =>
      if c1.tok.kind == Power then
        match InterpNumber(pow, src, Advance(src, c1))
        case Err(e) => Err(e)
        case Ok((w, c2)) => Ok((pow(v, w), c2))
      else Ok((v, c1))
  }

  /** The loop of term, from a state where acc is the value so far. */
  function InterpTermRest(pow: (Value, Value) -> Value, src: Source, c: Cursor, acc: Value)
    : (r: Result<(Value, Cursor)>)
    requires Steps(src) && Within(src, c)
    ensures Progress(src, c, r)
    decreases Rank(src, c), 2
  {
    if c.tok.kind == Multiple || c.tok.kind == Divide then
      match InterpFactor(pow, src, Advance(src, c))
      case Err(e) => Err(e)
      case Ok((v, c1)) =>
        InterpTermRest(pow, src, c1, if c.tok.kind == Multiple then Mul(acc, v) else Div(acc, v))
    else Ok((acc, c))
  }

  /** term: factors combined by * and / from left to right. */
  function InterpTerm(pow: (Value, Value) -> Value, src: Source, c: Cursor)
    : (r: Result<(Value, Cursor)>)
    requires Steps(src) && Within(src, c)
    ensures Progress(src, c, r)
    decreases Rank(src, c), 3
  {
    match InterpFactor(pow, src, c)
    case Err(e) => Err(e)
    case Ok((v, c1)) => InterpTermRest(pow, src, c1, v)
  }

  /** The loop of expr, from a state where acc is the value so far. */
  function InterpExprRest(pow: (Value, Value) -> Value, src: Source, c: Cursor, acc: Value)
    : (r: Result<(Value, Cursor)>)
    requires Steps(src) && Within(src, c)
    ensures Progress(src, c, r)
    decreases Rank(src, c), 4
  {
    if c.tok.kind == Plus || c.tok.kind == Minus then
      match InterpTerm(pow, src, Advance(src, c))
      case Err(e) => Err(e)
      case Ok((v, c1)) =>
        InterpExprRest(pow, src, c1, if c.tok.kind == Plus then Add(acc, v) else Sub(acc, v))
    else Ok((acc, c))
  }

  /** expr: terms combined by + and - from left to right. */
  function InterpExpr(pow: (Value, Value) -> Value, src: Source, c: Cursor)
    : (r: Result<(Value, Cursor)>)
    requires Steps(src) && Within(src, c)
    ensures Progress(src, c, r)
    decreases Rank(src, c), 5
  {
    match InterpTerm(pow, src, c)
    case Err(e) => Err(e)
    case Ok((v, c1)) => InterpExprRest(pow, src, c1, v)
  }

  /** calculate(): an expr that must be followed by EOF. */
  function InterpCalculate(pow: (Value, Value) -> Value, src: Source, c: Cursor)
    : (r: Result<(Value, Cursor)>)
    requires Steps(src) && Within(src, c)
    ensures Progress(src, c, r)
  {
    match InterpExpr(pow, src, c)
    case Err(e) => Err(e)
    case Ok((v, c1)) =>
      match Eat(src, c1, EOF)
      case Err(e) => Err(e)
      case Ok(c2) => Ok((v, c2))
  }

  /**
   * calculate() succeeds exactly when expr succeeds and leaves EOF as the
   * lookahead, with expr's value; an error of expr is passed on unchanged.
   */
  lemma CalculateNeedsEof(pow: (Value, Value) -> Value, src: Source, c: Cursor)
    requires Steps(src) && Within(src, c)
    ensures InterpCalculate(pow, src, c).Ok? <==>
      InterpExpr(pow, src, c).Ok? && InterpExpr(pow, src, c).value.1.tok.kind == EOF
    ensures InterpCalculate(pow, src, c).Ok? ==>
      InterpCalculate(pow, src, c).value.0 == InterpExpr(pow, src, c).value.0
    ensures InterpExpr(pow, src, c).Err? ==> InterpCalculate(pow, src, c) == InterpExpr(pow, src, c)
    ensures InterpExpr(pow, src, c).Ok? && InterpExpr(pow, src, c).value.1.tok.kind != EOF ==>
      var c1 := InterpExpr(pow, src, c).value.1;
      InterpCalculate(pow, src, c) == Err(UnexpectedTokenError(c1.pos, c1.tok, [EOF]))
  {
  }

  /** The interpreter object: a scanner and the current lookahead token. */
  class Interpreter {
    const lexer: Lexer
    var currentToken: Token
    /** math.Pow, which this model leaves uninterpreted. */
    const pow: (Value, Value) -> Value

    ghost predicate Valid()
      reads this, lexer
    {
      lexer.Valid()
    }

    /** The lookahead state. */
    ghost function State(): Cursor
      reads this, lexer
    {
      Cursor(currentToken, lexer.pos)
    }

    /** newInterpreter: a fresh scanner over the input and exactly one token read. */
    constructor (input: string, pow: (Value, Value) -> Value)
      ensures Valid() && fresh(lexer) && lexer.input == input && this.pow == pow
      ensures State() == Start(Lex(input))
    {
      var l := new Lexer(input);
      var t := l.GetToken();
      lexer := l;
      currentToken := t;
      this.pow := pow;
    }

    /**
     * eat(t): on a match the next token replaces the current one; otherwise
     * an error with the scanner's position, the current token and t, and
     * nothing changes.
     */
    method Eat(t: TokenType) returns (err: Option<UnexpectedTokenError>)
      requires Valid()
      modifies this, lexer
      ensures Valid()
      ensures err.None? <==> old(currentToken).kind == t
      ensures err.None? ==> State() == Advance(Lex(lexer.input), old(State()))
      ensures err.Some? ==>
        err.value == UnexpectedTokenError(old(lexer.pos), old(currentToken), [t])
        && State() == old(State())
    {
      if currentToken.kind != t {
        return Some(NewUnexpectedTokenError(lexer.pos, currentToken, [t]));
      }
      currentToken := lexer.GetToken();
      return None;
    }

    method Number() returns (r: Result<Value>)
      requires Valid()
      modifies this, lexer
      ensures Valid()
      ensures Follows(r, InterpNumber(pow, Lex(lexer.input), old(State())), State())
      decreases Rank(Lex(lexer.input), State()), 0
    {
      var token := currentToken;
      if token.kind.Number? {
        var ignored := Eat(TokenType.Number);
        r := Ok(Literal(token));
      } else if token.kind.LParen? {
        var ignored := Eat(LParen);
        var result := Expr();
        if result.Err? {
          return Err(result.error);
        }
        var err := Eat(RParen);
        if err.Some? {
          return Err(err.value);
        }
        r := Ok(result.value);
      } else {
        r := Err(NewUnexpectedTokenError(lexer.pos, token, [TokenType.Number, LParen]));
      }
    }

    method Factor() returns (r: Result<Value>)
      requires Valid()
      modifies this, lexer
      ensures Valid()
      ensures Follows(r, InterpFactor(pow, Lex(lexer.input), old(State())), State())
      decreases Rank(Lex(lexer.input), State()), 1
    {
      var result := Number();
      if result.Err? {
        return Err(result.error);
      }
      if currentToken.kind.Power? {
        var ignored := Eat(Power);
        var second := Number();
        if second.Err? {
          return Err(second.error);
        }
        result := Ok(pow(result.value, second.value));
      }
      r := result;
    }

    method Term() returns (r: Result<Value>)
      requires Valid()
      modifies this, lexer
      ensures Valid()
      ensures Follows(r, InterpTerm(pow, Lex(lexer.input), old(State())), State())
      decreases Rank(Lex(lexer.input), State()), 3
    {
      ghost var src, c0 := Lex(lexer.input), State();
      var first := Factor();
      if first.Err? {
        return Err(first.error);
      }
      var result := first.value;
      while currentToken.kind.Multiple? || currentToken.kind.Divide?
        invariant Valid() && Within(src, State())
        invariant Rank(src, State()) <= Rank(src, c0)
        invariant InterpTerm(pow, src, c0) == InterpTermRest(pow, src, State(), result)
        decreases Rank(src, State())
      {
        var ignored;
        if currentToken.kind.Multiple? {
          ignored := Eat(Multiple);
          var n := Factor();
          if n.Err? {
            return Err(n.error);
          }
          result := Mul(result, n.value);
        } else {
          ignored := Eat(Divide);
          var n := Factor();
          if n.Err? {
            return Err(n.error);
          }
          result := Div(result, n.value);
        }
      }
      r := Ok(result);
    }

    method Expr() returns (r: Result<Value>)
      requires Valid()
      modifies this, lexer
      ensures Valid()
      ensures Follows(r, InterpExpr(pow, Lex(lexer.input), old(State())), State())
      decreases Rank(Lex(lexer.input), State()), 5
    {
      ghost var src, c0 := Lex(lexer.input), State();
      var first := Term();
      if first.Err? {
        return Err(first.error);
      }
      var result := first.value;
      while currentToken.kind.Plus? || currentToken.kind.Minus?
        invariant Valid() && Within(src, State())
        invariant Rank(src, State()) <= Rank(src, c0)
        invariant InterpExpr(pow, src, c0) == InterpExprRest(pow, src, State(), result)
        decreases Rank(src, State())
      {
        var ignored;
        if currentToken.kind.Plus? {
          ignored := Eat(Plus);
          var n := Term();
          if n.Err? {
            return Err(n.error);
          }
          result := Add(result, n.value);
        } else {
          ignored := Eat(Minus);
          var n := Term();
          if n.Err? {
            return Err(n.error);
          }
          result := Sub(result, n.value);
        }
      }
      r := Ok(result);
    }

    method Calculate() returns (r: Result<Value>)
      requires Valid()
      modifies this, lexer
      ensures Valid()
      ensures Follows(r, InterpCalculate(pow, Lex(lexer.input), old(State())), State())
    {
      var value := Expr();
      if value.Err? {
        return Err(value.error);
      }
      var err := Eat(EOF);
      if err.Some? {
        return Err(err.value);
      }
      r := Ok(value.value);
    }
  }
}
