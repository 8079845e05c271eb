/**
 * The tree-building parser (parser.go): recursive descent with one token of
 * lookahead over the grammar
 *   expr   := term (('+' | '-') term)*
 *   term   := factor (('*' | '/') factor)*
 *   factor := number ('^' number)?
 *   number := Number | '(' expr ')'
 * The Parse* functions give the meaning of each rule on a lookahead state;
 * the Parser class is the Go object, whose methods are proved to follow them.
 */
module Parsing {
  import opened Optional
  import opened Tokens
  import opened Lexing
  import opened Lookahead

  /**
   * A tree node: a leaf holds a Number token; an inner node holds its two
   * operands and the operator token (newNode with nil or non-nil children).
   */
  datatype Node = Leaf(token: Token) | Binary(left: Node, right: Node, op: Token)

  predicate IsOperator(k: TokenType) {
    k == Plus || k == Minus || k == Multiple || k == Divide || k == Power
  }

  /** The trees the parser builds: Number leaves and operator nodes. */
  predicate WellFormed(n: Node) {
    match n
    case Leaf(t) => t.kind == Number
    case Binary(l, r, op) => IsOperator(op.kind) && WellFormed(l) && WellFormed(r)
  }

  /** A rule's success makes progress and yields a well-formed tree. */
  ghost predicate Fits(src: Source, c: Cursor, r: Result<(Node, Cursor)>)
    requires Within(src, c)
  {
    Progress(src, c, r) && (r.Ok? ==> WellFormed(r.value.0))
  }

  /** number := Number | '(' expr ')'. */
  function ParseNumber(src: Source, c: Cursor): (r: Result<(Node, Cursor)>)
    requires Steps(src) && Within(src, c)
    ensures Fits(src, c, r)
    decreases Rank(src, c), 0
  {
    if c.tok.kind == Number then Ok((Leaf(c.tok), Advance(src, c)))
    else if c.tok.kind == LParen then
      match ParseExpr(src, Advance(src, c))
      case Err(e) => Err(e)
      case Ok((n, c1)) =>
        match Eat(src, c1, RParen)
        case Err(e) => Err(e)
        case Ok(c2) => Ok((n, c2))
    else Err(NewUnexpectedTokenError(c.pos, c.tok, [Number, LParen]))
  }

  /** factor := number ('^' number)?: at most one power, whose right operand is a number. */
  function ParseFactor(src: Source, c: Cursor): (r: Result<(Node, Cursor)>)
    requires Steps(src) && Within(src, c)
    ensures Fits(src, c, r)
    decreases Rank(src, c), 1
  {
    match ParseNumber(src, c)
    case Err(e) => Err(e)
    case Ok((n, c1)) =>
      if c1.tok.kind == Power then
        match ParseNumber(src, Advance(src, c1))
        case Err(e) => Err(e)
        case Ok((m, c2)) => Ok((Binary(n, m, c1.tok), c2))
      else Ok((n, c1))
  }

  /** The loop of term, from a state where acc is the tree built so far. */
  function ParseTermRest(src: Source, c: Cursor, acc: Node): (r: Result<(Node, Cursor)>)
    requires Steps(src) && Within(src, c) && WellFormed(acc)
    ensures Fits(src, c, r)
    decreases Rank(src, c), 2
  {
    if c.tok.kind == Multiple || c.tok.kind == Divide then
      match ParseFactor(src, Advance(src, c))
      case Err(e) => Err(e)
      case Ok((n, c1)) => ParseTermRest(src, c1, Binary(acc, n, c.tok))
    else Ok((acc, c))
  }

  /** term := factor (('*' | '/') factor)*, folded to the left. */
  function ParseTerm(src: Source, c: Cursor): (r: Result<(Node, Cursor)>)
    requires Steps(src) && Within(src, c)
    ensures Fits(src, c, r)
    decreases Rank(src, c), 3
  {
    match ParseFactor(src, c)
    case Err(e) => Err(e)
    case Ok((n, c1)) => ParseTermRest(src, c1, n)
  }

  /** The loop of expr, from a state where acc is the tree built so far. */
  function ParseExprRest(src: Source, c: Cursor, acc: Node): (r: Result<(Node, Cursor)>)
    requires Steps(src) && Within(src, c) && WellFormed(acc)
    ensures Fits(src, c, r)
    decreases Rank(src, c), 4
  {
    if c.tok.kind == Plus || c.tok.kind == Minus then
      match ParseTerm(src, Advance(src, c))
      case Err(e) => Err(e)
      case Ok((n, c1)) => ParseExprRest(src, c1, Binary(acc, n, c.tok))
    else Ok((acc, c))
  }

  /** expr := term (('+' | '-') term)*, folded to the left. */
  function ParseExpr(src: Source, c: Cursor): (r: Result<(Node, Cursor)>)
    requires Steps(src) && Within(src, c)
    ensures Fits(src, c, r)
    decreases Rank(src, c), 5
  {
    match ParseTerm(src, c)
    case Err(e) => Err(e)
    case Ok((n, c1)) => ParseExprRest(src, c1, n)
  }

  /** parse(): an expr that must be followed by EOF. */
  function ParseInput(src: Source, c: Cursor): (r: Result<(Node, Cursor)>)
    requires Steps(src) && Within(src, c)
    ensures Fits(src, c, r)
  {
    match ParseExpr(src, c)
    case Err(e) => Err(e)
    case Ok((n, c1)) =>
      match Eat(src, c1, EOF)
      case Err(e) => Err(e)
      case Ok(c2) => Ok((n, c2))
  }

  /**
   * parse() succeeds exactly when expr succeeds and leaves EOF as the
   * lookahead, with expr's tree; an error of expr is passed on unchanged.
   */
  lemma ParseNeedsEof(src: Source, c: Cursor)
    requires Steps(src) && Within(src, c)
    ensures ParseInput(src, c).Ok? <==>
      ParseExpr(src, c).Ok? && ParseExpr(src, c).value.1.tok.kind == EOF
    ensures ParseInput(src, c).Ok? ==> ParseInput(src, c).value.0 == ParseExpr(src, c).value.0
    ensures ParseExpr(src, c).Err? ==> ParseInput(src, c) == ParseExpr(src, c)
    ensures ParseExpr(src, c).Ok? && ParseExpr(src, c).value.1.tok.kind != EOF ==>
      var c1 := ParseExpr(src, c).value.1;
      ParseInput(src, c) == Err(UnexpectedTokenError(c1.pos, c1.tok, [EOF]))
  {
  }

  /** The parser object: a scanner and the current lookahead token. */
  class Parser {
    const lexer: Lexer
    var currentToken: Token

    ghost predicate Valid()
      reads this, lexer
    {
      lexer.Valid()
    }

    /** The lookahead state. */
    ghost function State(): Cursor
      reads this, lexer
    {
      Cursor(currentToken, lexer.pos)
    }

    /** newParser: a fresh scanner over the input and exactly one token read. */
    constructor (input: string)
      ensures Valid() && fresh(lexer) && lexer.input == input
      ensures State() == Start(Lex(input))
    {
      var l := new Lexer(input);
      var t := l.GetToken();
      lexer := l;
      currentToken := t;
    }

    /**
     * eat(t): on a match the next token replaces the current one; otherwise
     * an error with the scanner's position, the current token and t, and
     * nothing changes.
     */
    method Eat(t: TokenType) returns (err: Option<UnexpectedTokenError>)
      requires Valid()
      modifies this, lexer
      ensures Valid()
      ensures err.None? <==> old(currentToken).kind == t
      ensures err.None? ==> State() == Advance(Lex(lexer.input), old(State()))
      ensures err.Some? ==>
        err.value == UnexpectedTokenError(old(lexer.pos), old(currentToken), [t])
        && State() == old(State())
    {
      if currentToken.kind != t {
        return Some(NewUnexpectedTokenError(lexer.pos, currentToken, [t]));
      }
      currentToken := lexer.GetToken();
      return None;
    }

    method Number() returns (r: Result<Node>)
      requires Valid()
      modifies this, lexer
      ensures Valid()
      ensures Follows(r, ParseNumber(Lex(lexer.input), old(State())), State())
      decreases Rank(Lex(lexer.input), State()), 0
    {
      var token := currentToken;
      if token.kind.Number? {
        var ignored := Eat(TokenType.Number);
        r := Ok(Leaf(token));
      } else if token.kind.LParen? {
        var ignored := Eat(LParen);
        var result := Expr();
        if result.Err? {
          return Err(result.error);
        }
        var err := Eat(RParen);
        if err.Some? {
          return Err(err.value);
        }
        r := Ok(result.value);
      } else {
        r := Err(NewUnexpectedTokenError(lexer.pos, token, [TokenType.Number, LParen]));
      }
    }

    method Factor() returns (r: Result<Node>)
      requires Valid()
      modifies this, lexer
      ensures Valid()
      ensures Follows(r, ParseFactor(Lex(lexer.input), old(State())), State())
      decreases Rank(Lex(lexer.input), State()), 1
    {
      var result := Number();
      if result.Err? {
        return Err(result.error);
      }
      var op := currentToken;
      if op.kind.Power? {
        var ignored := Eat(Power);
        var second := Number();
        if second.Err? {
          return Err(second.error);
        }
        result := Ok(Binary(result.value, second.value, op));
      }
      r := result;
    }

    method Term() returns (r: Result<Node>)
      requires Valid()
      modifies this, lexer
      ensures Valid()
      ensures Follows(r, ParseTerm(Lex(lexer.input), old(State())), State())
      decreases Rank(Lex(lexer.input), State()), 3
    {
      ghost var src, c0 := Lex(lexer.input), State();
      var first := Factor();
      if first.Err? {
        return Err(first.error);
      }
      var result := first.value;
      while currentToken.kind.Multiple? || currentToken.kind.Divide?
        invariant Valid() && Within(src, State())
        invariant Rank(src, State()) <= Rank(src, c0)
        invariant WellFormed(result)
        invariant ParseTerm(src, c0) == ParseTermRest(src, State(), result)
        decreases Rank(src, State())
      {
        var op := currentToken;
        var ignored;
        if op.kind.Multiple? {
          ignored := Eat(Multiple);
        } else {
          ignored := Eat(Divide);
        }
        var n := Factor();
        if n.Err? {
          return Err(n.error);
        }
        result := Binary(result, n.value, op);
      }
      r := Ok(result);
    }

    method Expr() returns (r: Result<Node>)
      requires Valid()
      modifies this, lexer
      ensures Valid()
      ensures Follows(r, ParseExpr(Lex(lexer.input), old(State())), State())
      decreases Rank(Lex(lexer.input), State()), 5
    {
      ghost var src, c0 := Lex(lexer.input), State();
      var first := Term();
      if first.Err? {
        return Err(first.error);
      }
      var result := first.value;
      while currentToken.kind.Plus? || currentToken.kind.Minus?
        invariant Valid() && Within(src, State())
        invariant Rank(src, State()) <= Rank(src, c0)
        invariant WellFormed(result)
        invariant ParseExpr(src, c0) == ParseExprRest(src, State(), result)
        decreases Rank(src, State())
      {
        var op := currentToken;
        var ignored;
        if op.kind.Plus? {
          ignored := Eat(Plus);
        } else {
          ignored := Eat(Minus);
        }
        var n := Term();
        if n.Err? {
          return Err(n.error);
        }
        result := Binary(result, n.value, op);
      }
      r := Ok(result);
    }

    method Parse() returns (r: Result<Node>)
      requires Valid()
      modifies this, lexer
      ensures Valid()
      ensures Follows(r, ParseInput(Lex(lexer.input), old(State())), State())
    {
      var n := Expr();
      if n.Err? {
        return Err(n.error);
      }
      var err := Eat(EOF);
      if err.Some? {
        return Err(err.value);
      }
      r := Ok(n.value);
    }
  }
}
