/**
 * A printer for parser trees with the fewest parentheses the grammar needs,
 * and the proof that the parser reads a printed tree back as that very tree.
 * Because the printer leaves out the parentheses that precedence and left
 * association make redundant ("1-2-3", "1+2*3"), the round trip shows that
 * the parser gives * and / precedence over + and -, and groups operators of
 * one level from the left.
 */
module Printing {
  import opened Decimal
  import opened Tokens
  import opened Lexing
  import opened Lookahead
  import opened Parsing

  predicate Spaces(w: string) {
    forall i :: 0 <= i < |w| ==> w[i] == ' '
  }

  predicate IsAdditive(k: TokenType) {
    k == Plus || k == Minus
  }

  predicate IsMultiplicative(k: TokenType) {
    k == Multiple || k == Divide
  }

  /**
   * The trees the printer handles: Number leaves, and + - * / nodes whose
   * operator tokens carry the value 0 the scanner gives them.
   */
  predicate Printable(n: Node) {
    match n
    case Leaf(t) => t.kind == Number
    case Binary(l, r, op) =>
      op.value == 0 && (IsAdditive(op.kind) || IsMultiplicative(op.kind))
      && Printable(l) && Printable(r)
  }

  lemma {:induction false} PrintableIsWellFormed(n: Node)
    requires Printable(n)
    ensures WellFormed(n)
  {
    if n.Binary? {
      PrintableIsWellFormed(n.left);
      PrintableIsWellFormed(n.right);
    }
  }

  function Size(n: Node): nat {
    match n
    case Leaf(_) => 1
    case Binary(l, r, _) => Size(l) + Size(r) + 1
  }

  function Symbol(k: TokenType): (sym: string)
    ensures |sym| == 1
  {
    match k
    case Plus => "+"
    case Minus => "-"
    case Multiple => "*"
    case Divide => "/"
    case _ => "^"
  }

  /** An operator as printed: a before its symbol and b after it. */
  function Op(a: string, k: TokenType, b: string): (o: string)
    ensures |o| == |a| + 1 + |b|
  {
    a + Symbol(k) + b
  }

  /** The printed forms, at the three levels of the grammar. */
  function PrintExpr(n: Node, a: string, b: string): string
    decreases n, 3
  {
    if n.Binary? && IsAdditive(n.op.kind) then
      PrintExpr(n.left, a, b) + Op(a, n.op.kind, b) + PrintTerm(n.right, a, b)
    else PrintTerm(n, a, b)
  }

  function PrintTerm(n: Node, a: string, b: string): string
    decreases n, 2
  {
    if n.Binary? && IsMultiplicative(n.op.kind) then
      PrintTerm(n.left, a, b) + Op(a, n.op.kind, b) + PrintFactor(n.right, a, b)
    else PrintFactor(n, a, b)
  }

  function PrintFactor(n: Node, a: string, b: string): string
    decreases n, 1
  {
    match n
    case Leaf(t) => NatToString(t.value)
    case Binary(_, _, _) => "(" + PrintInner(n, a, b) + ")"
  }

  /** An operator node between parentheses: printed at its own level. */
  function PrintInner(n: Node, a: string, b: string): string
    requires n.Binary?
    decreases n, 0
  {
    if IsAdditive(n.op.kind) then
      PrintExpr(n.left, a, b) + Op(a, n.op.kind, b) + PrintTerm(n.right, a, b)
    else PrintTerm(n.left, a, b) + Op(a, n.op.kind, b) + PrintFactor(n.right, a, b)
  }

  /** A piece x + mid + y of s, cut at its seams. */
  lemma Pieces(s: string, q: nat, e: nat, x: string, mid: string, y: string)
    requires q <= e <= |s| && s[q..e] == x + mid + y
    ensures q + |x| + |mid| + |y| == e
    ensures s[q..q + |x|] == x
    ensures s[q + |x|..q + |x| + |mid|] == mid
    ensures s[q + |x| + |mid|..e] == y
  {
    var t := s[q..e];
    assert t == x + mid + y;
    var i, j := q + |x|, q + |x| + |mid|;
    assert s[q..i] == x by {
      forall k | 0 <= k < |x| ensures s[q..i][k] == x[k] {
        assert s[q..i][k] == t[k];
      }
    }
    assert s[i..j] == mid by {
      forall k | 0 <= k < |mid| ensures s[i..j][k] == mid[k] {
        assert s[i..j][k] == t[|x| + k];
      }
    }
    assert s[j..e] == y by {
      forall k | 0 <= k < |y| ensures s[j..e][k] == y[k] {
        assert s[j..e][k] == t[|x| + |mid| + k];
      }
    }
  }

  /** The same, with the seams given as positions. */
  lemma Cut(s: string, q: nat, m: nat, m': nat, e: nat, x: string, mid: string, y: string)
    requires q <= e <= |s| && s[q..e] == x + mid + y
    requires m == q + |x| && m' == m + |mid|
    ensures m' <= e && s[q..m] == x && s[m..m'] == mid && s[m'..e] == y
  {
    Pieces(s, q, e, x, mid, y);
  }

  /** No digit right after e, so a digit run ending at e stops there. */
  predicate Stops(s: string, e: nat)
    requires e <= |s|
  {
    e == |s| || !IsDigit(s[e])
  }

  /** What may follow a printed term: nothing that continues it. */
  predicate EndsTerm(s: string, e: nat)
    requires e <= |s|
  {
    Stops(s, e) && !IsMultiplicative(Next(s, e).0.kind)
  }

  /** The source of an input reads the tokens Next gives. */
  lemma AtIsNext(s: string, q: nat)
    requires q <= |s|
    ensures At(Lex(s), q) == Cursor(Next(s, q).0, Next(s, q).1)
  {
  }

  /** Spaces before a token are skipped. */
  lemma SkipLead(s: string, i: nat, w: string)
    requires i + |w| <= |s| && s[i..i + |w|] == w && Spaces(w)
    ensures Next(s, i) == Next(s, i + |w|)
  {
    assert forall m :: i <= m < i + |w| ==> s[m] == w[m - i];
    NextSkipsSpaces(s, i, i + |w|);
  }

  /** A one-character token reads as its kind and takes that character. */
  lemma PunctuationAt(s: string, p: nat)
    requires p < |s| && IsPunctuation(s[p])
    ensures Next(s, p) == (Token(PunctuationKind(s[p]), 0), p + 1)
    ensures At(Lex(s), p) == Cursor(Token(PunctuationKind(s[p]), 0), p + 1)
  {
    SkipSpacesUnique(s, p, p);
    NextPunctuation(s, p);
    AtIsNext(s, p);
  }

  /** An operator's symbol is the punctuation character of its kind. */
  lemma SymbolKind(k: TokenType)
    requires IsAdditive(k) || IsMultiplicative(k)
    ensures IsPunctuation(Symbol(k)[0]) && PunctuationKind(Symbol(k)[0]) == k
  {
  }

  /** a, an operator symbol and b, read from the first space: the operator's token. */
  lemma OperatorToken(s: string, m: nat, a: string, k: TokenType, b: string)
    requires IsAdditive(k) || IsMultiplicative(k)
    requires Spaces(a) && Spaces(b)
    requires m + |a| + 1 + |b| <= |s| && s[m..m + |a| + 1 + |b|] == a + Symbol(k) + b
    ensures Next(s, m) == (Token(k, 0), m + |a| + 1)
  {
    var p := m + |a|;
    assert s[m..p] == a && s[p] == Symbol(k)[0] by {
      Pieces(s, m, m + |a| + 1 + |b|, a, Symbol(k), b);
      assert s[p] == s[p..p + 1][0];
    }
    SymbolKind(k);
    SkipLead(s, m, a);
    PunctuationAt(s, p);
  }

  /** The spaces b after the operator symbol are skipped. */
  lemma SpacesAfterOperator(s: string, m: nat, a: string, k: TokenType, b: string)
    requires Spaces(a) && Spaces(b)
    requires m + |a| + 1 + |b| <= |s| && s[m..m + |a| + 1 + |b|] == a + Symbol(k) + b
    ensures Next(s, m + |a| + 1) == Next(s, m + |a| + 1 + |b|)
  {
    Pieces(s, m, m + |a| + 1 + |b|, a, Symbol(k), b);
    SkipLead(s, m + |a| + 1, b);
  }

  /** A digit run cannot go on into a space or an operator symbol. */
  lemma OperatorStops(s: string, m: nat, a: string, k: TokenType, b: string)
    requires IsAdditive(k) || IsMultiplicative(k)
    requires Spaces(a)
    requires m + |a| + 1 + |b| <= |s| && s[m..m + |a| + 1 + |b|] == a + Symbol(k) + b
    ensures Stops(s, m)
  {
    assert s[m] == (a + Symbol(k) + b)[0];
    if |a| > 0 {
      assert s[m] == a[0] == ' ';
    } else {
      assert s[m] == Symbol(k)[0];
    }
  }

  /**
   * A printed operator at m: the source reads its token from m, and then
   * goes on from the end of the spaces after it.
   */
  lemma OperatorAt(s: string, m: nat, m': nat, a: string, k: TokenType, b: string)
    requires IsAdditive(k) || IsMultiplicative(k)
    requires Spaces(a) && Spaces(b)
    requires m' == m + |a| + 1 + |b| <= |s| && s[m..m'] == Op(a, k, b)
    ensures Next(s, m).0 == Token(k, 0) && Stops(s, m)
    ensures At(Lex(s), m) == Cursor(Token(k, 0), m + |a| + 1)
    ensures Advance(Lex(s), At(Lex(s), m)) == At(Lex(s), m')
  {
    assert s[m..m + |a| + 1 + |b|] == a + Symbol(k) + b;
    OperatorToken(s, m, a, k, b);
    SpacesAfterOperator(s, m, a, k, b);
    OperatorStops(s, m, a, k, b);
    AtIsNext(s, m);
    AtIsNext(s, m + |a| + 1);
    AtIsNext(s, m + |a| + 1 + |b|);
    assert Advance(Lex(s), At(Lex(s), m)) == At(Lex(s), m + |a| + 1);
  }

  /** A rendered number, not followed by a digit, reads as a Number token with its value. */
  lemma NumberAt(s: string, q: nat, e: nat, v: nat)
    requires q <= e <= |s| && s[q..e] == NatToString(v) && Stops(s, e)
    ensures At(Lex(s), q) == Cursor(Token(Number, v), e)
  {
    var d := NatToString(v);
    assert forall m :: q <= m < e ==> s[m] == d[m - q];
    SkipSpacesUnique(s, q, q);
    DigitRunEndUnique(s, q, e);
    DecimalOfNatToString(v);
  }

  // Steps of the grammar over any source, in terms of what the subrules read.

  /** One turn of term's loop, over an operator whose right operand reads as n. */
  lemma TermRestStep(src: Source, c: Cursor, acc: Node, n: Node, c1: Cursor)
    requires Steps(src) && Within(src, c) && WellFormed(acc)
    requires IsMultiplicative(c.tok.kind)
    requires ParseFactor(src, Advance(src, c)) == Ok((n, c1))
    ensures WellFormed(n) && Within(src, c1)
    ensures ParseTermRest(src, c, acc) == ParseTermRest(src, c1, Binary(acc, n, c.tok))
  {
  }

  /** One turn of expr's loop, over an operator whose right operand reads as n. */
  lemma ExprRestStep(src: Source, c: Cursor, acc: Node, n: Node, c1: Cursor)
    requires Steps(src) && Within(src, c) && WellFormed(acc)
    requires IsAdditive(c.tok.kind)
    requires ParseTerm(src, Advance(src, c)) == Ok((n, c1))
    ensures WellFormed(n) && Within(src, c1)
    ensures ParseExprRest(src, c, acc) == ParseExprRest(src, c1, Binary(acc, n, c.tok))
  {
  }

  /** Before anything but * and /, term's loop ends at once. */
  lemma TermRestStops(src: Source, c: Cursor, acc: Node)
    requires Steps(src) && Within(src, c) && WellFormed(acc)
    requires !IsMultiplicative(c.tok.kind)
    ensures ParseTermRest(src, c, acc) == Ok((acc, c))
  {
  }

  /** Before anything but + and -, expr's loop ends at once. */
  lemma ExprRestStops(src: Source, c: Cursor, acc: Node)
    requires Steps(src) && Within(src, c) && WellFormed(acc)
    requires !IsAdditive(c.tok.kind)
    ensures ParseExprRest(src, c, acc) == Ok((acc, c))
  {
  }

  /** A parenthesised expr at the number level. */
  lemma ParenStep(src: Source, c: Cursor, n: Node, c1: Cursor)
    requires Steps(src) && Within(src, c)
    requires c.tok.kind == LParen && c1.tok.kind == RParen
    requires ParseExpr(src, Advance(src, c)) == Ok((n, c1))
    ensures Within(src, c1)
    ensures ParseNumber(src, c) == Ok((n, Advance(src, c1)))
  {
  }

  // The round trip, level by level.

  /** A printed node at the number level is read by number. */
  lemma {:induction false} NumberRoundTrip(n: Node, a: string, b: string, s: string, q: nat, e: nat)
    requires Printable(n) && Spaces(a) && Spaces(b)
    requires q <= e <= |s| && s[q..e] == PrintFactor(n, a, b) && Stops(s, e)
    ensures WellFormed(n) &&
      ParseNumber(Lex(s), At(Lex(s), q)) == Ok((n, At(Lex(s), e)))
    decreases Size(n), 3
  {
    PrintableIsWellFormed(n);
    if n.Leaf? {
      NumberAt(s, q, e, n.token.value);
    } else {
      ParenRoundTrip(n, a, b, s, q, e);
    }
  }

  /** Parentheses around a piece of the input read as LParen and RParen. */
  lemma ParensAt(s: string, q: nat, e: nat, inner: string)
    requires q <= e <= |s| && s[q..e] == "(" + inner + ")"
    ensures q + 1 <= e - 1 && s[q + 1..e - 1] == inner && s[e - 1] == ')'
    ensures At(Lex(s), q) == Cursor(Token(LParen, 0), q + 1)
    ensures At(Lex(s), e - 1) == Cursor(Token(RParen, 0), e)
  {
    assert q + 1 <= e - 1 && s[q] == '(' && s[e - 1] == ')' && s[q + 1..e - 1] == inner by {
      Pieces(s, q, e, "(", inner, ")");
      assert s[q] == s[q..q + 1][0];
      assert s[e - 1] == s[e - 1..e][0];
    }
    PunctuationAt(s, q);
    PunctuationAt(s, e - 1);
  }

  /** A printed operator node between parentheses is read by number. */
  lemma {:induction false} ParenRoundTrip(n: Node, a: string, b: string, s: string, q: nat, e: nat)
    requires n.Binary? && Printable(n) && Spaces(a) && Spaces(b)
    requires q <= e <= |s| && s[q..e] == "(" + PrintInner(n, a, b) + ")"
    ensures WellFormed(n) &&
      ParseNumber(Lex(s), At(Lex(s), q)) == Ok((n, At(Lex(s), e)))
    decreases Size(n), 2
  {
    PrintableIsWellFormed(n);
    ParensAt(s, q, e, PrintInner(n, a, b));
    InnerRoundTrip(n, a, b, s, q + 1, e - 1);
    ParenStep(Lex(s), At(Lex(s), q), n, At(Lex(s), e - 1));
  }

  lemma {:induction false} FactorRoundTrip(n: Node, a: string, b: string, s: string, q: nat, e: nat)
    requires Printable(n) && Spaces(a) && Spaces(b)
    requires q <= e <= |s| && s[q..e] == PrintFactor(n, a, b) && Stops(s, e)
    ensures WellFormed(n) &&
      ParseFactor(Lex(s), At(Lex(s), q)) == Ok((n, At(Lex(s), e)))
    decreases Size(n), 4
  {
    NumberRoundTrip(n, a, b, s, q, e);
    NextNeverPower(s, e);
    AtIsNext(s, e);
  }

  lemma {:induction false} TermRoundTrip(n: Node, a: string, b: string, s: string, q: nat, e: nat)
    requires Printable(n) && Spaces(a) && Spaces(b)
    requires q <= e <= |s| && s[q..e] == PrintTerm(n, a, b) && Stops(s, e)
    ensures WellFormed(n) &&
      ParseTerm(Lex(s), At(Lex(s), q)) == ParseTermRest(Lex(s), At(Lex(s), e), n)
    decreases Size(n), 5
  {
    PrintableIsWellFormed(n);
    if n.Binary? && IsMultiplicative(n.op.kind) {
      TermSplit(n.left, n.right, n.op, a, b, s, q, e);
    } else {
      FactorRoundTrip(n, a, b, s, q, e);
    }
  }

  lemma {:induction false} ExprRoundTrip(n: Node, a: string, b: string, s: string, q: nat, e: nat)
    requires Printable(n) && Spaces(a) && Spaces(b)
    requires q <= e <= |s| && s[q..e] == PrintExpr(n, a, b) && EndsTerm(s, e)
    ensures WellFormed(n) &&
      ParseExpr(Lex(s), At(Lex(s), q)) == ParseExprRest(Lex(s), At(Lex(s), e), n)
    decreases Size(n), 6
  {
    PrintableIsWellFormed(n);
    if n.Binary? && IsAdditive(n.op.kind) {
      ExprSplit(n.left, n.right, n.op, a, b, s, q, e);
    } else {
      AtIsNext(s, e);
      TermRoundTrip(n, a, b, s, q, e);
      TermRestStops(Lex(s), At(Lex(s), e), n);
    }
  }

  /** The inside of parentheses, followed by ')', is read by expr as the node. */
  lemma {:induction false} InnerRoundTrip(n: Node, a: string, b: string, s: string, q: nat, e: nat)
    requires n.Binary? && Printable(n) && Spaces(a) && Spaces(b)
    requires q <= e < |s| && s[q..e] == PrintInner(n, a, b) && s[e] == ')'
    ensures WellFormed(n) && ParseExpr(Lex(s), At(Lex(s), q)) == Ok((n, At(Lex(s), e)))
    decreases Size(n), 1
  {
    PrintableIsWellFormed(n);
    var src := Lex(s);
    PunctuationAt(s, e);
    if IsAdditive(n.op.kind) {
      ExprSplit(n.left, n.right, n.op, a, b, s, q, e);
      ExprRestStops(src, At(src, e), n);
    } else {
      TermSplit(n.left, n.right, n.op, a, b, s, q, e);
      TermRestStops(src, At(src, e), n);
      ExprRestStops(src, At(src, e), n);
    }
  }

  /** l op r at the term level: term reads l, then the loop reads op and r. */
  lemma {:induction false} TermSplit(
    l: Node, r: Node, op: Token, a: string, b: string, s: string, q: nat, e: nat)
    requires Printable(Binary(l, r, op)) && IsMultiplicative(op.kind) && Spaces(a) && Spaces(b)
    requires q <= e <= |s| && Stops(s, e)
    requires s[q..e] == PrintTerm(l, a, b) + Op(a, op.kind, b) + PrintFactor(r, a, b)
    ensures WellFormed(Binary(l, r, op)) &&
      ParseTerm(Lex(s), At(Lex(s), q)) == ParseTermRest(Lex(s), At(Lex(s), e), Binary(l, r, op))
    decreases Size(l) + Size(r) + 1, 0
  {
    PrintableIsWellFormed(Binary(l, r, op));
    var src := Lex(s);
    var x, y := PrintTerm(l, a, b), PrintFactor(r, a, b);
    var m := q + |x|;
    var m' := m + |a| + 1 + |b|;
    assert m' <= e && At(src, m).tok == op && Advance(src, At(src, m)) == At(src, m') by {
      Cut(s, q, m, m', e, x, Op(a, op.kind, b), y);
      OperatorAt(s, m, m', a, op.kind, b);
    }
    assert ParseTerm(src, At(src, q)) == ParseTermRest(src, At(src, m), l) by {
      Cut(s, q, m, m', e, x, Op(a, op.kind, b), y);
      OperatorAt(s, m, m', a, op.kind, b);
      TermRoundTrip(l, a, b, s, q, m);
    }
    assert ParseFactor(src, At(src, m')) == Ok((r, At(src, e))) by {
      Cut(s, q, m, m', e, x, Op(a, op.kind, b), y);
      FactorRoundTrip(r, a, b, s, m', e);
    }
    TermRestStep(src, At(src, m), l, r, At(src, e));
  }

  /** l op r at the expr level: expr reads l, then the loop reads op and the term r. */
  lemma {:induction false} ExprSplit(
    l: Node, r: Node, op: Token, a: string, b: string, s: string, q: nat, e: nat)
    requires Printable(Binary(l, r, op)) && IsAdditive(op.kind) && Spaces(a) && Spaces(b)
    requires q <= e <= |s| && EndsTerm(s, e)
    requires s[q..e] == PrintExpr(l, a, b) + Op(a, op.kind, b) + PrintTerm(r, a, b)
    ensures WellFormed(Binary(l, r, op)) &&
      ParseExpr(Lex(s), At(Lex(s), q)) == ParseExprRest(Lex(s), At(Lex(s), e), Binary(l, r, op))
    decreases Size(l) + Size(r) + 1, 0
  {
    PrintableIsWellFormed(Binary(l, r, op));
    var src := Lex(s);
    var x, y := PrintExpr(l, a, b), PrintTerm(r, a, b);
    var m := q + |x|;
    var m' := m + |a| + 1 + |b|;
    assert m' <= e && At(src, m).tok == op && Advance(src, At(src, m)) == At(src, m') by {
      Cut(s, q, m, m', e, x, Op(a, op.kind, b), y);
      OperatorAt(s, m, m', a, op.kind, b);
    }
    assert ParseExpr(src, At(src, q)) == ParseExprRest(src, At(src, m), l) by {
      Cut(s, q, m, m', e, x, Op(a, op.kind, b), y);
      OperatorAt(s, m, m', a, op.kind, b);
      ExprRoundTrip(l, a, b, s, q, m);
    }
    assert ParseTerm(src, At(src, m')) == ParseTermRest(src, At(src, e), r) by {
      Cut(s, q, m, m', e, x, Op(a, op.kind, b), y);
      TermRoundTrip(r, a, b, s, m', e);
    }
    assert !IsMultiplicative(At(src, e).tok.kind) by {
      AtIsNext(s, e);
    }
    TermRestStops(src, At(src, e), r);
    ExprRestStep(src, At(src, m), l, r, At(src, e));
  }

  /**
   * Parsing a printed tree, with spaces before and after it, gives the tree
   * back, with EOF as the lookahead at the end of the input.
   */
  lemma ParsePrinted(n: Node, w: string, a: string, b: string, w': string)
    requires Printable(n) && Spaces(w) && Spaces(a) && Spaces(b) && Spaces(w')
    ensures var s := w + PrintExpr(n, a, b) + w';
      ParseExpr(Lex(s), Start(Lex(s))) == Ok((n, Cursor(Token(EOF, 0), |s|)))
      && ParseInput(Lex(s), Start(Lex(s))) == Ok((n, Cursor(Token(EOF, 0), |s|)))
  {
    var p := PrintExpr(n, a, b);
    var s := w + p + w';
    Pieces(s, 0, |s|, w, p, w');
    SkipLead(s, 0, w);
    var e := |w| + |p|;
    assert forall m :: e <= m < |s| ==> s[m] == w'[m - e];
    NextEof(s, e);
    NextEof(s, |s|);
    ExprRoundTrip(n, a, b, s, |w|, e);
  }
}
