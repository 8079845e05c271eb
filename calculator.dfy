/**
 * The entry point (calculator.go): Do runs expr on a fresh interpreter over
 * the input. It does not call calculate, so tokens left after the expression
 * are not rejected.
 */
module Calculator {
  import opened Decimal
  import opened Tokens
  import opened Lexing
  import opened Lookahead
  import opened Parsing
  import opened Interpreting
  import opened Evaluation
  import opened Printing

  /** A rule's outcome without the lookahead state it ends in. */
  function Drop<T>(r: Result<(T, Cursor)>): Result<T> {
    match r
    case Err(e) => Err(e)
    case Ok((v, _)) => Ok(v)
  }

  /**
   * What Do returns for an input: expr of a fresh interpreter. It is the
   * value of the tree that the parser's expr builds from the same input, or
   * the same error.
   */
  function Outcome(pow: (Value, Value) -> Value, input: string): (r: Result<Value>)
    ensures r == Drop(Evaluated(pow, ParseExpr(Lex(input), Start(Lex(input)))))
  {
    var src := Lex(input);
    ExprAgrees(pow, src, Start(src));
    Drop(InterpExpr(pow, src, Start(src)))
  }

  /** Do: a new interpreter over the input, and its expr. */
  method Do(input: string, pow: (Value, Value) -> Value) returns (r: Result<Value>)
    ensures r == Outcome(pow, input)
  {
    var interpreter := new Interpreter(input, pow);
    r := interpreter.Expr();
  }

  /**
   * A printed tree, with a space run w before and w' after it and the same
   * run a before and b after every operator, calculates to the tree's value;
   * calculate, which also demands EOF after the expression, agrees on such
   * inputs.
   */
  lemma DoPrinted(pow: (Value, Value) -> Value, n: Node, w: string, a: string, b: string, w': string)
    requires Printable(n) && Spaces(w) && Spaces(a) && Spaces(b) && Spaces(w')
    ensures WellFormed(n)
    ensures var s := w + PrintExpr(n, a, b) + w';
      Outcome(pow, s) == Ok(Eval(pow, n))
      && InterpCalculate(pow, Lex(s), Start(Lex(s))) == Ok((Eval(pow, n), Cursor(Token(EOF, 0), |s|)))
  {
    PrintableIsWellFormed(n);
    var s := w + PrintExpr(n, a, b) + w';
    ParsePrinted(n, w, a, b, w');
    CalculateAgrees(pow, Lex(s), Start(Lex(s)));
  }

  /** DoPrinted for an input known to be a printed tree of a known value. */
  lemma DoPrintedAs(pow: (Value, Value) -> Value, n: Node, w: string, a: string, b: string, w': string, s: string, v: Value)
    requires Printable(n) && Spaces(w) && Spaces(a) && Spaces(b) && Spaces(w')
    requires s == w + PrintExpr(n, a, b) + w' && WellFormed(n) && Eval(pow, n) == v
    ensures Outcome(pow, s) == Ok(v)
  {
    DoPrinted(pow, n, w, a, b, w');
  }

  function Leaf'(v: nat): Node {
    Leaf(Token(Number, v))
  }

  function Bin(l: Node, k: TokenType, r: Node): Node {
    Binary(l, r, Token(k, 0))
  }

  /** A number prints as its digits at every level. */
  lemma PrintLeaf(v: nat, a: string, b: string)
    ensures PrintExpr(Leaf'(v), a, b) == NatToString(v)
    ensures PrintTerm(Leaf'(v), a, b) == NatToString(v)
    ensures PrintFactor(Leaf'(v), a, b) == NatToString(v)
  {
    assert PrintTerm(Leaf'(v), a, b) == PrintFactor(Leaf'(v), a, b);
  }

  // The inputs listed in the calculator's tests give the listed values. Each
  // input is the printed form of a tree: one lemma states how it prints, one
  // what it is worth, and DoPrintedAs joins the two.

  function OnePlusTwo(): Node {
    Bin(Leaf'(1), Plus, Leaf'(2))
  }

  lemma OnePlusTwoPrints()
    ensures "1+2" == "" + PrintExpr(OnePlusTwo(), "", "") + ""
  {
    PrintLeaf(1, "", "");
    PrintLeaf(2, "", "");
  }

  lemma OnePlusTwoValue(pow: (Value, Value) -> Value)
    ensures Printable(OnePlusTwo())
    ensures WellFormed(OnePlusTwo()) && Eval(pow, OnePlusTwo()) == Num(3.0)
  {
  }

  lemma ListedOnePlusTwo(pow: (Value, Value) -> Value)
    ensures Outcome(pow, "1+2") == Ok(Num(3.0))
  {
    OnePlusTwoPrints();
    OnePlusTwoValue(pow);
    DoPrintedAs(pow, OnePlusTwo(), "", "", "", "", "1+2", Num(3.0));
  }

  function TwoHundredMinusHundred(): Node {
    Bin(Leaf'(200), Minus, Leaf'(100))
  }

  lemma TwoHundredMinusHundredPrints()
    ensures "200-100" == "" + PrintExpr(TwoHundredMinusHundred(), "", "") + ""
  {
    PrintLeaf(200, "", "");
    PrintLeaf(100, "", "");
    assert NatToString(200) == "200" && NatToString(100) == "100" by {
      assert NatToString(20) == "20";
      assert NatToString(10) == "10";
    }
  }

  lemma TwoHundredMinusHundredValue(pow: (Value, Value) -> Value)
    ensures Printable(TwoHundredMinusHundred())
    ensures WellFormed(TwoHundredMinusHundred()) && Eval(pow, TwoHundredMinusHundred()) == Num(100.0)
  {
  }

  lemma ListedTwoHundredMinusHundred(pow: (Value, Value) -> Value)
    ensures Outcome(pow, "200-100") == Ok(Num(100.0))
  {
    TwoHundredMinusHundredPrints();
    TwoHundredMinusHundredValue(pow);
    DoPrintedAs(pow, TwoHundredMinusHundred(), "", "", "", "", "200-100", Num(100.0));
  }

  function SpacedSum(): Node {
    Bin(Leaf'(10), Plus, Leaf'(11))
  }

  lemma SpacedSumPrints()
    ensures " 10 +  11 " == " " + PrintExpr(SpacedSum(), " ", "  ") + " "
  {
    PrintLeaf(10, " ", "  ");
    PrintLeaf(11, " ", "  ");
  }

  lemma SpacedSumValue(pow: (Value, Value) -> Value)
    ensures Printable(SpacedSum())
    ensures WellFormed(SpacedSum()) && Eval(pow, SpacedSum()) == Num(21.0)
  {
  }

  lemma ListedSpacedSum(pow: (Value, Value) -> Value)
    ensures Outcome(pow, " 10 +  11 ") == Ok(Num(21.0))
  {
    SpacedSumPrints();
    SpacedSumValue(pow);
    DoPrintedAs(pow, SpacedSum(), " ", " ", "  ", " ", " 10 +  11 ", Num(21.0));
  }

  function ChainedSum(): Node {
    Bin(Bin(Leaf'(1), Plus, Leaf'(2)), Plus, Leaf'(3))
  }

  lemma ChainedSumPrints()
    ensures "1+2+3" == "" + PrintExpr(ChainedSum(), "", "") + ""
  {
    PrintLeaf(1, "", "");
    PrintLeaf(2, "", "");
    PrintLeaf(3, "", "");
  }

  lemma ChainedSumValue(pow: (Value, Value) -> Value)
    ensures Printable(ChainedSum())
    ensures WellFormed(ChainedSum()) && Eval(pow, ChainedSum()) == Num(6.0)
  {
    assert Eval(pow, ChainedSum().left) == Num(3.0);
  }

  lemma ListedChainedSum(pow: (Value, Value) -> Value)
    ensures Outcome(pow, "1+2+3") == Ok(Num(6.0))
  {
    ChainedSumPrints();
    ChainedSumValue(pow);
    DoPrintedAs(pow, ChainedSum(), "", "", "", "", "1+2+3", Num(6.0));
  }

  function ProductFirst(): Node {
    Bin(Leaf'(2), Plus, Bin(Leaf'(7), Multiple, Leaf'(4)))
  }

  lemma ProductFirstPrints()
    ensures "2 + 7 * 4" == "" + PrintExpr(ProductFirst(), " ", " ") + ""
  {
    PrintLeaf(2, " ", " ");
    PrintLeaf(7, " ", " ");
    PrintLeaf(4, " ", " ");
  }

  lemma ProductFirstValue(pow: (Value, Value) -> Value)
    ensures Printable(ProductFirst())
    ensures WellFormed(ProductFirst()) && Eval(pow, ProductFirst()) == Num(30.0)
  {
    assert Eval(pow, ProductFirst().right) == Num(28.0);
  }

  lemma ListedProductFirst(pow: (Value, Value) -> Value)
    ensures Outcome(pow, "2 + 7 * 4") == Ok(Num(30.0))
  {
    ProductFirstPrints();
    ProductFirstValue(pow);
    DoPrintedAs(pow, ProductFirst(), "", " ", " ", "", "2 + 7 * 4", Num(30.0));
  }

  function QuotientFirst(): Node {
    Bin(Leaf'(7), Minus, Bin(Leaf'(8), Divide, Leaf'(4)))
  }

  lemma QuotientFirstPrints()
    ensures "7 - 8 / 4" == "" + PrintExpr(QuotientFirst(), " ", " ") + ""
  {
    PrintLeaf(7, " ", " ");
    PrintLeaf(8, " ", " ");
    PrintLeaf(4, " ", " ");
  }

  lemma QuotientFirstValue(pow: (Value, Value) -> Value)
    ensures Printable(QuotientFirst())
    ensures WellFormed(QuotientFirst()) && Eval(pow, QuotientFirst()) == Num(5.0)
  {
    assert Eval(pow, QuotientFirst().right) == Num(2.0);
  }

  lemma ListedQuotientFirst(pow: (Value, Value) -> Value)
    ensures Outcome(pow, "7 - 8 / 4") == Ok(Num(5.0))
  {
    QuotientFirstPrints();
    QuotientFirstValue(pow);
    DoPrintedAs(pow, QuotientFirst(), "", " ", " ", "", "7 - 8 / 4", Num(5.0));
  }

  /** 14 + 2 * 3 - 6 / 2 as a tree. */
  function MixedTree(): Node {
    Bin(Bin(Leaf'(14), Plus, Bin(Leaf'(2), Multiple, Leaf'(3))), Minus, Bin(Leaf'(6), Divide, Leaf'(2)))
  }

  lemma MixedPrints()
    ensures "14 + 2 * 3 - 6 / 2" == "" + PrintExpr(MixedTree(), " ", " ") + ""
  {
  }

  lemma MixedValue(pow: (Value, Value) -> Value)
    ensures Printable(MixedTree())
    ensures WellFormed(MixedTree()) && Eval(pow, MixedTree()) == Num(17.0)
  {
    var n := MixedTree();
    assert Eval(pow, n.left.right) == Num(6.0);
    assert Eval(pow, n.left) == Num(20.0);
    assert Eval(pow, n.right) == Num(3.0);
  }

  lemma ListedMixed(pow: (Value, Value) -> Value)
    ensures Outcome(pow, "14 + 2 * 3 - 6 / 2") == Ok(Num(17.0))
  {
    MixedPrints();
    MixedValue(pow);
    DoPrintedAs(pow, MixedTree(), "", " ", " ", "", "14 + 2 * 3 - 6 / 2", Num(17.0));
  }

  // Both loops fold to the left: a - b - c is (a - b) - c, a / b / c is (a / b) / c.

  function Differences(): Node {
    Bin(Bin(Leaf'(8), Minus, Leaf'(4)), Minus, Leaf'(2))
  }

  lemma DifferencesPrint()
    ensures "8-4-2" == "" + PrintExpr(Differences(), "", "") + ""
  {
    PrintLeaf(8, "", "");
    PrintLeaf(4, "", "");
    PrintLeaf(2, "", "");
  }

  lemma DifferencesValue(pow: (Value, Value) -> Value)
    ensures Printable(Differences())
    ensures WellFormed(Differences()) && Eval(pow, Differences()) == Num(2.0)
  {
    assert Eval(pow, Differences().left) == Num(4.0);
  }

  /** "8-4-2" is (8-4)-2 = 2, not 8-(4-2) = 6. */
  lemma SubtractionFoldsLeft(pow: (Value, Value) -> Value)
    ensures Outcome(pow, "8-4-2") == Ok(Num(2.0))
  {
    DifferencesPrint();
    DifferencesValue(pow);
    DoPrintedAs(pow, Differences(), "", "", "", "", "8-4-2", Num(2.0));
  }

  function Quotients(): Node {
    Bin(Bin(Leaf'(8), Divide, Leaf'(4)), Divide, Leaf'(2))
  }

  lemma QuotientsPrint()
    ensures "8/4/2" == "" + PrintExpr(Quotients(), "", "") + ""
  {
    PrintLeaf(8, "", "");
    PrintLeaf(4, "", "");
    PrintLeaf(2, "", "");
    assert PrintExpr(Quotients(), "", "") == PrintTerm(Quotients(), "", "");
  }

  lemma QuotientsValue(pow: (Value, Value) -> Value)
    ensures Printable(Quotients())
    ensures WellFormed(Quotients()) && Eval(pow, Quotients()) == Num(1.0)
  {
    assert Eval(pow, Quotients().left) == Num(2.0);
  }

  /** "8/4/2" is (8/4)/2 = 1, not 8/(4/2) = 4. */
  lemma DivisionFoldsLeft(pow: (Value, Value) -> Value)
    ensures Outcome(pow, "8/4/2") == Ok(Num(1.0))
  {
    QuotientsPrint();
    QuotientsValue(pow);
    DoPrintedAs(pow, Quotients(), "", "", "", "", "8/4/2", Num(1.0));
  }

  // Division by zero is no error: the float64 special values flow on.

  function Reciprocals(): Node {
    Bin(Leaf'(1), Divide, Bin(Leaf'(1), Divide, Leaf'(0)))
  }

  lemma ReciprocalsPrint()
    ensures "1/(1/0)" == "" + PrintExpr(Reciprocals(), "", "") + ""
  {
    PrintLeaf(1, "", "");
    PrintLeaf(0, "", "");
    assert PrintExpr(Reciprocals(), "", "") == PrintTerm(Reciprocals(), "", "");
  }

  lemma ReciprocalsValue(pow: (Value, Value) -> Value)
    ensures Printable(Reciprocals())
    ensures WellFormed(Reciprocals()) && Eval(pow, Reciprocals()) == Num(0.0)
  {
    assert Eval(pow, Reciprocals().right) == PosInf;
  }

  /** "1/(1/0)": 1/0 is +inf, and 1 divided by +inf is 0, not an error. */
  lemma DivisionByInfinity(pow: (Value, Value) -> Value)
    ensures Outcome(pow, "1/(1/0)") == Ok(Num(0.0))
  {
    ReciprocalsPrint();
    ReciprocalsValue(pow);
    DoPrintedAs(pow, Reciprocals(), "", "", "", "", "1/(1/0)", Num(0.0));
  }

  function SignedZero(): Node {
    Bin(Leaf'(1), Divide, Bin(Bin(Leaf'(0), Minus, Leaf'(1)), Multiple, Leaf'(0)))
  }

  lemma SignedZeroPrint()
    ensures "1/((0-1)*0)" == "" + PrintExpr(SignedZero(), "", "") + ""
  {
    PrintLeaf(1, "", "");
    PrintLeaf(0, "", "");
    var m := SignedZero().right;
    assert PrintTerm(m.left, "", "") == "(0-1)";
    assert PrintFactor(m, "", "") == "((0-1)*0)";
    assert PrintExpr(SignedZero(), "", "") == PrintTerm(SignedZero(), "", "");
  }

  lemma SignedZeroValue(pow: (Value, Value) -> Value)
    ensures Printable(SignedZero())
    ensures WellFormed(SignedZero()) && Eval(pow, SignedZero()) == NegInf
  {
    assert Eval(pow, SignedZero().right.left) == Num(-1.0);
    assert Eval(pow, SignedZero().right) == NegZero;
  }

  /** "1/((0-1)*0)": -1 * 0 is the negative zero, and 1 divided by it is -inf. */
  lemma DivisionByNegativeZero(pow: (Value, Value) -> Value)
    ensures Outcome(pow, "1/((0-1)*0)") == Ok(NegInf)
  {
    SignedZeroPrint();
    SignedZeroValue(pow);
    DoPrintedAs(pow, SignedZero(), "", "", "", "", "1/((0-1)*0)", NegInf);
  }

  function ZeroByZero(): Node {
    Bin(Leaf'(0), Divide, Leaf'(0))
  }

  /** "0/0" is NaN, not an error. */
  lemma ZeroDividedByZero(pow: (Value, Value) -> Value)
    ensures Outcome(pow, "0/0") == Ok(NaN)
  {
    PrintLeaf(0, "", "");
    assert "0/0" == "" + PrintExpr(ZeroByZero(), "", "") + "" by {
      assert PrintExpr(ZeroByZero(), "", "") == PrintTerm(ZeroByZero(), "", "");
    }
    assert Printable(ZeroByZero()) && Eval(pow, ZeroByZero()) == NaN;
    DoPrintedAs(pow, ZeroByZero(), "", "", "", "", "0/0", NaN);
  }

  // 7 + 3 * (10 / (12 / (3 + 1) - 1)), subtree by subtree.

  function SumTree(): Node {
    Bin(Leaf'(3), Plus, Leaf'(1))
  }

  function QuotientTree(): Node {
    Bin(Leaf'(12), Divide, SumTree())
  }

  function DifferenceTree(): Node {
    Bin(QuotientTree(), Minus, Leaf'(1))
  }

  function InnerTree(): Node {
    Bin(Leaf'(10), Divide, DifferenceTree())
  }

  function ParenthesesTree(): Node {
    Bin(Leaf'(7), Plus, Bin(Leaf'(3), Multiple, InnerTree()))
  }

  lemma SumPrints()
    ensures PrintFactor(SumTree(), " ", " ") == "(3 + 1)"
  {
  }

  lemma DifferencePrints(x: Node, t: string)
    requires PrintFactor(x, " ", " ") == t
    ensures PrintFactor(Bin(Bin(Leaf'(12), Divide, x), Minus, Leaf'(1)), " ", " ") == "(12 / " + t + " - 1)"
  {
    PrintLeaf(12, " ", " ");
    PrintLeaf(1, " ", " ");
    var q := Bin(Leaf'(12), Divide, x);
    assert PrintExpr(q, " ", " ") == PrintTerm(q, " ", " ") == "12" + " / " + t;
  }

  lemma InnerPrints(x: Node, t: string)
    requires PrintFactor(x, " ", " ") == t
    ensures PrintFactor(Bin(Leaf'(10), Divide, x), " ", " ") == "(10 / " + t + ")"
  {
    PrintLeaf(10, " ", " ");
  }

  lemma OuterPrints(x: Node, t: string)
    requires PrintFactor(x, " ", " ") == t
    ensures PrintExpr(Bin(Leaf'(7), Plus, Bin(Leaf'(3), Multiple, x)), " ", " ") == "7 + 3 * " + t
  {
    PrintLeaf(7, " ", " ");
    PrintLeaf(3, " ", " ");
  }

  /** The input, cut where the printer joins its pieces. */
  lemma ParenthesesPieces()
    ensures "7 + 3 * (10 / (12 / (3 + 1) - 1))"
      == "" + ("7 + 3 * " + ("(10 / " + ("(12 / " + "(3 + 1)" + " - 1)") + ")")) + ""
  {
  }

  lemma ParenthesesPrint()
    ensures "7 + 3 * (10 / (12 / (3 + 1) - 1))" == "" + PrintExpr(ParenthesesTree(), " ", " ") + ""
  {
    SumPrints();
    DifferencePrints(SumTree(), "(3 + 1)");
    InnerPrints(DifferenceTree(), "(12 / " + "(3 + 1)" + " - 1)");
    OuterPrints(InnerTree(), "(10 / " + ("(12 / " + "(3 + 1)" + " - 1)") + ")");
    ParenthesesPieces();
  }

  lemma ParenthesesValue(pow: (Value, Value) -> Value)
    ensures Printable(ParenthesesTree())
    ensures WellFormed(ParenthesesTree()) && Eval(pow, ParenthesesTree()) == Num(22.0)
  {
    assert Eval(pow, SumTree()) == Num(4.0);
    assert Eval(pow, QuotientTree()) == Num(3.0);
    assert Eval(pow, DifferenceTree()) == Num(2.0);
    assert Eval(pow, InnerTree()) == Num(5.0);
    assert Eval(pow, ParenthesesTree().right) == Num(15.0);
  }

  lemma ListedParentheses(pow: (Value, Value) -> Value)
    ensures Outcome(pow, "7 + 3 * (10 / (12 / (3 + 1) - 1))") == Ok(Num(22.0))
  {
    ParenthesesPrint();
    ParenthesesValue(pow);
    DoPrintedAs(pow, ParenthesesTree(), "", " ", " ", "", "7 + 3 * (10 / (12 / (3 + 1) - 1))", Num(22.0));
  }

  // Inputs that are not a whole expression.

  /** The tokens of "1 2". */
  lemma TrailingTokens()
    ensures At(Lex("1 2"), 0) == Cursor(Token(Number, 1), 1)
    ensures At(Lex("1 2"), 1) == Cursor(Token(Number, 2), 3)
  {
    var s := "1 2";
    assert Next(s, 0) == (Token(Number, 1), 1);
    assert Next(s, 1) == (Token(Number, 2), 3);
  }

  /** Over a source that reads two numbers: expr takes the first, parse rejects the second. */
  lemma TrailingParse(src: Source)
    requires Steps(src) && 3 <= src.end
    requires At(src, 0) == Cursor(Token(Number, 1), 1)
    requires At(src, 1) == Cursor(Token(Number, 2), 3)
    ensures ParseExpr(src, At(src, 0)) == Ok((Leaf'(1), At(src, 1)))
    ensures ParseInput(src, At(src, 0)) == Err(UnexpectedTokenError(3, Token(Number, 2), [EOF]))
  {
    assert ParseNumber(src, At(src, 0)) == Ok((Leaf'(1), At(src, 1)));
    assert ParseFactor(src, At(src, 0)) == Ok((Leaf'(1), At(src, 1)));
    assert ParseTerm(src, At(src, 0)) == Ok((Leaf'(1), At(src, 1)));
  }

  /** "1 2": expr stops before the second number, which only calculate rejects. */
  lemma TrailingNumber(pow: (Value, Value) -> Value)
    ensures Outcome(pow, "1 2") == Ok(Num(1.0))
    ensures InterpCalculate(pow, Lex("1 2"), Start(Lex("1 2")))
      == Err(UnexpectedTokenError(3, Token(Number, 2), [EOF]))
  {
    TrailingTokens();
    TrailingParse(Lex("1 2"));
    CalculateAgrees(pow, Lex("1 2"), Start(Lex("1 2")));
  }

  /** The tokens of "1+". */
  lemma DanglingTokens()
    ensures At(Lex("1+"), 0) == Cursor(Token(Number, 1), 1)
    ensures At(Lex("1+"), 1) == Cursor(Token(Plus, 0), 2)
    ensures At(Lex("1+"), 2) == Cursor(Token(EOF, 0), 2)
  {
    var s := "1+";
    assert Next(s, 0) == (Token(Number, 1), 1);
    assert Next(s, 1) == (Token(Plus, 0), 2);
    assert Next(s, 2) == (Token(EOF, 0), 2);
  }

  /** Over a source that reads 1 + and then EOF, expr fails at EOF. */
  lemma DanglingParse(src: Source)
    requires Steps(src) && 2 <= src.end
    requires At(src, 0) == Cursor(Token(Number, 1), 1)
    requires At(src, 1) == Cursor(Token(Plus, 0), 2)
    requires At(src, 2) == Cursor(Token(EOF, 0), 2)
    ensures ParseExpr(src, At(src, 0)) == Err(UnexpectedTokenError(2, Token(EOF, 0), [Number, LParen]))
  {
    assert ParseNumber(src, At(src, 0)) == Ok((Leaf'(1), At(src, 1)));
    assert ParseFactor(src, At(src, 0)) == Ok((Leaf'(1), At(src, 1)));
    assert ParseTerm(src, At(src, 0)) == Ok((Leaf'(1), At(src, 1)));
    var e := UnexpectedTokenError(2, Token(EOF, 0), [Number, LParen]);
    assert ParseNumber(src, At(src, 2)) == Err(e);
    assert ParseFactor(src, At(src, 2)) == Err(e);
    assert ParseTerm(src, At(src, 2)) == Err(e);
    assert ParseExprRest(src, At(src, 1), Leaf'(1)) == Err(e);
  }

  /** "1+": EOF where the right operand of + should begin. */
  lemma MissingOperand(pow: (Value, Value) -> Value)
    ensures Outcome(pow, "1+") == Err(UnexpectedTokenError(2, Token(EOF, 0), [Number, LParen]))
  {
    DanglingTokens();
    DanglingParse(Lex("1+"));
  }

  /** The tokens of "(1+2", position by position. */
  lemma UnclosedTokens()
    ensures At(Lex("(1+2"), 0) == Cursor(Token(LParen, 0), 1)
    ensures At(Lex("(1+2"), 1) == Cursor(Token(Number, 1), 2)
    ensures At(Lex("(1+2"), 2) == Cursor(Token(Plus, 0), 3)
    ensures At(Lex("(1+2"), 3) == Cursor(Token(Number, 2), 4)
    ensures At(Lex("(1+2"), 4) == Cursor(Token(EOF, 0), 4)
  {
    var s := "(1+2";
    assert Next(s, 0) == (Token(LParen, 0), 1);
    assert Next(s, 1) == (Token(Number, 1), 2);
    assert Next(s, 2) == (Token(Plus, 0), 3);
    assert Next(s, 3) == (Token(Number, 2), 4);
    assert Next(s, 4) == (Token(EOF, 0), 4);
  }

  /** Over any token source that reads ( 1 + 2 and then EOF, expr stops at EOF. */
  lemma UnclosedParse(src: Source)
    requires Steps(src) && 4 <= src.end
    requires At(src, 0) == Cursor(Token(LParen, 0), 1)
    requires At(src, 1) == Cursor(Token(Number, 1), 2)
    requires At(src, 2) == Cursor(Token(Plus, 0), 3)
    requires At(src, 3) == Cursor(Token(Number, 2), 4)
    requires At(src, 4) == Cursor(Token(EOF, 0), 4)
    ensures ParseExpr(src, At(src, 0)) == Err(UnexpectedTokenError(4, Token(EOF, 0), [RParen]))
  {
    assert ParseNumber(src, At(src, 1)) == Ok((Leaf'(1), At(src, 2)));
    assert ParseFactor(src, At(src, 1)) == Ok((Leaf'(1), At(src, 2)));
    assert ParseTerm(src, At(src, 1)) == Ok((Leaf'(1), At(src, 2)));
    assert ParseNumber(src, At(src, 3)) == Ok((Leaf'(2), At(src, 4)));
    assert ParseFactor(src, At(src, 3)) == Ok((Leaf'(2), At(src, 4)));
    assert ParseTerm(src, At(src, 3)) == Ok((Leaf'(2), At(src, 4)));
    var sum := Bin(Leaf'(1), Plus, Leaf'(2));
    assert ParseExprRest(src, At(src, 4), sum) == Ok((sum, At(src, 4)));
    assert ParseExprRest(src, At(src, 2), Leaf'(1)) == Ok((sum, At(src, 4)));
    assert ParseExpr(src, At(src, 1)) == Ok((sum, At(src, 4)));
    assert ParseNumber(src, At(src, 0)) == Err(UnexpectedTokenError(4, Token(EOF, 0), [RParen]));
    assert ParseFactor(src, At(src, 0)) == Err(UnexpectedTokenError(4, Token(EOF, 0), [RParen]));
    assert ParseTerm(src, At(src, 0)) == Err(UnexpectedTokenError(4, Token(EOF, 0), [RParen]));
  }

  /** "(1+2": EOF where the closing parenthesis should be. */
  lemma MissingParenthesis(pow: (Value, Value) -> Value)
    ensures Outcome(pow, "(1+2") == Err(UnexpectedTokenError(4, Token(EOF, 0), [RParen]))
  {
    UnclosedTokens();
    UnclosedParse(Lex("(1+2"));
  }
}
