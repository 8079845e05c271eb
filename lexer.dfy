/**
 * The scanner (lexer.go): a cursor over the input that yields one token per
 * call. Next is the pure meaning of one call; the Lexer class is the cursor
 * object whose methods step its position as the Go code does.
 */
module Lexing {
  import opened Decimal
  import opened Tokens

  /** The first position at or after i that does not hold a space. */
  function SkipSpaces(s: string, i: nat): (j: nat)
    requires i <= |s|
    ensures i <= j <= |s|
    ensures forall k :: i <= k < j ==> s[k] == ' '
    ensures j == |s| || s[j] != ' '
    decreases |s| - i
  {
    if i < |s| && s[i] == ' ' then SkipSpaces(s, i + 1) else i
  }

  /** The end of the maximal run of digits that starts at i. */
  function DigitRunEnd(s: string, i: nat): (j: nat)
    requires i <= |s|
    ensures i <= j <= |s|
    ensures AllDigits(s[i..j])
    ensures j == |s| || !IsDigit(s[j])
    decreases |s| - i
  {
    if i < |s| && IsDigit(s[i]) then
      var j := DigitRunEnd(s, i + 1);
      assert s[i..j] == [s[i]] + s[i + 1..j];
      j
    else i
  }

  /** Whether a token of this kind is made of input characters (EOF and Error are not). */
  predicate Consumes(k: TokenType) {
    k != EOF && k != Error
  }

  /** The single-character tokens and their kinds. */
  predicate IsPunctuation(c: char) {
    c == '+' || c == '-' || c == '*' || c == '/' || c == '(' || c == ')'
  }

  function PunctuationKind(c: char): TokenType
    requires IsPunctuation(c)
  {
    match c
    case '+' => Plus
    case '-' => Minus
    case '*' => Multiple
    case '/' => Divide
    case '(' => LParen
    case ')' => RParen
  }

  /**
   * One GetToken call from position pos: the token and the new position.
   * The position never moves back nor past the end, and every token that
   * stands for input characters moves it forward.
   */
  function Next(s: string, pos: nat): (r: (Token, nat))
    requires pos <= |s|
    ensures pos <= r.1 <= |s|
    ensures Consumes(r.0.kind) ==> pos < r.1
  {
    var p := SkipSpaces(s, pos);
    if p >= |s| then (Token(EOF, 0), p)
    else
      var ch := s[p];
      if IsDigit(ch) then
        var e := DigitRunEnd(s, p);
        (Token(Number, DecimalValue(s[p..e])), e)
      else if ch == '+' then (Token(Plus, 0), p + 1)
      else if ch == '-' then (Token(Minus, 0), p + 1)
      else if ch == '*' then (Token(Multiple, 0), p + 1)
      else if ch == '/' then (Token(Divide, 0), p + 1)
      else if ch == '(' then (Token(LParen, 0), p + 1)
      else if ch == ')' then (Token(RParen, 0), p + 1)
      else (Token(Error, 0), p)
  }

  /** SkipSpaces is the only position with its two properties. */
  lemma SkipSpacesUnique(s: string, i: nat, k: nat)
    requires i <= k <= |s|
    requires forall m :: i <= m < k ==> s[m] == ' '
    requires k == |s| || s[k] != ' '
    ensures SkipSpaces(s, i) == k
  {
  }

  /** DigitRunEnd is the only position with its two properties. */
  lemma DigitRunEndUnique(s: string, i: nat, k: nat)
    requires i <= k <= |s|
    requires forall m :: i <= m < k ==> IsDigit(s[m])
    requires k == |s| || !IsDigit(s[k])
    ensures DigitRunEnd(s, i) == k
    decreases k - i
  {
    if i < k {
      DigitRunEndUnique(s, i + 1, k);
    }
  }

  /** Starting inside a run of spaces or at its end makes no difference. */
  lemma NextSkipsSpaces(s: string, i: nat, j: nat)
    requires i <= j <= |s|
    requires forall m :: i <= m < j ==> s[m] == ' '
    ensures Next(s, i) == Next(s, j)
  {
    SkipSpacesUnique(s, i, SkipSpaces(s, j));
  }

  /**
   * EOF comes exactly when only spaces remain; it leaves the position at the
   * end, and the next call yields EOF again.
   */
  lemma NextEof(s: string, pos: nat)
    requires pos <= |s|
    ensures Next(s, pos).0.kind == EOF <==> forall m :: pos <= m < |s| ==> s[m] == ' '
    ensures Next(s, pos).0.kind == EOF ==> Next(s, pos).1 == |s| && Next(s, |s|) == Next(s, pos)
  {
    if forall m :: pos <= m < |s| ==> s[m] == ' ' {
      SkipSpacesUnique(s, pos, |s|);
    }
  }

  /**
   * A Number comes exactly when the first non-space is a digit; its value is
   * that of the maximal digit run and the position ends just past the run.
   */
  lemma NextNumber(s: string, pos: nat)
    requires pos <= |s|
    ensures var p := SkipSpaces(s, pos);
      Next(s, pos).0.kind == Number <==> p < |s| && IsDigit(s[p])
    ensures var p, r := SkipSpaces(s, pos), Next(s, pos);
      r.0.kind == Number ==>
        p < r.1 && AllDigits(s[p..r.1]) && (r.1 == |s| || !IsDigit(s[r.1]))
        && r.0.value == DecimalValue(s[p..r.1])
  {
  }

  /** Each of + - * / ( ) has its own kind and takes exactly one character. */
  lemma NextPunctuation(s: string, pos: nat)
    requires pos <= |s|
    requires SkipSpaces(s, pos) < |s| && IsPunctuation(s[SkipSpaces(s, pos)])
    ensures Next(s, pos) == (Token(PunctuationKind(s[SkipSpaces(s, pos)]), 0), SkipSpaces(s, pos) + 1)
  {
  }

  /**
   * Any other character gives an Error token; the position stops on it, so
   * the next call gives the same Error again.
   */
  lemma NextError(s: string, pos: nat)
    requires pos <= |s|
    ensures var p := SkipSpaces(s, pos);
      Next(s, pos).0.kind == Error <==> p < |s| && !IsDigit(s[p]) && !IsPunctuation(s[p])
    ensures Next(s, pos).0.kind == Error ==>
      Next(s, pos).1 == SkipSpaces(s, pos) && Next(s, Next(s, pos).1) == Next(s, pos)
  {
    var p := SkipSpaces(s, pos);
    if Next(s, pos).0.kind == Error {
      SkipSpacesUnique(s, p, p);
    }
  }

  /** The scanner never produces Power: '^' is not one of its characters. */
  lemma NextNeverPower(s: string, pos: nat)
    requires pos <= |s|
    ensures Next(s, pos).0.kind != Power
    ensures Next(s, pos).0.kind != Number ==> Next(s, pos).0.value == 0
  {
  }

  /** Only ' ' is skipped: a tab, a '^' or a '.' is an Error, and "-3" starts with Minus. */
  lemma NextExamples()
    ensures Next("\t1", 0) == (Token(Error, 0), 0)
    ensures Next(" ^2", 0) == (Token(Error, 0), 1)
    ensures Next("1.5", 1) == (Token(Error, 0), 1)
    ensures Next("-3", 0) == (Token(Minus, 0), 1)
    ensures Next("  42+", 0) == (Token(Number, 42), 4)
  {
    assert SkipSpaces(" ^2", 0) == 1;
    assert SkipSpaces("  42+", 0) == 2;
    assert DigitRunEnd("  42+", 2) == 4;
    assert "  42+"[2..4] == "42";
    assert DecimalValue("42") == 42 by {
      assert "42"[..1] == "4";
    }
  }

  /** The scanner's cursor: the input and the position of the next character. */
  class Lexer {
    const input: string
    var pos: nat

    ghost predicate Valid()
      reads this
    {
      pos <= |input|
    }

    constructor (input: string)
      ensures Valid() && this.input == input && pos == 0
    {
      this.input := input;
      pos := 0;
    }

    /** Moves one character forward, except at the end. */
    method Advance()
      requires Valid()
      modifies this
      ensures Valid()
      ensures pos == if old(pos) < |input| then old(pos) + 1 else old(pos)
    {
      if pos < |input| {
        pos := pos + 1;
      }
    }

    /** Steps over spaces (only ' '). */
    method SkipWhitespace()
      requires Valid()
      modifies this
      ensures Valid() && pos == SkipSpaces(input, old(pos))
    {
      while pos < |input| && input[pos] == ' '
        invariant Valid()
        invariant SkipSpaces(input, pos) == SkipSpaces(input, old(pos))
        decreases |input| - pos
      {
        pos := pos + 1;
      }
    }

    /**
     * Reads the digit run at pos. The caller guarantees that pos is on a
     * digit (otherwise the Go code's ParseFloat fails and it panics).
     */
    method GetNumber() returns (value: nat)
      requires Valid() && pos < |input| && IsDigit(input[pos])
      modifies this
      ensures Valid() && pos == DigitRunEnd(input, old(pos))
      ensures value == DecimalValue(input[old(pos)..pos])
    {
      var valueEndIndex := pos + 1;
      while valueEndIndex < |input|
        invariant pos < valueEndIndex <= |input|
        invariant DigitRunEnd(input, valueEndIndex) == DigitRunEnd(input, pos)
        decreases |input| - valueEndIndex
      {
        var ch := input[valueEndIndex];
        if '0' <= ch <= '9' {
          valueEndIndex := valueEndIndex + 1;
          continue;
        }
        break;
      }
      value := DecimalValue(input[pos..valueEndIndex]);
      pos := valueEndIndex;
    }

    /** The next token, as Next describes it. */
    method GetToken() returns (tok: Token)
      requires Valid()
      modifies this
      ensures Valid() && (tok, pos) == Next(input, old(pos))
    {
      SkipWhitespace();
      if pos >= |input| {
        return Token(EOF, 0);
      }
      var ch := input[pos];
      if '0' <= ch <= '9' {
        var v := GetNumber();
        tok := Token(Number, v);
      } else if ch == '+' {
        Advance();
        tok := Token(Plus, 0);
      } else if ch == '-' {
        Advance();
        tok := Token(Minus, 0);
      } else if ch == '*' {
        Advance();
        tok := Token(Multiple, 0);
      } else if ch == '/' {
        Advance();
        tok := Token(Divide, 0);
      } else if ch == '(' {
        Advance();
        tok := Token(LParen, 0);
      } else if ch == ')' {
        Advance();
        tok := Token(RParen, 0);
      } else {
        tok := Token(Error, 0);
      }
    }
  }
}
