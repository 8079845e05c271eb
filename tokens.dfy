/**
 * Token kinds, tokens and the unexpected-token error with its message
 * (token.go).
 */
module Tokens {
  import opened Decimal

  /**
   * The token kinds. The first seven are the constants declared in token.go;
   * Power, LParen and RParen are used by the parser and the interpreter but
   * not declared there, so they are added here after the declared ones.
   */
  datatype TokenType =
    | Number | Plus | Minus | Multiple | Divide | EOF | Error
    | Power | LParen | RParen

  /** The integer constant of each kind: iota from 1, so 0 is no kind. */
  function Code(k: TokenType): (n: nat)
    ensures 1 <= n <= 10
    ensures n <= 7 <==> !(k.Power? || k.LParen? || k.RParen?)
  {
    match k
    case Number => 1
    case Plus => 2
    case Minus => 3
    case Multiple => 4
    case Divide => 5
    case EOF => 6
    case Error => 7
    case Power => 8
    case LParen => 9
    case RParen => 10
  }

  /** Distinct kinds have distinct constants. */
  lemma CodeInjective(j: TokenType, k: TokenType)
    requires Code(j) == Code(k)
    ensures j == k
  {
  }

  /**
   * A token: its kind and, for a Number, the value of its digit run (the
   * other kinds carry Go's zero value, 0).
   */
  datatype Token = Token(kind: TokenType, value: nat)

  /**
   * The name table. A kind missing from the Go map reads as the map's zero
   * value, the empty string: that is the case for Power, LParen and RParen.
   */
  function TypeName(k: TokenType): string {
    match k
    case Number => "number"
    case Plus => "plus"
    case Minus => "minus"
    case Multiple => "multiple"
    case Divide => "devide"
    case EOF => "EOF"
    case Error => "error"
    case _ => ""
  }

  /** The seven declared kinds have distinct non-empty names; the rest have "". */
  lemma TypeNames(j: TokenType, k: TokenType)
    ensures TypeName(k) == "" <==> Code(k) > 7
    ensures Code(j) <= 7 && TypeName(j) == TypeName(k) ==> j == k
  {
  }

  /** The error raised when a rule finds a token of a kind it does not accept. */
  datatype UnexpectedTokenError =
    UnexpectedTokenError(index: int, token: Token, expected: seq<TokenType>)

  /** The result of a rule: a value, or the error that aborted it. */
  datatype Result<T> = Ok(value: T) | Err(error: UnexpectedTokenError)

  function NewUnexpectedTokenError(index: int, token: Token, expected: seq<TokenType>)
    : (e: UnexpectedTokenError)
    ensures e.index == index && e.token == token && e.expected == expected
  {
    UnexpectedTokenError(index, token, expected)
  }

  /** The names of the given kinds, in order. */
  function Names(ks: seq<TokenType>): (names: seq<string>)
    ensures |names| == |ks|
    ensures forall i :: 0 <= i < |ks| ==> names[i] == TypeName(ks[i])
  {
    seq(|ks|, i requires 0 <= i < |ks| => TypeName(ks[i]))
  }

  /** The summed lengths of the parts. */
  function TotalLength(parts: seq<string>): nat {
    if |parts| == 0 then 0 else |parts[0]| + TotalLength(parts[1..])
  }

  /**
   * strings.Join: the parts with sep between neighbours, so one sep fewer
   * than there are parts.
   */
  function Join(parts: seq<string>, sep: string): (r: string)
    ensures |parts| == 0 ==> r == ""
    ensures |parts| > 0 ==> |r| == TotalLength(parts) + (|parts| - 1) * |sep|
    ensures |parts| > 0 ==> |parts[0]| <= |r| && r[..|parts[0]|] == parts[0]
  {
    if |parts| == 0 then ""
    else if |parts| == 1 then parts[0]
    else
      var rest := Join(parts[1..], sep);
      assert (|parts| - 1) * |sep| == (|parts| - 2) * |sep| + |sep|;
      assert (parts[0] + sep + rest)[..|parts[0]|] == parts[0];
      parts[0] + sep + rest
  }

  /** Appending a part appends sep and that part. */
  lemma {:induction false} JoinSnoc(parts: seq<string>, p: string, sep: string)
    requires |parts| > 0
    ensures Join(parts + [p], sep) == Join(parts, sep) + sep + p
  {
    if |parts| > 1 {
      assert (parts + [p])[1..] == parts[1..] + [p];
      JoinSnoc(parts[1..], p, sep);
    }
  }

  /** A string cut into three: the first piece opens it and the last closes it. */
  lemma Affixes(head: string, middle: string, tail: string)
    ensures (head + middle + tail)[..|head|] == head
    ensures (head + middle + tail)[|head + middle|..] == tail
  {
  }

  /**
   * What Error() renders for an error: "Index: <i>. ", then "Unexpected" or
   * the expected names, then " token <name>." for the token found.
   */
  function Message(err: UnexpectedTokenError): (m: string)
    ensures var head := "Index: " + IntToString(err.index) + ". ";
      |head| <= |m| && m[..|head|] == head
    ensures var tail := " token " + TypeName(err.token.kind) + ".";
      |tail| <= |m| && m[|m| - |tail|..] == tail
  {
    var head := "Index: " + IntToString(err.index) + ". ";
    var middle :=
      if |err.expected| == 0 then "Unexpected"
      else "Expected to get tokens of type " + Join(Names(err.expected), " or ") + ". Got";
    var tail := " token " + TypeName(err.token.kind) + ".";
    Affixes(head, middle, tail);
    head + middle + tail
  }

  /** Error(): collects the expected kinds' names in a loop, then joins them. */
  method ErrorMessage(err: UnexpectedTokenError) returns (msg: string)
    ensures msg == Message(err)
  {
    var head := "Index: " + IntToString(err.index) + ". ";
    var tail := " token " + TypeName(err.token.kind) + ".";
    if |err.expected| == 0 {
      return head + "Unexpected" + tail;
    }
    var strs: seq<string> := [];
    for i := 0 to |err.expected|
      invariant |strs| == i
      invariant forall j :: 0 <= j < i ==> strs[j] == TypeName(err.expected[j])
    {
      strs := strs + [TypeName(err.expected[i])];
    }
    assert strs == Names(err.expected);
    msg := head + ("Expected to get tokens of type " + Join(strs, " or ") + ". Got") + tail;
  }

  /**
   * The expected kinds are named in the order given: one more kind adds
   * " or " and its name at the end.
   */
  lemma ExpectedInOrder(ks: seq<TokenType>, k: TokenType)
    requires |ks| > 0
    ensures Join(Names(ks + [k]), " or ") == Join(Names(ks), " or ") + " or " + TypeName(k)
  {
    assert Names(ks + [k]) == Names(ks) + [TypeName(k)];
    JoinSnoc(Names(ks), TypeName(k), " or ");
  }

  /** The message for an error that expects nothing in particular. */
  lemma MessageWithoutExpected()
    ensures Message(UnexpectedTokenError(3, Token(Plus, 0), []))
      == "Index: 3. Unexpected token plus."
  {
    assert IntToString(3) == "3";
  }

  /** The names of two expected kinds are joined with " or ", in order. */
  lemma MessageWithExpected()
    ensures Message(UnexpectedTokenError(2, Token(EOF, 0), [Number, Divide]))
      == "Index: " + "2" + ". "
         + ("Expected to get tokens of type " + "number or devide" + ". Got")
         + (" token " + "EOF" + ".")
  {
    var e := UnexpectedTokenError(2, Token(EOF, 0), [Number, Divide]);
    assert IntToString(2) == "2";
    assert Join(Names(e.expected), " or ") == "number or devide" by {
      assert Names(e.expected) == ["number", "devide"];
    }
  }

  /** A kind missing from the name table renders as nothing. */
  lemma MessageWithUnnamedKind()
    ensures Message(UnexpectedTokenError(4, Token(EOF, 0), [RParen]))
      == "Index: " + "4" + ". "
         + ("Expected to get tokens of type " + "" + ". Got")
         + (" token " + "EOF" + ".")
  {
    var e := UnexpectedTokenError(4, Token(EOF, 0), [RParen]);
    assert IntToString(4) == "4";
    assert Join(Names(e.expected), " or ") == "" by {
      assert Names(e.expected) == [""];
    }
  }
}
