/**
 * What the parser and the interpreter share: a token source, the one-token
 * lookahead they hold (currentToken together with the scanner's position)
 * and eat. Both grammars are written over any token source that behaves like
 * the scanner, so that kinds the scanner never yields (Power) can be studied
 * too; Lex(s) is the scanner of lexer.go over the input s.
 */
module Lookahead {
  import opened Tokens
  import opened Lexing

  /**
   * A token source: scan(p) is the token read from position p and the
   * position after it; end is the length of the input.
   */
  datatype Source = Source(scan: nat -> (Token, nat), end: nat)

  /**
   * The source behaves like a scanner: from any position it neither moves
   * back nor past the end, and every token other than EOF and Error moves it
   * forward.
   */
  ghost predicate Steps(src: Source) {
    forall p: nat :: p <= src.end ==>
      p <= src.scan(p).1 <= src.end && (Consumes(src.scan(p).0.kind) ==> p < src.scan(p).1)
  }

  /** The scanner of lexer.go over the input s. */
  function Lex(s: string): (src: Source)
    ensures src.end == |s|
    ensures forall p: nat :: p <= |s| ==> src.scan(p) == Next(s, p)
    ensures Steps(src)
  {
    Source((p: nat) => if p <= |s| then Next(s, p) else Next(s, |s|), |s|)
  }

  /** The lookahead state: the current token and the scanner's position after it. */
  datatype Cursor = Cursor(tok: Token, pos: nat)

  predicate Within(src: Source, c: Cursor) {
    c.pos <= src.end
  }

  /** The state after reading one token from position q. */
  function At(src: Source, q: nat): (c: Cursor)
    requires Steps(src) && q <= src.end
    ensures Within(src, c) && q <= c.pos
  {
    Cursor(src.scan(q).0, src.scan(q).1)
  }

  /** What newParser and newInterpreter prime: a fresh scanner and one token read. */
  function Start(src: Source): Cursor
    requires Steps(src)
  {
    At(src, 0)
  }

  /**
   * The termination measure of both grammars: the input left, plus one while
   * the lookahead is a token made of input characters.
   */
  function Rank(src: Source, c: Cursor): nat
    requires Within(src, c)
  {
    src.end - c.pos + (if Consumes(c.tok.kind) then 1 else 0)
  }

  /** Pulls the next token into the lookahead; consuming a real token lowers the rank. */
  function Advance(src: Source, c: Cursor): (d: Cursor)
    requires Steps(src) && Within(src, c)
    ensures Within(src, d) && c.pos <= d.pos
    ensures Rank(src, d) <= Rank(src, c)
    ensures Consumes(c.tok.kind) ==> Rank(src, d) < Rank(src, c)
  {
    At(src, c.pos)
  }

  /**
   * eat(t): on a lookahead of kind t, pull the next token; otherwise an error
   * at the scanner's position naming the token found and t.
   */
  function Eat(src: Source, c: Cursor, t: TokenType): (r: Result<Cursor>)
    requires Steps(src) && Within(src, c)
    ensures r.Ok? ==> Within(src, r.value) && Rank(src, r.value) <= Rank(src, c)
  {
    if c.tok.kind != t then Err(NewUnexpectedTokenError(c.pos, c.tok, [t]))
    else Ok(Advance(src, c))
  }

  /** A rule's success leaves a state inside the input and no higher in rank. */
  ghost predicate Progress<T>(src: Source, c: Cursor, r: Result<(T, Cursor)>)
    requires Within(src, c)
  {
    r.Ok? ==> Within(src, r.value.1) && Rank(src, r.value.1) <= Rank(src, c)
  }

  /**
   * A rule's outcome r and the state now, as a method reports them, agree
   * with the outcome spec of the pure rule: the same value and resulting
   * state, or the same error.
   */
  ghost predicate Follows<T>(r: Result<T>, spec: Result<(T, Cursor)>, now: Cursor) {
    match spec
    case Ok((v, c)) => r == Ok(v) && now == c
    case Err(e) => r == Err(e)
  }
}
