/**
 * The recursive descent of lib/core/parser.cpp as functions over a token stream. An index
 * `i` names the current token `tokens[i]`; every production returns the value it built and
 * the index of the token that is current afterwards.
 */
module ParserSpec {
  import opened Outcomes
  import opened Tokens
  import opened JsonErrors
  import opened LexerSpec
  import opened Ast

  /** A production's result and the index of the current token after it. */
  datatype Parsed<+T> = Parsed(value: T, next: nat)

  /** error(): the message, then what was found, at the current token's position. */
  function SyntaxErrorAt(msg: string, t: Token): (e: JsonError)
    ensures e.Positioned? && e.kind == SyntaxError && e.line == t.line && e.column == t.column
    ensures e.message == msg + "found '" + t.lexeme + "'"
  {
    Positioned(SyntaxError, msg + "found '" + t.lexeme + "'", t.line, t.column)
  }

  /**
   * advance() from the token at `i`: the following token, or, past the last token the
   * lexer produced, the lexical error it raised there.
   */
  function Advance(ts: TokenStream, i: nat): (r: Result<nat, JsonError>)
    requires ValidStream(ts) && i < |ts.tokens| && ts.tokens[i].tokenType != Eos
    ensures r.Success? <==> i + 1 < |ts.tokens|
    ensures r.Success? ==> r.value == i + 1
    ensures r.Failure? ==> ts.failure == Some(r.error)
  {
    if i + 1 < |ts.tokens| then Success(i + 1) else Failure(ts.failure.value)
  }

  /** eat(t, msg): advance past a token of type `t`, or raise the syntax error `msg`. */
  function Eat(ts: TokenStream, i: nat, t: TokenType, msg: string): (r: Result<nat, JsonError>)
    requires ValidStream(ts) && i < |ts.tokens| && t != Eos
    ensures r.Success? ==> ts.tokens[i].tokenType == t && r.value == i + 1 < |ts.tokens|
    ensures ts.tokens[i].tokenType != t ==> r == Failure(SyntaxErrorAt(msg, ts.tokens[i]))
  {
    if ts.tokens[i].tokenType == t then Advance(ts, i)
    else Failure(SyntaxErrorAt(msg, ts.tokens[i]))
  }

  /** kval(): a record key must be a string token. */
  function Kval(ts: TokenStream, i: nat): (r: Result<nat, JsonError>)
    requires ValidStream(ts) && i < |ts.tokens|
    ensures r.Success? ==> ts.tokens[i].tokenType == StringVal && r.value == i + 1 < |ts.tokens|
  {
    if ts.tokens[i].tokenType == StringVal then Advance(ts, i)
    else Failure(SyntaxErrorAt("Unexpected token: expected string, ", ts.tokens[i]))
  }

  /** pval(): a leaf must be a literal, number or string token. */
  function Pval(ts: TokenStream, i: nat): (r: Result<nat, JsonError>)
    requires ValidStream(ts) && i < |ts.tokens|
    ensures r.Success? ==> IsValueType(ts.tokens[i].tokenType) && r.value == i + 1 < |ts.tokens|
  {
    if IsValueType(ts.tokens[i].tokenType) then Advance(ts, i)
    else Failure(SyntaxErrorAt("Unexpected token: expected value, ", ts.tokens[i]))
  }

  /** rvalue(): dispatch on the current token. */
  function ParseValue(ts: TokenStream, i: nat): (r: Result<Parsed<Value>, JsonError>)
    requires ValidStream(ts) && i < |ts.tokens|
    ensures r.Success? ==> i < r.value.next < |ts.tokens|
    decreases |ts.tokens| - i, 3
  {
    match ts.tokens[i].tokenType
    case LBrace => ParseObject(ts, i)
    case LBracket => ParseArray(ts, i)
    case _ => ParseSimple(ts, i)
  }

  /** json(): `{`, the records, `}`. The closing token is never stored. */
  function ParseObject(ts: TokenStream, i: nat): (r: Result<Parsed<Value>, JsonError>)
    requires ValidStream(ts) && i < |ts.tokens|
    ensures r.Success? ==> i < r.value.next < |ts.tokens|
    decreases |ts.tokens| - i, 2
  {
    var j :- Eat(ts, i, LBrace, "Unexpected token: expected '{', ");
    var rs :- ParseRecords(ts, j);
    var k :- Eat(ts, rs.next, RBrace, "Unexpected token: expected ',', ");
    Success(Parsed(Object(rs.value, DefaultToken), k))
  }

  /** records(): nothing before a `}`, otherwise one or more records separated by commas. */
  function ParseRecords(ts: TokenStream, i: nat): (r: Result<Parsed<seq<Record>>, JsonError>)
    requires ValidStream(ts) && i < |ts.tokens|
    ensures r.Success? ==> i <= r.value.next < |ts.tokens|
    decreases |ts.tokens| - i, 5
  {
    if ts.tokens[i].tokenType == RBrace then Success(Parsed([], i))
    else RecordLoop(ts, i, [])
  }

  /** The loop of records(), with the records already read in `acc`. */
  function RecordLoop(ts: TokenStream, i: nat, acc: seq<Record>): (r: Result<Parsed<seq<Record>>, JsonError>)
    requires ValidStream(ts) && i < |ts.tokens|
    ensures r.Success? ==> i < r.value.next < |ts.tokens|
    decreases |ts.tokens| - i, 4
  {
    var rec :- ParseRecord(ts, i);
    var acc' := acc + [rec.value];
    if ts.tokens[rec.next].tokenType != Comma then Success(Parsed(acc', rec.next))
    else
      var j :- Advance(ts, rec.next);
      RecordLoop(ts, j, acc')
  }


  /** record(): a string key, `:`, a value. */
  function ParseRecord(ts: TokenStream, i: nat): (r: Result<Parsed<Record>, JsonError>)
    requires ValidStream(ts) && i < |ts.tokens|
    ensures r.Success? ==> i < r.value.next < |ts.tokens|
    decreases |ts.tokens| - i, 3
  {
    var j :- Kval(ts, i);
    var k :- Eat(ts, j, Colon, "Unexpected token: expected ':', ");
    var v :- ParseValue(ts, k);
    Success(Parsed(Record(ts.tokens[i], v.value), v.next))
  }

  /** array(): `[`, the values, `]`. The closing token is never stored. */
  function ParseArray(ts: TokenStream, i: nat): (r: Result<Parsed<Value>, JsonError>)
    requires ValidStream(ts) && i < |ts.tokens|
    ensures r.Success? ==> i < r.value.next < |ts.tokens|
    decreases |ts.tokens| - i, 2
  {
    var j :- Eat(ts, i, LBracket, "Unexpected token: expected '[', ");
    var vs :- ParseValues(ts, j);
    var k :- Eat(ts, vs.next, RBracket, "Unexpected token: expected ']', ");
    Success(Parsed(Array(vs.value, DefaultToken), k))
  }

  /** values(): nothing before a `]`, otherwise one or more values separated by commas. */
  function ParseValues(ts: TokenStream, i: nat): (r: Result<Parsed<seq<Value>>, JsonError>)
    requires ValidStream(ts) && i < |ts.tokens|
    ensures r.Success? ==> i <= r.value.next < |ts.tokens|
    decreases |ts.tokens| - i, 5
  {
    if ts.tokens[i].tokenType == RBracket then Success(Parsed([], i))
    else ValueLoop(ts, i, [])
  }

  /** The loop of values(), with the values already read in `acc`. */
  function ValueLoop(ts: TokenStream, i: nat, acc: seq<Value>): (r: Result<Parsed<seq<Value>>, JsonError>)
    requires ValidStream(ts) && i < |ts.tokens|
    ensures r.Success? ==> i < r.value.next < |ts.tokens|
    decreases |ts.tokens| - i, 4
  {
    var v :- ParseValue(ts, i);
    var acc' := acc + [v.value];
    if ts.tokens[v.next].tokenType != Comma then Success(Parsed(acc', v.next))
    else
      var j :- Advance(ts, v.next);
      ValueLoop(ts, j, acc')
  }


  /** simple(): a leaf whose type follows its token's type. */
  function ParseSimple(ts: TokenStream, i: nat): (r: Result<Parsed<Value>, JsonError>)
    requires ValidStream(ts) && i < |ts.tokens|
    ensures r.Success? ==> i < r.value.next < |ts.tokens|
    decreases |ts.tokens| - i, 2
  {
    var j :- Pval(ts, i);
    var t := ts.tokens[i];
    Success(Parsed(Simple(t, LeafKind(t.tokenType).value), j))
  }

  /**
   * parse(): pull the first token, read one value, then require EOS. Advancing past that
   * final EOS changes nothing observable and is not modelled.
   */
  function ParseDocument(ts: TokenStream): (r: Result<Document, JsonError>)
    requires ValidStream(ts)
  {
    if |ts.tokens| == 0 then Failure(ts.failure.value)
    else
      var v :- ParseValue(ts, 0);
      if ts.tokens[v.next].tokenType == Eos then Success(Document(v.value))
      else Failure(SyntaxErrorAt("Unexpected token: expected end-of-file, ", ts.tokens[v.next]))
  }

  /** Lexing and parsing a whole input. */
  function ParseText(input: string): Result<Document, JsonError> {
    ParseDocument(Tokenize(input))
  }
}
