/**
 * Compact printing undoes parsing. Every token the lexer keeps stands for a fixed piece of
 * the input (its lexeme, quoted again for strings), and the compact printer of
 * cli-utils/wjsoncompact/wjsoncompact.cpp writes exactly those pieces back in order. So for
 * input without whitespace, printing the parsed document reproduces the input.
 */
module RoundTrip {
  import opened Outcomes
  import opened Tokens
  import opened LexerSpec
  import opened Ast
  import opened ParserSpec
  import opened CompactPrinter
  import opened ParserProps

  /** The character of a structural token; only structural types are ever asked for. */
  function Symbol(tt: TokenType): char {
    match tt
    case Comma => ','
    case Colon => ':'
    case LBracket => '['
    case RBracket => ']'
    case LBrace => '{'
    case _ => '}'
  }

  /** The text a token stands for: its quoted lexeme, nothing, its lexeme, or its symbol. */
  function Render(t: Token): string {
    if t.tokenType == StringVal then "\"" + t.lexeme + "\""
    else if t.tokenType == Eos then ""
    else if t.tokenType == LiteralVal || t.tokenType == NumberVal then t.lexeme
    else [Symbol(t.tokenType)]
  }

  /** The text of every token, in order. */
  function Pieces(ts: seq<Token>): (ps: seq<string>)
    ensures |ps| == |ts|
  {
    if ts == [] then [] else [Render(ts[0])] + Pieces(ts[1..])
  }

  lemma {:induction false} PieceAt(ts: seq<Token>, k: nat)
    requires k < |ts|
    ensures Pieces(ts)[k] == Render(ts[k])
    decreases k
  {
    if k > 0 {
      PieceAt(ts[1..], k - 1);
    }
  }

  /** The piece of each kind of token, case by case. */
  lemma KnownPiece(ts: seq<Token>, k: nat)
    requires k < |ts|
    ensures ts[k].tokenType == StringVal ==> Pieces(ts)[k] == "\"" + ts[k].lexeme + "\""
    ensures ts[k].tokenType == LiteralVal || ts[k].tokenType == NumberVal ==> Pieces(ts)[k] == ts[k].lexeme
    ensures ts[k].tokenType == Eos ==> Pieces(ts)[k] == ""
    ensures ts[k].tokenType == Comma ==> Pieces(ts)[k] == ","
    ensures ts[k].tokenType == Colon ==> Pieces(ts)[k] == ":"
    ensures ts[k].tokenType == LBrace ==> Pieces(ts)[k] == "{"
    ensures ts[k].tokenType == RBrace ==> Pieces(ts)[k] == "}"
    ensures ts[k].tokenType == LBracket ==> Pieces(ts)[k] == "["
    ensures ts[k].tokenType == RBracket ==> Pieces(ts)[k] == "]"
  {
    PieceAt(ts, k);
  }

  /** All the pieces, joined. */
  function Concat(ps: seq<string>): string {
    if ps == [] then "" else ps[0] + Concat(ps[1..])
  }

  /** The pieces from index `i` up to, not including, index `j`, joined. */
  function Span(ps: seq<string>, i: nat, j: nat): string
    requires i <= j <= |ps|
    decreases j - i
  {
    if i == j then "" else ps[i] + Span(ps, i + 1, j)
  }

  lemma {:induction false} SpanSplit(ps: seq<string>, i: nat, j: nat, k: nat)
    requires i <= j <= k <= |ps|
    ensures Span(ps, i, k) == Span(ps, i, j) + Span(ps, j, k)
    decreases j - i
  {
    if i < j {
      SpanSplit(ps, i + 1, j, k);
      Assoc(ps[i], Span(ps, i + 1, j), Span(ps, j, k));
    }
  }

  lemma SpanOne(ps: seq<string>, i: nat)
    requires i < |ps|
    ensures Span(ps, i, i + 1) == ps[i]
  {
    assert Span(ps, i + 1, i + 1) == "";
  }

  /** The span from `i` to the end joins the pieces from `i` on. */
  lemma {:induction false} SpanRest(ps: seq<string>, i: nat)
    requires i <= |ps|
    ensures Span(ps, i, |ps|) == Concat(ps[i..])
    decreases |ps| - i
  {
    if i < |ps| {
      assert ps[i..][1..] == ps[i + 1..];
      SpanRest(ps, i + 1);
    }
  }

  /** A span and the piece after it, as one span. */
  lemma SpanSnoc(ps: seq<string>, i: nat, j: nat)
    requires i <= j < |ps|
    ensures Span(ps, i, j + 1) == Span(ps, i, j) + ps[j]
  {
    SpanSplit(ps, i, j, j + 1);
    SpanOne(ps, j);
  }

  lemma Assoc(a: string, b: string, c: string)
    ensures a + b + c == a + (b + c)
  {
  }

  /** A record spanning `i` to `k`, a comma at `k`, then more records up to `m`. */
  lemma RecordsJoin(ps: seq<string>, i: nat, k: nat, m: nat, x: Record, rest: seq<Record>, rs: seq<Record>)
    requires i <= k < m <= |ps| && ps[k] == "," && |rest| > 0 && rs == [x] + rest
    requires CompactRecord(x) == Span(ps, i, k) && CompactRecords(rest) == Span(ps, k + 1, m)
    ensures |rs| > 0 && CompactRecords(rs) == Span(ps, i, m)
  {
    CompactRecordsCons(x, rest);
    SpanSplit(ps, i, k, m);
    Assoc(CompactRecord(x), ",", CompactRecords(rest));
  }

  /** A single record spanning `i` to `m`. */
  lemma RecordsOne(ps: seq<string>, i: nat, m: nat, x: Record, rs: seq<Record>)
    requires i <= m <= |ps| && rs == [x] && CompactRecord(x) == Span(ps, i, m)
    ensures |rs| > 0 && CompactRecords(rs) == Span(ps, i, m)
  {
  }

  /** A value spanning `i` to `k`, a comma at `k`, then more values up to `m`. */
  lemma ValuesJoin(ps: seq<string>, i: nat, k: nat, m: nat, x: Value, rest: seq<Value>, vs: seq<Value>)
    requires i <= k < m <= |ps| && ps[k] == "," && |rest| > 0 && vs == [x] + rest
    requires CompactValue(x) == Span(ps, i, k) && CompactValues(rest) == Span(ps, k + 1, m)
    ensures |vs| > 0 && CompactValues(vs) == Span(ps, i, m)
  {
    CompactValuesCons(x, rest);
    SpanSplit(ps, i, k, m);
    Assoc(CompactValue(x), ",", CompactValues(rest));
  }

  /** A single value spanning `i` to `m`. */
  lemma ValuesOne(ps: seq<string>, i: nat, m: nat, x: Value, vs: seq<Value>)
    requires i <= m <= |ps| && vs == [x] && CompactValue(x) == Span(ps, i, m)
    ensures |vs| > 0 && CompactValues(vs) == Span(ps, i, m)
  {
  }

  /** A bracketed span: the opening piece, the text between, the closing piece. */
  lemma Enclosed(ps: seq<string>, i: nat, j: nat)
    requires i < j < |ps|
    ensures Span(ps, i, j + 1) == ps[i] + Span(ps, i + 1, j) + ps[j]
  {
    SpanSnoc(ps, i + 1, j);
  }

  /** An object prints as the span from its `{` to its `}`. */
  lemma ObjectText(ps: seq<string>, i: nat, rs: seq<Record>, m: nat, v: Value, n: nat)
    requires i < m < |ps| && ps[i] == "{" && ps[m] == "}"
    requires v == Object(rs, DefaultToken) && n == m + 1
    requires |rs| == 0 ==> m == i + 1
    requires |rs| > 0 ==> CompactRecords(rs) == Span(ps, i + 1, m)
    ensures CompactValue(v) == Span(ps, i, n)
  {
    Enclosed(ps, i, m);
    if |rs| == 0 {
      assert "{" + Span(ps, i + 1, i + 1) + "}" == "{}";
    }
  }

  /** An array prints as the span from its `[` to its `]`. */
  lemma ArrayText(ps: seq<string>, i: nat, vs: seq<Value>, m: nat, v: Value, n: nat)
    requires i < m < |ps| && ps[i] == "[" && ps[m] == "]"
    requires v == Array(vs, DefaultToken) && n == m + 1
    requires |vs| == 0 ==> m == i + 1
    requires |vs| > 0 ==> CompactValues(vs) == Span(ps, i + 1, m)
    ensures CompactValue(v) == Span(ps, i, n)
  {
    Enclosed(ps, i, m);
    if |vs| == 0 {
      assert "[" + Span(ps, i + 1, i + 1) + "]" == "[]";
    }
  }

  /** A record prints as its quoted key, the colon and its value's span. */
  lemma RecordText(ps: seq<string>, i: nat, n: nat, r: Record)
    requires i + 2 <= n <= |ps| && ps[i] == "\"" + r.key.lexeme + "\"" && ps[i + 1] == ":"
    requires CompactValue(r.value) == Span(ps, i + 2, n)
    ensures CompactRecord(r) == Span(ps, i, n)
  {
    var q, x := "\"" + r.key.lexeme, CompactValue(r.value);
    Assoc(q + "\"", ":", x);
    Assoc(q, "\"", ":");
    assert "\"" + ":" == "\":";
  }

  /** The value parsed at `i` prints as the text of the tokens it was parsed from. */
  lemma {:induction false} ValueRoundTrip(ts: TokenStream, i: nat, v: Value, n: nat)
    requires ValidStream(ts) && i < |ts.tokens| && ParseValue(ts, i) == Success(Parsed(v, n))
    ensures CompactValue(v) == Span(Pieces(ts.tokens), i, n)
    decreases |ts.tokens| - i, 3
  {
    match ts.tokens[i].tokenType
    case LBrace => ObjectRoundTrip(ts, i, v, n);
    case LBracket => ArrayRoundTrip(ts, i, v, n);
    case _ => SimpleRoundTrip(ts, i, v, n);
  }

  lemma {:induction false} ObjectRoundTrip(ts: TokenStream, i: nat, v: Value, n: nat)
    requires ValidStream(ts) && i < |ts.tokens| && ParseObject(ts, i) == Success(Parsed(v, n))
    ensures CompactValue(v) == Span(Pieces(ts.tokens), i, n)
    decreases |ts.tokens| - i, 2
  {
    var rs, m := ObjectParts(ts, i, v, n);
    if ts.tokens[i + 1].tokenType != RBrace {
      RecordLoopRoundTrip(ts, i + 1, rs, m);
    }
    KnownPiece(ts.tokens, i);
    KnownPiece(ts.tokens, m);
    ObjectText(Pieces(ts.tokens), i, rs, m, v, n);
  }

  /** The loop of records() from index `i` reads records that print as the text they span. */
  lemma {:induction false} RecordLoopRoundTrip(ts: TokenStream, i: nat, rs: seq<Record>, m: nat)
    requires ValidStream(ts) && i < |ts.tokens| && RecordLoop(ts, i, []) == Success(Parsed(rs, m))
    ensures |rs| > 0 && CompactRecords(rs) == Span(Pieces(ts.tokens), i, m)
    decreases |ts.tokens| - i, 4
  {
    var x, k, rest := RecordLoopHead(ts, i, rs, m);
    RecordRoundTrip(ts, i, x, k);
    if ts.tokens[k].tokenType == Comma {
      RecordLoopRoundTrip(ts, k + 1, rest, m);
      KnownPiece(ts.tokens, k);
      RecordsJoin(Pieces(ts.tokens), i, k, m, x, rest, rs);
    } else {
      RecordsOne(Pieces(ts.tokens), i, m, x, rs);
    }
  }

  lemma {:induction false} RecordRoundTrip(ts: TokenStream, i: nat, r: Record, n: nat)
    requires ValidStream(ts) && i < |ts.tokens| && ParseRecord(ts, i) == Success(Parsed(r, n))
    ensures CompactRecord(r) == Span(Pieces(ts.tokens), i, n)
    decreases |ts.tokens| - i, 3
  {
    RecordParts(ts, i, r, n);
    ValueRoundTrip(ts, i + 2, r.value, n);
    KnownPiece(ts.tokens, i);
    KnownPiece(ts.tokens, i + 1);
    RecordText(Pieces(ts.tokens), i, n, r);
  }

  lemma {:induction false} ArrayRoundTrip(ts: TokenStream, i: nat, v: Value, n: nat)
    requires ValidStream(ts) && i < |ts.tokens| && ParseArray(ts, i) == Success(Parsed(v, n))
    ensures CompactValue(v) == Span(Pieces(ts.tokens), i, n)
    decreases |ts.tokens| - i, 2
  {
    var vs, m := ArrayParts(ts, i, v, n);
    if ts.tokens[i + 1].tokenType != RBracket {
      ValueLoopRoundTrip(ts, i + 1, vs, m);
    }
    KnownPiece(ts.tokens, i);
    KnownPiece(ts.tokens, m);
    ArrayText(Pieces(ts.tokens), i, vs, m, v, n);
  }

  /** The loop of values() from index `i` reads values that print as the text they span. */
  lemma {:induction false} ValueLoopRoundTrip(ts: TokenStream, i: nat, vs: seq<Value>, m: nat)
    requires ValidStream(ts) && i < |ts.tokens| && ValueLoop(ts, i, []) == Success(Parsed(vs, m))
    ensures |vs| > 0 && CompactValues(vs) == Span(Pieces(ts.tokens), i, m)
    decreases |ts.tokens| - i, 4
  {
    var x, k, rest := ValueLoopHead(ts, i, vs, m);
    ValueRoundTrip(ts, i, x, k);
    if ts.tokens[k].tokenType == Comma {
      ValueLoopRoundTrip(ts, k + 1, rest, m);
      KnownPiece(ts.tokens, k);
      ValuesJoin(Pieces(ts.tokens), i, k, m, x, rest, vs);
    } else {
      ValuesOne(Pieces(ts.tokens), i, m, x, vs);
    }
  }

  /** A leaf prints as the one token it was parsed from. */
  lemma SimpleRoundTrip(ts: TokenStream, i: nat, v: Value, n: nat)
    requires ValidStream(ts) && i < |ts.tokens| && ParseSimple(ts, i) == Success(Parsed(v, n))
    ensures CompactValue(v) == Span(Pieces(ts.tokens), i, n)
  {
    SpanOne(Pieces(ts.tokens), i);
    KnownPiece(ts.tokens, i);
  }

  /** Every token the lexer produces is verbatim: it stands for exactly the text it spans. */
  lemma ScanVerbatim(input: string, t: LexState)
    requires t.pos <= |input| && ScanAt(input, t).Scanned?
    ensures Render(ScanAt(input, t).token) == input[t.pos..ScanAt(input, t).next.pos]
  {
    var p := t.pos;
    if p < |input| && StructuralType(input[p]).None? && input[p] == '"' {
      StringVerbatim(input, p, t.line, t.column);
    }
  }

  /** A string token is its body, and the quotes around it are the ones in the input. */
  lemma StringVerbatim(input: string, p: nat, l: int, c: int)
    requires p < |input| && input[p] == '"' && StringStep(input, p, l, c).Scanned?
    ensures var r := StringStep(input, p, l, c); "\"" + r.token.lexeme + "\"" == input[p..r.next.pos]
  {
    var e := StringEnd(input, p + 1).end;
    assert input[p..e + 1] == [input[p]] + input[p + 1..e] + [input[e]];
  }

  /**
   * Without whitespace, the tokens of a stream that reached EOS spell out the rest of the
   * input exactly.
   */
  lemma {:induction false} TokenizeRenders(input: string, s: LexState)
    requires SpaceFree(input) && s.pos <= |input| && TokenizeFrom(input, s).failure.None?
    ensures Step(input, s).Scanned?
    ensures Concat(Pieces(TokenizeFrom(input, s).tokens)) == input[s.pos..]
    decreases |input| - s.pos
  {
    StepVerbatim(input, s);
    var step := Step(input, s);
    var t, n := step.token, step.next.pos;
    var tokens := TokenizeFrom(input, s).tokens;
    if t.tokenType == Eos {
      assert tokens == [t] && [t][1..] == [];
      assert Pieces(tokens) == [Render(t)];
      assert [Render(t)][1..] == [];
    } else {
      var rest := TokenizeFrom(input, step.next).tokens;
      assert tokens == [t] + rest;
      assert ([t] + rest)[1..] == rest;
      assert Pieces(tokens) == [Render(t)] + Pieces(rest);
      assert ([Render(t)] + Pieces(rest))[1..] == Pieces(rest);
      TokenizeRenders(input, step.next);
      SliceSplit(input, s.pos, n);
    }
  }

  lemma SliceSplit(input: string, a: nat, b: nat)
    requires a <= b <= |input|
    ensures input[a..] == input[a..b] + input[b..]
  {
  }

  /** Without whitespace to skip, a call of next_token spans exactly its token's text. */
  lemma StepVerbatim(input: string, s: LexState)
    requires SpaceFree(input) && s.pos <= |input| && Step(input, s).Scanned?
    ensures Render(Step(input, s).token) == input[s.pos..Step(input, s).next.pos]
    ensures Step(input, s).token.tokenType == Eos ==> s.pos == |input|
    ensures s.pos <= Step(input, s).next.pos <= |input|
  {
    assert SkipSpace(input, s) == s;
    ScanVerbatim(input, s);
  }

  /**
   * The round trip: whitespace-free input that parses is printed back by the compact
   * printer byte for byte.
   */
  lemma CompactRoundTrip(input: string)
    requires SpaceFree(input) && ParseText(input).Success?
    ensures CompactDocument(ParseText(input).value) == input
  {
    var ts := Tokenize(input);
    var ps := Pieces(ts.tokens);
    var v := ParseValue(ts, 0).value;
    assert ts.tokens[v.next].tokenType == Eos;
    assert v.next == |ts.tokens| - 1 && ts.failure.None?;
    ValueRoundTrip(ts, 0, v.value, v.next);
    TokenizeRenders(input, Start);
    KnownPiece(ts.tokens, v.next);
    SpanSnoc(ps, 0, v.next);
    SpanRest(ps, 0);
    assert ps[0..] == ps;
  }
}
