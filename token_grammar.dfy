/**
 * The language the recursive descent of lib/core/parser.cpp accepts, as a grammar over
 * token types that makes no use of the parser:
 *
 *   value   ::= LITERAL | NUMBER | STRING | `{` `}` | `{` records `}` | `[` `]` | `[` values `]`
 *   records ::= record | record `,` records
 *   record  ::= STRING `:` value
 *   values  ::= value | value `,` values
 *
 * ValueAt(toks, i, j) says that tokens i up to, not including, j derive one value. The parser
 * accepts a value at i ending just before j exactly when the grammar derives one there.
 */
module TokenGrammar {
  import opened Outcomes
  import opened Tokens
  import opened LexerSpec
  import opened Ast
  import opened ParserSpec
  import opened ParserProps

  /** Tokens `i` up to, not including, `j` derive a value. */
  ghost predicate ValueAt(toks: seq<Token>, i: nat, j: nat)
    decreases j - i, 0
  {
    && i < j <= |toks|
    && (|| (IsValueType(toks[i].tokenType) && j == i + 1)
        || (toks[i].tokenType == LBrace && i + 2 <= j && toks[j - 1].tokenType == RBrace
            && (j == i + 2 || RecordsAt(toks, i + 1, j - 1)))
        || (toks[i].tokenType == LBracket && i + 2 <= j && toks[j - 1].tokenType == RBracket
            && (j == i + 2 || ValuesAt(toks, i + 1, j - 1))))
  }

  /** Tokens `i` up to `k` derive a record: a string key, a colon, a value. */
  ghost predicate RecordAt(toks: seq<Token>, i: nat, k: nat)
    decreases k - i, 0
  {
    i + 2 < k <= |toks| && toks[i].tokenType == StringVal && toks[i + 1].tokenType == Colon
    && ValueAt(toks, i + 2, k)
  }

  /** Tokens `i` up to `m` derive one or more records separated by commas. */
  ghost predicate RecordsAt(toks: seq<Token>, i: nat, m: nat)
    decreases m - i, 1
  {
    i < m <= |toks| &&
    exists k :: i < k <= m && RecordAt(toks, i, k) &&
      (k == m || (toks[k].tokenType == Comma && RecordsAt(toks, k + 1, m)))
  }

  /** Tokens `i` up to `m` derive one or more values separated by commas. */
  ghost predicate ValuesAt(toks: seq<Token>, i: nat, m: nat)
    decreases m - i, 1
  {
    i < m <= |toks| &&
    exists k :: i < k <= m && ValueAt(toks, i, k) &&
      (k == m || (toks[k].tokenType == Comma && ValuesAt(toks, k + 1, m)))
  }

  /** A whole stream: one value, then EOS as the last token. */
  ghost predicate DocumentAt(toks: seq<Token>) {
    |toks| > 0 && toks[|toks| - 1].tokenType == Eos && ValueAt(toks, 0, |toks| - 1)
  }

  /** What rvalue() accepts is derived by the grammar. */
  lemma {:induction false} ValueSound(ts: TokenStream, i: nat)
    requires ValidStream(ts) && i < |ts.tokens| && ParseValue(ts, i).Success?
    ensures ValueAt(ts.tokens, i, ParseValue(ts, i).value.next)
    decreases |ts.tokens| - i, 1
  {
    match ts.tokens[i].tokenType
    case LBrace => ObjectSound(ts, i);
    case LBracket => ArraySound(ts, i);
    case _ =>
  }

  /** What json() accepts is derived by the grammar. */
  lemma {:induction false} ObjectSound(ts: TokenStream, i: nat)
    requires ValidStream(ts) && i < |ts.tokens| && ParseObject(ts, i).Success?
    ensures ValueAt(ts.tokens, i, ParseObject(ts, i).value.next)
    decreases |ts.tokens| - i, 0
  {
    var p := ParseObject(ts, i).value;
    var rs, m := ObjectParts(ts, i, p.value, p.next);
    if ts.tokens[i + 1].tokenType != RBrace {
      RecordsSound(ts, i + 1, rs, m);
    }
  }

  /** What array() accepts is derived by the grammar. */
  lemma {:induction false} ArraySound(ts: TokenStream, i: nat)
    requires ValidStream(ts) && i < |ts.tokens| && ParseArray(ts, i).Success?
    ensures ValueAt(ts.tokens, i, ParseArray(ts, i).value.next)
    decreases |ts.tokens| - i, 0
  {
    var p := ParseArray(ts, i).value;
    var vs, m := ArrayParts(ts, i, p.value, p.next);
    if ts.tokens[i + 1].tokenType != RBracket {
      ValuesSound(ts, i + 1, vs, m);
    }
  }

  /** What the loop of records() accepts is derived by the grammar. */
  lemma {:induction false} RecordsSound(ts: TokenStream, i: nat, rs: seq<Record>, m: nat)
    requires ValidStream(ts) && i < |ts.tokens| && RecordLoop(ts, i, []) == Success(Parsed(rs, m))
    ensures RecordsAt(ts.tokens, i, m)
    decreases |ts.tokens| - i, 2
  {
    var x, k, rest := RecordLoopHead(ts, i, rs, m);
    RecordParts(ts, i, x, k);
    ValueSound(ts, i + 2);
    assert RecordAt(ts.tokens, i, k);
    if ts.tokens[k].tokenType == Comma {
      RecordsSound(ts, k + 1, rest, m);
    }
  }

  /** What the loop of values() accepts is derived by the grammar. */
  lemma {:induction false} ValuesSound(ts: TokenStream, i: nat, vs: seq<Value>, m: nat)
    requires ValidStream(ts) && i < |ts.tokens| && ValueLoop(ts, i, []) == Success(Parsed(vs, m))
    ensures ValuesAt(ts.tokens, i, m)
    decreases |ts.tokens| - i, 2
  {
    var x, k, rest := ValueLoopHead(ts, i, vs, m);
    ValueSound(ts, i);
    if ts.tokens[k].tokenType == Comma {
      ValuesSound(ts, k + 1, rest, m);
    }
  }

  /** Every value the grammar derives, with a token after it, is accepted by rvalue(). */
  lemma {:induction false} ValueComplete(ts: TokenStream, i: nat, j: nat)
    requires ValidStream(ts) && ValueAt(ts.tokens, i, j) && j < |ts.tokens|
    ensures ParseValue(ts, i).Success? && ParseValue(ts, i).value.next == j
    decreases j - i, 1
  {
    match ts.tokens[i].tokenType
    case LBrace => ObjectComplete(ts, i, j);
    case LBracket => ArrayComplete(ts, i, j);
    case _ =>
  }

  /** Every object the grammar derives, with a token after it, is accepted by json(). */
  lemma {:induction false} ObjectComplete(ts: TokenStream, i: nat, j: nat)
    requires ValidStream(ts) && ValueAt(ts.tokens, i, j) && j < |ts.tokens|
    requires ts.tokens[i].tokenType == LBrace
    ensures ParseObject(ts, i).Success? && ParseObject(ts, i).value.next == j
    decreases j - i, 0
  {
    if j == i + 2 {
      assert ts.tokens[i + 1].tokenType == RBrace;
      assert ParseRecords(ts, i + 1) == Success(Parsed([], i + 1));
    } else {
      RecordsComplete(ts, i + 1, j - 1, []);
      assert ParseRecords(ts, i + 1) == RecordLoop(ts, i + 1, []);
    }
  }

  /** Every array the grammar derives, with a token after it, is accepted by array(). */
  lemma {:induction false} ArrayComplete(ts: TokenStream, i: nat, j: nat)
    requires ValidStream(ts) && ValueAt(ts.tokens, i, j) && j < |ts.tokens|
    requires ts.tokens[i].tokenType == LBracket
    ensures ParseArray(ts, i).Success? && ParseArray(ts, i).value.next == j
    decreases j - i, 0
  {
    if j == i + 2 {
      assert ts.tokens[i + 1].tokenType == RBracket;
      assert ParseValues(ts, i + 1) == Success(Parsed([], i + 1));
    } else {
      ValuesComplete(ts, i + 1, j - 1, []);
      assert ParseValues(ts, i + 1) == ValueLoop(ts, i + 1, []);
    }
  }

  /** Every record the grammar derives, with a token after it, is accepted by record(). */
  lemma {:induction false} RecordComplete(ts: TokenStream, i: nat, k: nat)
    requires ValidStream(ts) && RecordAt(ts.tokens, i, k) && k < |ts.tokens|
    ensures ParseRecord(ts, i).Success? && ParseRecord(ts, i).value.next == k
    decreases k - i, 2
  {
    ValueComplete(ts, i + 2, k);
  }

  /**
   * Records the grammar derives, followed by a token that is not a comma, are all read by
   * the loop of records(), whatever it has already read.
   */
  lemma {:induction false} RecordsComplete(ts: TokenStream, i: nat, m: nat, acc: seq<Record>)
    requires ValidStream(ts) && RecordsAt(ts.tokens, i, m) && m < |ts.tokens|
    requires ts.tokens[m].tokenType != Comma
    ensures ts.tokens[i].tokenType == StringVal
    ensures RecordLoop(ts, i, acc).Success? && RecordLoop(ts, i, acc).value.next == m
    decreases m - i, 3
  {
    var k :| i < k <= m && RecordAt(ts.tokens, i, k) &&
      (k == m || (ts.tokens[k].tokenType == Comma && RecordsAt(ts.tokens, k + 1, m)));
    RecordComplete(ts, i, k);
    RecordLoopUnfold(ts, i, acc);
    if k != m {
      RecordsComplete(ts, k + 1, m, acc + [ParseRecord(ts, i).value.value]);
    }
  }

  /**
   * Values the grammar derives, followed by a token that is not a comma, are all read by the
   * loop of values(), whatever it has already read.
   */
  lemma {:induction false} ValuesComplete(ts: TokenStream, i: nat, m: nat, acc: seq<Value>)
    requires ValidStream(ts) && ValuesAt(ts.tokens, i, m) && m < |ts.tokens|
    requires ts.tokens[m].tokenType != Comma
    ensures ts.tokens[i].tokenType != RBracket
    ensures ValueLoop(ts, i, acc).Success? && ValueLoop(ts, i, acc).value.next == m
    decreases m - i, 3
  {
    var k :| i < k <= m && ValueAt(ts.tokens, i, k) &&
      (k == m || (ts.tokens[k].tokenType == Comma && ValuesAt(ts.tokens, k + 1, m)));
    ValueComplete(ts, i, k);
    ValueLoopUnfold(ts, i, acc);
    if k != m {
      ValuesComplete(ts, k + 1, m, acc + [ParseValue(ts, i).value.value]);
    }
  }

  /**
   * rvalue() accepts a value at `i` and leaves the current token at `j` exactly when the
   * tokens from `i` up to `j` derive a value and a token follows them.
   */
  lemma ValueAccepted(ts: TokenStream, i: nat, j: nat)
    requires ValidStream(ts) && i < |ts.tokens|
    ensures (ParseValue(ts, i).Success? && ParseValue(ts, i).value.next == j) <==>
      (ValueAt(ts.tokens, i, j) && j < |ts.tokens|)
  {
    if ParseValue(ts, i).Success? {
      ValueSound(ts, i);
    }
    if ValueAt(ts.tokens, i, j) && j < |ts.tokens| {
      ValueComplete(ts, i, j);
    }
  }

  /** parse() succeeds exactly on the streams the grammar derives: one value, then EOS. */
  lemma DocumentAccepted(ts: TokenStream)
    requires ValidStream(ts)
    ensures ParseDocument(ts).Success? <==> DocumentAt(ts.tokens)
  {
    DocumentShape(ts);
    if ParseDocument(ts).Success? {
      ValueSound(ts, 0);
    }
    if DocumentAt(ts.tokens) {
      ValueComplete(ts, 0, |ts.tokens| - 1);
    }
  }

  /**
   * An empty object or array, `{` `}` or `[` `]` with any token after it, is accepted; it
   * holds nothing and keeps the default token as its closing token.
   */
  lemma EmptyContainersAccepted(ts: TokenStream, i: nat)
    requires ValidStream(ts) && i + 2 < |ts.tokens|
    ensures ts.tokens[i].tokenType == LBrace && ts.tokens[i + 1].tokenType == RBrace ==>
      ParseValue(ts, i) == Success(Parsed(Object([], DefaultToken), i + 2))
    ensures ts.tokens[i].tokenType == LBracket && ts.tokens[i + 1].tokenType == RBracket ==>
      ParseValue(ts, i) == Success(Parsed(Array([], DefaultToken), i + 2))
  {
    if ts.tokens[i].tokenType == LBrace && ts.tokens[i + 1].tokenType == RBrace {
      assert ValueAt(ts.tokens, i, i + 2);
      ValueComplete(ts, i, i + 2);
      var rs, m := ObjectParts(ts, i, ParseValue(ts, i).value.value, i + 2);
    }
    if ts.tokens[i].tokenType == LBracket && ts.tokens[i + 1].tokenType == RBracket {
      assert ValueAt(ts.tokens, i, i + 2);
      ValueComplete(ts, i, i + 2);
      var vs, m := ArrayParts(ts, i, ParseValue(ts, i).value.value, i + 2);
    }
  }
}
