/**
 * What the recursive descent of lib/core/parser.cpp guarantees about the trees it builds:
 * the loops of records() and values() keep every element in source order, keys are string
 * tokens, leaves are typed after their tokens, and first_token finds the first token after
 * the opening brackets.
 */
module ParserProps {
  import opened Outcomes
  import opened Tokens
  import opened LexerSpec
  import opened Ast
  import opened ParserSpec

  /**
   * json(): a `{`, the records, then a `}`. The object keeps the records and the default
   * token, and the current token afterwards is the one after the `}`.
   */
  lemma ObjectParts(ts: TokenStream, i: nat, v: Value, n: nat) returns (rs: seq<Record>, m: nat)
    requires ValidStream(ts) && i < |ts.tokens| && ParseObject(ts, i) == Success(Parsed(v, n))
    ensures ts.tokens[i].tokenType == LBrace && i < m < |ts.tokens| && ts.tokens[m].tokenType == RBrace
    ensures v == Object(rs, DefaultToken) && n == m + 1
    ensures ts.tokens[i + 1].tokenType == RBrace ==> rs == [] && m == i + 1
    ensures ts.tokens[i + 1].tokenType != RBrace ==> RecordLoop(ts, i + 1, []) == Success(Parsed(rs, m))
  {
    var r := ParseRecords(ts, i + 1).value;
    rs, m := r.value, r.next;
  }

  /**
   * array(): a `[`, the values, then a `]`. The array keeps the values and the default
   * token, and the current token afterwards is the one after the `]`.
   */
  lemma ArrayParts(ts: TokenStream, i: nat, v: Value, n: nat) returns (vs: seq<Value>, m: nat)
    requires ValidStream(ts) && i < |ts.tokens| && ParseArray(ts, i) == Success(Parsed(v, n))
    ensures ts.tokens[i].tokenType == LBracket && i < m < |ts.tokens| && ts.tokens[m].tokenType == RBracket
    ensures v == Array(vs, DefaultToken) && n == m + 1
    ensures ts.tokens[i + 1].tokenType == RBracket ==> vs == [] && m == i + 1
    ensures ts.tokens[i + 1].tokenType != RBracket ==> ValueLoop(ts, i + 1, []) == Success(Parsed(vs, m))
  {
    var r := ParseValues(ts, i + 1).value;
    vs, m := r.value, r.next;
  }

  /** record(): the key is the string token at `i`, a `:` follows, then the value. */
  lemma RecordParts(ts: TokenStream, i: nat, r: Record, n: nat)
    requires ValidStream(ts) && i < |ts.tokens| && ParseRecord(ts, i) == Success(Parsed(r, n))
    ensures ts.tokens[i].tokenType == StringVal && ts.tokens[i + 1].tokenType == Colon
    ensures r.key == ts.tokens[i] && i + 2 < |ts.tokens| && ParseValue(ts, i + 2) == Success(Parsed(r.value, n))
  {
  }

  /** The loop of records(), one pass written out, whatever its outcome. */
  lemma RecordLoopUnfold(ts: TokenStream, i: nat, acc: seq<Record>)
    requires ValidStream(ts) && i < |ts.tokens|
    ensures RecordLoop(ts, i, acc) ==
      match ParseRecord(ts, i)
      case Failure(e) => Failure(e)
      case Success(rec) =>
        if ts.tokens[rec.next].tokenType != Comma then Success(Parsed(acc + [rec.value], rec.next))
        else if rec.next + 1 < |ts.tokens| then RecordLoop(ts, rec.next + 1, acc + [rec.value])
        else Failure(ts.failure.value)
  {
  }

  /** The loop of values(), one pass written out, whatever its outcome. */
  lemma ValueLoopUnfold(ts: TokenStream, i: nat, acc: seq<Value>)
    requires ValidStream(ts) && i < |ts.tokens|
    ensures ValueLoop(ts, i, acc) ==
      match ParseValue(ts, i)
      case Failure(e) => Failure(e)
      case Success(v) =>
        if ts.tokens[v.next].tokenType != Comma then Success(Parsed(acc + [v.value], v.next))
        else if v.next + 1 < |ts.tokens| then ValueLoop(ts, v.next + 1, acc + [v.value])
        else Failure(ts.failure.value)
  {
  }

  /**
   * records() only appends: started with `acc` already read, it fails exactly when it fails
   * from nothing, and otherwise returns `acc` followed by what it reads from nothing.
   */
  lemma {:induction false} RecordLoopAcc(ts: TokenStream, i: nat, acc: seq<Record>)
    requires ValidStream(ts) && i < |ts.tokens|
    ensures RecordLoop(ts, i, acc).Success? <==> RecordLoop(ts, i, []).Success?
    ensures RecordLoop(ts, i, acc).Failure? ==> RecordLoop(ts, i, acc) == RecordLoop(ts, i, [])
    ensures RecordLoop(ts, i, acc).Success? ==>
      var r := RecordLoop(ts, i, []).value;
      RecordLoop(ts, i, acc).value == Parsed(acc + r.value, r.next)
    decreases |ts.tokens| - i
  {
    RecordLoopUnfold(ts, i, acc);
    RecordLoopUnfold(ts, i, []);
    var rec := ParseRecord(ts, i);
    if rec.Success? {
      assert [] + [rec.value.value] == [rec.value.value];
    }
    if rec.Success? && ts.tokens[rec.value.next].tokenType == Comma && rec.value.next + 1 < |ts.tokens| {
      var j, x := rec.value.next + 1, rec.value.value;
      RecordLoopAcc(ts, j, acc + [x]);
      RecordLoopAcc(ts, j, [x]);
      if RecordLoop(ts, j, []).Success? {
        var rest := RecordLoop(ts, j, []).value.value;
        assert (acc + [x]) + rest == acc + ([x] + rest);
      }
    }
  }

  /**
   * values() only appends: started with `acc` already read, it fails exactly when it fails
   * from nothing, and otherwise returns `acc` followed by what it reads from nothing.
   */
  lemma {:induction false} ValueLoopAcc(ts: TokenStream, i: nat, acc: seq<Value>)
    requires ValidStream(ts) && i < |ts.tokens|
    ensures ValueLoop(ts, i, acc).Success? <==> ValueLoop(ts, i, []).Success?
    ensures ValueLoop(ts, i, acc).Failure? ==> ValueLoop(ts, i, acc) == ValueLoop(ts, i, [])
    ensures ValueLoop(ts, i, acc).Success? ==>
      var r := ValueLoop(ts, i, []).value;
      ValueLoop(ts, i, acc).value == Parsed(acc + r.value, r.next)
    decreases |ts.tokens| - i
  {
    ValueLoopUnfold(ts, i, acc);
    ValueLoopUnfold(ts, i, []);
    var v := ParseValue(ts, i);
    if v.Success? {
      assert [] + [v.value.value] == [v.value.value];
    }
    if v.Success? && ts.tokens[v.value.next].tokenType == Comma && v.value.next + 1 < |ts.tokens| {
      var j, x := v.value.next + 1, v.value.value;
      ValueLoopAcc(ts, j, acc + [x]);
      ValueLoopAcc(ts, j, [x]);
      if ValueLoop(ts, j, []).Success? {
        var rest := ValueLoop(ts, j, []).value.value;
        assert (acc + [x]) + rest == acc + ([x] + rest);
      }
    }
  }

  /**
   * What the loop of records() read from `i`: a first record, and either nothing more or a
   * comma and the records the loop reads after it.
   */
  lemma RecordLoopHead(ts: TokenStream, i: nat, rs: seq<Record>, m: nat) returns (x: Record, k: nat, rest: seq<Record>)
    requires ValidStream(ts) && i < |ts.tokens| && RecordLoop(ts, i, []) == Success(Parsed(rs, m))
    ensures i < k < |ts.tokens| && ParseRecord(ts, i) == Success(Parsed(x, k))
    ensures ts.tokens[k].tokenType != Comma ==> rs == [x] && m == k
    ensures ts.tokens[k].tokenType == Comma ==>
      k + 1 < |ts.tokens| && RecordLoop(ts, k + 1, []) == Success(Parsed(rest, m)) && rs == [x] + rest
  {
    RecordLoopUnfold(ts, i, []);
    var rec := ParseRecord(ts, i).value;
    x, k := rec.value, rec.next;
    assert [] + [x] == [x];
    if ts.tokens[k].tokenType == Comma {
      RecordLoopAcc(ts, k + 1, [x]);
      rest := RecordLoop(ts, k + 1, []).value.value;
    } else {
      rest := [];
    }
  }

  /**
   * What the loop of values() read from `i`: a first value, and either nothing more or a
   * comma and the values the loop reads after it.
   */
  lemma ValueLoopHead(ts: TokenStream, i: nat, vs: seq<Value>, m: nat) returns (x: Value, k: nat, rest: seq<Value>)
    requires ValidStream(ts) && i < |ts.tokens| && ValueLoop(ts, i, []) == Success(Parsed(vs, m))
    ensures i < k < |ts.tokens| && ParseValue(ts, i) == Success(Parsed(x, k))
    ensures ts.tokens[k].tokenType != Comma ==> vs == [x] && m == k
    ensures ts.tokens[k].tokenType == Comma ==>
      k + 1 < |ts.tokens| && ValueLoop(ts, k + 1, []) == Success(Parsed(rest, m)) && vs == [x] + rest
  {
    ValueLoopUnfold(ts, i, []);
    var v := ParseValue(ts, i).value;
    x, k := v.value, v.next;
    assert [] + [x] == [x];
    if ts.tokens[k].tokenType == Comma {
      ValueLoopAcc(ts, k + 1, [x]);
      rest := ValueLoop(ts, k + 1, []).value.value;
    } else {
      rest := [];
    }
  }

  /**
   * A parsed value is well formed: every key is a string token and every leaf has the type
   * its token calls for.
   */
  lemma {:induction false} ValueWellFormed(ts: TokenStream, i: nat)
    requires ValidStream(ts) && i < |ts.tokens| && ParseValue(ts, i).Success?
    ensures WellFormed(ParseValue(ts, i).value.value)
    decreases |ts.tokens| - i, 3
  {
    match ts.tokens[i].tokenType
    case LBrace => ObjectWellFormed(ts, i);
    case LBracket => ArrayWellFormed(ts, i);
    case _ =>
  }

  lemma {:induction false} ObjectWellFormed(ts: TokenStream, i: nat)
    requires ValidStream(ts) && i < |ts.tokens| && ParseObject(ts, i).Success?
    ensures WellFormed(ParseObject(ts, i).value.value)
    decreases |ts.tokens| - i, 2
  {
    if ts.tokens[i + 1].tokenType != RBrace {
      RecordLoopWellFormed(ts, i + 1, []);
    }
  }

  lemma {:induction false} RecordLoopWellFormed(ts: TokenStream, i: nat, acc: seq<Record>)
    requires ValidStream(ts) && i < |ts.tokens| && RecordLoop(ts, i, acc).Success?
    requires forall k :: 0 <= k < |acc| ==> WellFormedRecord(acc[k])
    ensures var rs := RecordLoop(ts, i, acc).value.value; forall k :: 0 <= k < |rs| ==> WellFormedRecord(rs[k])
    decreases |ts.tokens| - i, 4
  {
    var rec := ParseRecord(ts, i).value;
    RecordWellFormed(ts, i);
    var acc' := acc + [rec.value];
    assert forall k :: 0 <= k < |acc'| ==> WellFormedRecord(acc'[k]);
    if ts.tokens[rec.next].tokenType == Comma {
      RecordLoopWellFormed(ts, rec.next + 1, acc');
    }
  }

  lemma {:induction false} RecordWellFormed(ts: TokenStream, i: nat)
    requires ValidStream(ts) && i < |ts.tokens| && ParseRecord(ts, i).Success?
    ensures WellFormedRecord(ParseRecord(ts, i).value.value)
    decreases |ts.tokens| - i, 3
  {
    ValueWellFormed(ts, i + 2);
  }

  lemma {:induction false} ArrayWellFormed(ts: TokenStream, i: nat)
    requires ValidStream(ts) && i < |ts.tokens| && ParseArray(ts, i).Success?
    ensures WellFormed(ParseArray(ts, i).value.value)
    decreases |ts.tokens| - i, 2
  {
    if ts.tokens[i + 1].tokenType != RBracket {
      ValueLoopWellFormed(ts, i + 1, []);
    }
  }

  lemma {:induction false} ValueLoopWellFormed(ts: TokenStream, i: nat, acc: seq<Value>)
    requires ValidStream(ts) && i < |ts.tokens| && ValueLoop(ts, i, acc).Success?
    requires forall k :: 0 <= k < |acc| ==> WellFormed(acc[k])
    ensures var vs := ValueLoop(ts, i, acc).value.value; forall k :: 0 <= k < |vs| ==> WellFormed(vs[k])
    decreases |ts.tokens| - i, 4
  {
    var v := ParseValue(ts, i).value;
    ValueWellFormed(ts, i);
    var acc' := acc + [v.value];
    assert forall k :: 0 <= k < |acc'| ==> WellFormed(acc'[k]);
    if ts.tokens[v.next].tokenType == Comma {
      ValueLoopWellFormed(ts, v.next + 1, acc');
    }
  }

  predicate IsOpening(t: TokenType) {
    t == LBrace || t == LBracket
  }

  predicate IsClosing(t: TokenType) {
    t == RBrace || t == RBracket
  }

  /** first_token of a parsed object: its first key, or the default token if it is empty. */
  lemma ObjectFirstToken(ts: TokenStream, i: nat, v: Value, n: nat)
    requires ValidStream(ts) && i < |ts.tokens| && ParseObject(ts, i) == Success(Parsed(v, n))
    ensures i + 1 < n && ts.tokens[i].tokenType == LBrace
    ensures IsClosing(ts.tokens[i + 1].tokenType) ==> FirstToken(v) == DefaultToken
    ensures !IsClosing(ts.tokens[i + 1].tokenType) ==>
      FirstToken(v) == ts.tokens[i + 1] && ts.tokens[i + 1].tokenType == StringVal
  {
    var rs, m := ObjectParts(ts, i, v, n);
    if ts.tokens[i + 1].tokenType != RBrace {
      var x, j, rest := RecordLoopHead(ts, i + 1, rs, m);
      RecordParts(ts, i + 1, x, j);
      assert rs[0] == x;
    }
  }

  /**
   * first_token of a parsed array: the default token if it is empty, otherwise first_token
   * of its first element, which is parsed from `i + 1`.
   */
  lemma ArrayFirstToken(ts: TokenStream, i: nat, v: Value, n: nat) returns (x: Value, j: nat)
    requires ValidStream(ts) && i < |ts.tokens| && ParseArray(ts, i) == Success(Parsed(v, n))
    ensures i + 1 < n && ts.tokens[i].tokenType == LBracket
    ensures IsClosing(ts.tokens[i + 1].tokenType) ==> FirstToken(v) == DefaultToken
    ensures !IsClosing(ts.tokens[i + 1].tokenType) ==>
      ParseValue(ts, i + 1) == Success(Parsed(x, j)) && j < n && FirstToken(v) == FirstToken(x)
  {
    var vs, m := ArrayParts(ts, i, v, n);
    x, j := v, n;
    if ts.tokens[i + 1].tokenType != RBracket {
      var rest;
      x, j, rest := ValueLoopHead(ts, i + 1, vs, m);
      assert vs[0] == x && j <= m;
    }
  }

  /**
   * first_token of a parsed value is the token at `k`, the first one after the opening
   * brackets the value starts with: a leaf or a key. When the innermost of those containers
   * is empty, `k` holds its closing bracket and first_token gives the default token instead,
   * since the parser never stores closing tokens.
   */
  lemma {:induction false} FirstTokenOfParse(ts: TokenStream, i: nat, v: Value, n: nat) returns (k: nat)
    requires ValidStream(ts) && i < |ts.tokens| && ParseValue(ts, i) == Success(Parsed(v, n))
    ensures i <= k < n && forall m :: i <= m < k ==> IsOpening(ts.tokens[m].tokenType)
    ensures IsClosing(ts.tokens[k].tokenType) ==> FirstToken(v) == DefaultToken
    ensures !IsClosing(ts.tokens[k].tokenType) ==>
      FirstToken(v) == ts.tokens[k] && IsValueType(ts.tokens[k].tokenType)
    decreases |ts.tokens| - i
  {
    var t := ts.tokens[i].tokenType;
    if t == LBrace {
      ObjectFirstToken(ts, i, v, n);
      k := i + 1;
    } else if t == LBracket {
      var x, j := ArrayFirstToken(ts, i, v, n);
      if IsClosing(ts.tokens[i + 1].tokenType) {
        k := i + 1;
      } else {
        k := FirstTokenOfParse(ts, i + 1, x, j);
      }
    } else {
      assert ParseValue(ts, i) == ParseSimple(ts, i);
      k := i;
    }
  }

  /** A comma before `]`: the token after a comma must start a value, and `]` does not. */
  lemma TrailingCommaInArray(ts: TokenStream, i: nat, acc: seq<Value>, x: Value, j: nat)
    requires ValidStream(ts) && i < |ts.tokens| && ParseValue(ts, i) == Success(Parsed(x, j))
    requires ts.tokens[j].tokenType == Comma && j + 1 < |ts.tokens| && ts.tokens[j + 1].tokenType == RBracket
    ensures ValueLoop(ts, i, acc) ==
      Failure(SyntaxErrorAt("Unexpected token: expected value, ", ts.tokens[j + 1]))
  {
    ValueLoopUnfold(ts, i, acc);
    ValueLoopUnfold(ts, j + 1, acc + [x]);
  }

  /** A comma before `}`: the token after a comma must start a record, and `}` does not. */
  lemma TrailingCommaInObject(ts: TokenStream, i: nat, acc: seq<Record>, x: Record, j: nat)
    requires ValidStream(ts) && i < |ts.tokens| && ParseRecord(ts, i) == Success(Parsed(x, j))
    requires ts.tokens[j].tokenType == Comma && j + 1 < |ts.tokens| && ts.tokens[j + 1].tokenType == RBrace
    ensures RecordLoop(ts, i, acc) ==
      Failure(SyntaxErrorAt("Unexpected token: expected string, ", ts.tokens[j + 1]))
  {
    RecordLoopUnfold(ts, i, acc);
    RecordLoopUnfold(ts, j + 1, acc + [x]);
  }

  /**
   * When the records of an object are not followed by `}`, the error asks for a comma,
   * though the token found is never one: the loop of records() goes on at every comma.
   */
  lemma UnclosedObject(ts: TokenStream, i: nat, rs: seq<Record>, m: nat)
    requires ValidStream(ts) && i + 1 < |ts.tokens| && ts.tokens[i].tokenType == LBrace
    requires ts.tokens[i + 1].tokenType != RBrace && RecordLoop(ts, i + 1, []) == Success(Parsed(rs, m))
    requires ts.tokens[m].tokenType != RBrace
    ensures ts.tokens[m].tokenType != Comma
    ensures ParseObject(ts, i) == Failure(SyntaxErrorAt("Unexpected token: expected ',', ", ts.tokens[m]))
  {
    RecordLoopPast(ts, i + 1, rs, m);
  }

  /** The loop of records() stops only at a token that is not a comma. */
  lemma {:induction false} RecordLoopPast(ts: TokenStream, i: nat, rs: seq<Record>, m: nat)
    requires ValidStream(ts) && i < |ts.tokens| && RecordLoop(ts, i, []) == Success(Parsed(rs, m))
    ensures ts.tokens[m].tokenType != Comma
    decreases |ts.tokens| - i
  {
    var x, k, rest := RecordLoopHead(ts, i, rs, m);
    if ts.tokens[k].tokenType == Comma {
      RecordLoopPast(ts, k + 1, rest, m);
    }
  }

  /**
   * parse() takes one value and then requires EOS: a document is accepted exactly when a
   * value parses from the first token and EOS follows it, and anything else after the value
   * is refused as "expected end-of-file".
   */
  lemma DocumentShape(ts: TokenStream)
    requires ValidStream(ts)
    ensures ParseDocument(ts).Success? <==>
      |ts.tokens| > 0 && ParseValue(ts, 0).Success? && ts.tokens[ParseValue(ts, 0).value.next].tokenType == Eos
    ensures ParseDocument(ts).Success? ==> ParseDocument(ts).value.root == ParseValue(ts, 0).value.value
    ensures |ts.tokens| > 0 && ParseValue(ts, 0).Success? && ts.tokens[ParseValue(ts, 0).value.next].tokenType != Eos ==>
      ParseDocument(ts) == Failure(SyntaxErrorAt("Unexpected token: expected end-of-file, ",
                                                 ts.tokens[ParseValue(ts, 0).value.next]))
  {
  }
}
