/**
 * The compact Printer of cli-utils/wjsoncompact/wjsoncompact.cpp. Its indent helpers do
 * nothing and it keeps no other state, so each visit is a function from a node to the text
 * it appends to the stream.
 */
module CompactPrinter {
  import opened Tokens
  import opened Ast
  import opened LexerSpec

  /**
   * visit(SimpleRValue&), shared by both printers: numbers and literals as their lexeme,
   * strings wrapped in double quotes, nothing for any other type.
   */
  function LeafText(t: Token, kind: ValueType): (s: string)
    ensures kind == StringType ==> |s| == |t.lexeme| + 2 && s[0] == '"' && s[|s| - 1] == '"'
    ensures kind == StringType ==> s[1..|s| - 1] == t.lexeme
    ensures kind == NumberType || kind == LiteralType ==> s == t.lexeme
    ensures kind == ArrayType || kind == JsonType ==> s == ""
  {
    match kind
    case LiteralType => t.lexeme
    case NumberType => t.lexeme
    case StringType => "\"" + t.lexeme + "\""
    case _ => ""
  }

  /** visit(JSON&), visit(Array&) and visit(SimpleRValue&). */
  function CompactValue(v: Value): string {
    match v
    case Object(rs, _) => if |rs| == 0 then "{}" else "{" + CompactRecords(rs) + "}"
    case Array(vs, _) => if |vs| == 0 then "[]" else "[" + CompactValues(vs) + "]"
    case Simple(t, kind) => LeafText(t, kind)
  }

  /** The records of a non-empty object, a comma between each two. */
  function CompactRecords(rs: seq<Record>): string
    requires |rs| > 0
  {
    if |rs| == 1 then CompactRecord(rs[0])
    else CompactRecords(rs[..|rs| - 1]) + "," + CompactRecord(rs[|rs| - 1])
  }

  /** visit(Record&): the quoted key, a colon, the value. */
  function CompactRecord(r: Record): string {
    "\"" + r.key.lexeme + "\":" + CompactValue(r.value)
  }

  /** The elements of a non-empty array, a comma between each two. */
  function CompactValues(vs: seq<Value>): string
    requires |vs| > 0
  {
    if |vs| == 1 then CompactValue(vs[0])
    else CompactValues(vs[..|vs| - 1]) + "," + CompactValue(vs[|vs| - 1])
  }

  /** visit(JSONDocument&): the root and nothing else. */
  function CompactDocument(d: Document): string {
    CompactValue(d.root)
  }

  /** Joining from the front: the first record, a comma, the rest. */
  lemma {:induction false} CompactRecordsCons(r: Record, rs: seq<Record>)
    requires |rs| > 0
    ensures CompactRecords([r] + rs) == CompactRecord(r) + "," + CompactRecords(rs)
    decreases |rs|
  {
    if |rs| > 1 {
      var init := rs[..|rs| - 1];
      assert ([r] + rs)[..|rs|] == [r] + init;
      CompactRecordsCons(r, init);
    } else {
      assert [r] + rs == [r, rs[0]];
    }
  }

  /** Joining from the front: the first element, a comma, the rest. */
  lemma {:induction false} CompactValuesCons(v: Value, vs: seq<Value>)
    requires |vs| > 0
    ensures CompactValues([v] + vs) == CompactValue(v) + "," + CompactValues(vs)
    decreases |vs|
  {
    if |vs| > 1 {
      var init := vs[..|vs| - 1];
      assert ([v] + vs)[..|vs|] == [v] + init;
      CompactValuesCons(v, init);
    } else {
      assert [v] + vs == [v, vs[0]];
    }
  }

  /** Text without any of the whitespace characters the lexer skips. */
  predicate SpaceFree(s: string) {
    forall k :: 0 <= k < |s| ==> !IsSpace(s[k])
  }

  /** Every key and leaf lexeme in a value is free of whitespace. */
  predicate LexemesSpaceFree(v: Value) {
    match v
    case Object(rs, _) => forall k :: 0 <= k < |rs| ==> RecordSpaceFree(rs[k])
    case Array(vs, _) => forall k :: 0 <= k < |vs| ==> LexemesSpaceFree(vs[k])
    case Simple(t, _) => SpaceFree(t.lexeme)
  }

  predicate RecordSpaceFree(r: Record) {
    SpaceFree(r.key.lexeme) && LexemesSpaceFree(r.value)
  }

  /** The compact printer emits no whitespace of its own: only lexemes can bring any. */
  lemma {:induction false} CompactSpaceFree(v: Value)
    requires LexemesSpaceFree(v)
    ensures SpaceFree(CompactValue(v))
  {
    match v
    case Object(rs, _) =>
      if |rs| > 0 {
        CompactRecordsSpaceFree(rs);
        SpaceFreeConcat("{", CompactRecords(rs));
        SpaceFreeConcat("{" + CompactRecords(rs), "}");
      }
    case Array(vs, _) =>
      if |vs| > 0 {
        CompactValuesSpaceFree(vs);
        SpaceFreeConcat("[", CompactValues(vs));
        SpaceFreeConcat("[" + CompactValues(vs), "]");
      }
    case Simple(t, kind) =>
      SpaceFreeConcat("\"", t.lexeme);
      SpaceFreeConcat("\"" + t.lexeme, "\"");
  }

  lemma {:induction false} CompactRecordsSpaceFree(rs: seq<Record>)
    requires |rs| > 0 && forall k :: 0 <= k < |rs| ==> RecordSpaceFree(rs[k])
    ensures SpaceFree(CompactRecords(rs))
  {
    CompactRecordSpaceFree(rs[|rs| - 1]);
    if |rs| > 1 {
      CompactRecordsSpaceFree(rs[..|rs| - 1]);
      SpaceFreeConcat(CompactRecords(rs[..|rs| - 1]), ",");
      SpaceFreeConcat(CompactRecords(rs[..|rs| - 1]) + ",", CompactRecord(rs[|rs| - 1]));
    }
  }

  lemma {:induction false} CompactRecordSpaceFree(r: Record)
    requires RecordSpaceFree(r)
    ensures SpaceFree(CompactRecord(r))
  {
    CompactSpaceFree(r.value);
    SpaceFreeConcat("\"", r.key.lexeme);
    SpaceFreeConcat("\"" + r.key.lexeme, "\":");
    SpaceFreeConcat("\"" + r.key.lexeme + "\":", CompactValue(r.value));
  }

  lemma {:induction false} CompactValuesSpaceFree(vs: seq<Value>)
    requires |vs| > 0 && forall k :: 0 <= k < |vs| ==> LexemesSpaceFree(vs[k])
    ensures SpaceFree(CompactValues(vs))
  {
    CompactSpaceFree(vs[|vs| - 1]);
    if |vs| > 1 {
      CompactValuesSpaceFree(vs[..|vs| - 1]);
      SpaceFreeConcat(CompactValues(vs[..|vs| - 1]), ",");
      SpaceFreeConcat(CompactValues(vs[..|vs| - 1]) + ",", CompactValue(vs[|vs| - 1]));
    }
  }

  lemma SpaceFreeConcat(a: string, b: string)
    requires SpaceFree(a) && SpaceFree(b)
    ensures SpaceFree(a + b)
  {
    forall k | 0 <= k < |a + b|
      ensures !IsSpace((a + b)[k])
    {
      if k >= |a| {
        assert (a + b)[k] == b[k - |a|];
      }
    }
  }
}
