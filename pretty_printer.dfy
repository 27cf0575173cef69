/**
 * The pretty Printer of cli-utils/wjsonformat/wjsonformat.cpp, with the state declared in
 * lib/printer/printer.h: a fixed indent width and character, a mutable current indent, and
 * the output stream, modelled as the text written so far.
 */
module PrettyPrinter {
  import opened Tokens
  import opened Ast
  import opened LexerSpec
  import opened CompactPrinter

  /** `n` copies of `fill`. */
  function Indent(n: nat, fill: char): (s: string)
    ensures |s| == n
  {
    if n == 0 then "" else Indent(n - 1, fill) + [fill]
  }

  /** Every character of an indent is the fill character. */
  lemma {:induction false} IndentFill(n: nat, fill: char)
    ensures forall k :: 0 <= k < n ==> Indent(n, fill)[k] == fill
  {
    if n > 0 {
      IndentFill(n - 1, fill);
    }
  }

  /** How far each nesting level is indented, and with which character. */
  datatype Layout = Layout(size: nat, fill: char)

  /**
   * The text visiting `v` appends when the current indent is `d`. An empty object is
   * followed by a newline only at indent 0; a non-empty container puts every child on its
   * own line, one level deeper, and closes at indent `d`.
   */
  function PrettyValue(v: Value, lay: Layout, d: nat): string {
    match v
    case Object(rs, _) =>
      if |rs| == 0 then "{}" + (if d == 0 then "\n" else "")
      else "{\n" + PrettyRecords(rs, |rs|, lay, d + lay.size) + "\n" + Indent(d, lay.fill) + "}"
    case Array(vs, _) =>
      if |vs| == 0 then "[]"
      else "[\n" + PrettyValues(vs, |vs|, lay, d + lay.size) + "\n" + Indent(d, lay.fill) + "]"
    case Simple(t, kind) => LeafText(t, kind)
  }

  /** The first `n` records of an object at indent `d`, joined by ",\n". */
  function PrettyRecords(rs: seq<Record>, n: nat, lay: Layout, d: nat): string
    requires 0 < n <= |rs|
    decreases rs, n
  {
    if n == 1 then PrettyRecord(rs[0], lay, d)
    else PrettyRecords(rs, n - 1, lay, d) + ",\n" + PrettyRecord(rs[n - 1], lay, d)
  }

  /** visit(Record&): the indent, the quoted key, a colon and a space, the value. */
  function PrettyRecord(r: Record, lay: Layout, d: nat): string {
    Indent(d, lay.fill) + "\"" + r.key.lexeme + "\"" + ": " + PrettyValue(r.value, lay, d)
  }

  /** The first `n` elements of an array at indent `d`, each indented, joined by ",\n". */
  function PrettyValues(vs: seq<Value>, n: nat, lay: Layout, d: nat): string
    requires 0 < n <= |vs|
    decreases vs, n
  {
    if n == 1 then Indent(d, lay.fill) + PrettyValue(vs[0], lay, d)
    else PrettyValues(vs, n - 1, lay, d) + ",\n" + Indent(d, lay.fill) + PrettyValue(vs[n - 1], lay, d)
  }

  /** visit(JSONDocument&): the root, then one newline. */
  function PrettyDocument(doc: Document, lay: Layout, d: nat): string {
    PrettyValue(doc.root, lay, d) + "\n"
  }

  /** Appending pieces one at a time appends their concatenation. */
  lemma Prepend2(p: string, a: string, b: string)
    ensures p + a + b == p + (a + b)
  {
  }

  lemma Prepend3(p: string, a: string, b: string, c: string)
    ensures p + a + b + c == p + (a + b + c)
  {
    Prepend2(p, a, b);
    Prepend2(p, a + b, c);
  }

  lemma Prepend4(p: string, a: string, b: string, c: string, d: string)
    ensures p + a + b + c + d == p + (a + b + c + d)
  {
    Prepend3(p, a, b, c);
    Prepend2(p, a + b + c, d);
  }

  lemma Prepend5(p: string, a: string, b: string, c: string, d: string, e: string)
    ensures p + a + b + c + d + e == p + (a + b + c + d + e)
  {
    Prepend4(p, a, b, c, d);
    Prepend2(p, a + b + c + d, e);
  }

  lemma Prepend6(p: string, a: string, b: string, c: string, d: string, e: string, f: string)
    ensures p + a + b + c + d + e + f == p + (a + b + c + d + e + f)
  {
    Prepend5(p, a, b, c, d, e);
    Prepend2(p, a + b + c + d + e, f);
  }

  /** One more record of an object, as the loop of visit(JSON&) appends it. */
  lemma RecordsStep(prefix: string, rs: seq<Record>, i: nat, lay: Layout, d: nat)
    requires 0 < i < |rs|
    ensures prefix + PrettyRecords(rs, i, lay, d) + ",\n" + PrettyRecord(rs[i], lay, d)
      == prefix + PrettyRecords(rs, i + 1, lay, d)
  {
    Prepend3(prefix, PrettyRecords(rs, i, lay, d), ",\n", PrettyRecord(rs[i], lay, d));
  }

  /** The first element of an array, as visit(Array&) writes it before its loop. */
  lemma ValuesFirst(prefix: string, vs: seq<Value>, lay: Layout, d: nat)
    requires 0 < |vs|
    ensures prefix + Indent(d, lay.fill) + PrettyValue(vs[0], lay, d) == prefix + PrettyValues(vs, 1, lay, d)
  {
    Prepend2(prefix, Indent(d, lay.fill), PrettyValue(vs[0], lay, d));
  }

  /** One more element of an array, as the loop of visit(Array&) appends it. */
  lemma ValuesStep(prefix: string, vs: seq<Value>, i: nat, lay: Layout, d: nat)
    requires 0 < i < |vs|
    ensures prefix + PrettyValues(vs, i, lay, d) + ",\n" + Indent(d, lay.fill) + PrettyValue(vs[i], lay, d)
      == prefix + PrettyValues(vs, i + 1, lay, d)
  {
    Prepend4(prefix, PrettyValues(vs, i, lay, d), ",\n", Indent(d, lay.fill), PrettyValue(vs[i], lay, d));
  }

  /** The closing line of a non-empty object, once its `n` records are written at `inner`. */
  lemma ObjectClose(prefix: string, o: Value, rs: seq<Record>, n: nat, lay: Layout, d: nat, inner: nat, ind: string)
    requires o.Object? && rs == o.records && 0 < n == |rs| && inner == d + lay.size && ind == Indent(d, lay.fill)
    ensures prefix + "{\n" + PrettyRecords(rs, n, lay, inner) + "\n" + ind + "}" == prefix + PrettyValue(o, lay, d)
  {
    Prepend5(prefix, "{\n", PrettyRecords(rs, n, lay, inner), "\n", ind, "}");
  }

  /** The closing line of a non-empty array, once its `n` elements are written at `inner`. */
  lemma ArrayClose(prefix: string, a: Value, vs: seq<Value>, n: nat, lay: Layout, d: nat, inner: nat, ind: string)
    requires a.Array? && vs == a.values && 0 < n == |vs| && inner == d + lay.size && ind == Indent(d, lay.fill)
    ensures prefix + "[\n" + PrettyValues(vs, n, lay, inner) + "\n" + ind + "]" == prefix + PrettyValue(a, lay, d)
  {
    Prepend5(prefix, "[\n", PrettyValues(vs, n, lay, inner), "\n", ind, "]");
  }

  class Printer {
    const indentSize: nat
    const indentChar: char
    var currIndent: nat
    var out: string

    function Lay(): Layout {
      Layout(indentSize, indentChar)
    }

    /** Printer(ostream&): one tab per level. */
    constructor ()
      ensures indentSize == 1 && indentChar == '\t' && currIndent == 0 && out == ""
    {
      indentSize, indentChar := 1, '\t';
      currIndent, out := 0, "";
    }

    /** Printer(ostream&, int): `indent` spaces per level. */
    constructor WithWidth(indent: nat)
      ensures indentSize == indent && indentChar == ' ' && currIndent == 0 && out == ""
    {
      indentSize, indentChar := indent, ' ';
      currIndent, out := 0, "";
    }

    /** Printer(ostream&, int, char): `width` copies of `fill` per level. */
    constructor WithFill(width: nat, fill: char)
      ensures indentSize == width && indentChar == fill && currIndent == 0 && out == ""
    {
      indentSize, indentChar := width, fill;
      currIndent, out := 0, "";
    }

    method IncIndent()
      modifies this`currIndent
      ensures currIndent == old(currIndent) + indentSize
    {
      currIndent := currIndent + indentSize;
    }

    method DecIndent()
      requires currIndent >= indentSize
      modifies this`currIndent
      ensures currIndent == old(currIndent) - indentSize
    {
      currIndent := currIndent - indentSize;
    }

    /** get_indent(): `currIndent` copies of the indent character. */
    function GetIndent(): (s: string)
      reads this`currIndent
      ensures |s| == currIndent && forall k :: 0 <= k < |s| ==> s[k] == indentChar
    {
      IndentFill(currIndent, indentChar);
      Indent(currIndent, indentChar)
    }

    /** visit(JSONDocument&). */
    method VisitDocument(doc: Document)
      modifies this`out, this`currIndent
      ensures out == old(out) + PrettyDocument(doc, Lay(), old(currIndent))
      ensures currIndent == old(currIndent)
    {
      Accept(doc.root);
      out := out + "\n";
    }

    /** accept(): the visit for the node's own kind. */
    method Accept(v: Value)
      modifies this`out, this`currIndent
      ensures out == old(out) + PrettyValue(v, Lay(), old(currIndent))
      ensures currIndent == old(currIndent)
      decreases v, 1
    {
      match v
      case Object(_, _) => VisitJson(v);
      case Array(_, _) => VisitArray(v);
      case Simple(_, _) => VisitSimple(v);
    }

    /** visit(JSON&): every inc_indent is undone by a dec_indent. */
    method VisitJson(node: Value)
      requires node.Object?
      modifies this`out, this`currIndent
      ensures out == old(out) + PrettyValue(node, Lay(), old(currIndent))
      ensures currIndent == old(currIndent)
      decreases node, 0
    {
      var rs := node.records;
      if |rs| == 0 {
        out := out + "{}";
        if currIndent == 0 {
          out := out + "\n";
        }
        return;
      }
      ghost var start, lay, d := out, Lay(), currIndent;
      ghost var inner := d + lay.size;
      IncIndent();
      out := out + "{\n";
      VisitRecord(rs[0]);
      var i := 1;
      while i < |rs|
        invariant 1 <= i <= |rs| && currIndent == inner
        invariant out == start + "{\n" + PrettyRecords(rs, i, lay, inner)
      {
        out := out + ",\n";
        VisitRecord(rs[i]);
        RecordsStep(start + "{\n", rs, i, lay, inner);
        i := i + 1;
      }
      DecIndent();
      var ind := GetIndent();
      ObjectClose(start, node, rs, i, lay, d, inner, ind);
      out := out + "\n" + ind + "}";
    }

    /** visit(Record&). */
    method VisitRecord(r: Record)
      modifies this`out, this`currIndent
      ensures out == old(out) + PrettyRecord(r, Lay(), old(currIndent))
      ensures currIndent == old(currIndent)
      decreases r
    {
      ghost var start := out;
      out := out + GetIndent();
      out := out + "\"" + r.key.lexeme + "\"";
      out := out + ": ";
      Accept(r.value);
      Prepend6(start, GetIndent(), "\"", r.key.lexeme, "\"", ": ", PrettyValue(r.value, Lay(), currIndent));
    }

    /** visit(SimpleRValue&). */
    method VisitSimple(node: Value)
      requires node.Simple?
      modifies this`out
      ensures out == old(out) + LeafText(node.token, node.valueType)
    {
      match node.valueType
      case LiteralType | NumberType =>
        out := out + node.token.lexeme;
      case StringType =>
        out := out + "\"" + node.token.lexeme + "\"";
      case _ =>
    }

    /** visit(Array&): every inc_indent is undone by a dec_indent. */
    method VisitArray(node: Value)
      requires node.Array?
      modifies this`out, this`currIndent
      ensures out == old(out) + PrettyValue(node, Lay(), old(currIndent))
      ensures currIndent == old(currIndent)
      decreases node, 0
    {
      var vs := node.values;
      if |vs| == 0 {
        out := out + "[]";
        return;
      }
      ghost var start, lay, d := out, Lay(), currIndent;
      ghost var inner := d + lay.size;
      IncIndent();
      out := out + "[\n" + GetIndent();
      Accept(vs[0]);
      ValuesFirst(start + "[\n", vs, lay, inner);
      var i := 1;
      while i < |vs|
        invariant 1 <= i <= |vs| && currIndent == inner
        invariant out == start + "[\n" + PrettyValues(vs, i, lay, inner)
      {
        out := out + ",\n" + GetIndent();
        Accept(vs[i]);
        ValuesStep(start + "[\n", vs, i, lay, inner);
        i := i + 1;
      }
      DecIndent();
      var ind := GetIndent();
      ArrayClose(start, node, vs, i, lay, d, inner, ind);
      out := out + "\n" + ind + "]";
    }
  }
}
