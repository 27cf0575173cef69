/**
 * What the pretty printer of cli-utils/wjsonformat/wjsonformat.cpp adds to the compact one:
 * whitespace only. With the whitespace taken out, both print the same text, so pretty
 * printing a whitespace-free input gives back that input once its layout is removed.
 */
module PrettyProps {
  import opened Tokens
  import opened Ast
  import opened LexerSpec
  import opened ParserSpec
  import opened CompactPrinter
  import opened PrettyPrinter
  import opened RoundTrip

  /** `s` without the whitespace characters the lexer skips. */
  function Strip(s: string): (r: string)
  {
    if |s| == 0 then ""
    else (if IsSpace(s[0]) then "" else [s[0]]) + Strip(s[1..])
  }

  /** Removing whitespace commutes with concatenation. */
  lemma {:induction false} StripConcat(a: string, b: string)
    ensures Strip(a + b) == Strip(a) + Strip(b)
    decreases |a|
  {
    if |a| > 0 {
      assert (a + b)[1..] == a[1..] + b;
      StripConcat(a[1..], b);
    } else {
      assert a + b == b;
    }
  }

  /** Text that holds no whitespace is left as it is. */
  lemma {:induction false} StripSpaceFree(s: string)
    requires SpaceFree(s)
    ensures Strip(s) == s
    decreases |s|
  {
    if |s| > 0 {
      assert SpaceFree(s[1..]) by {
        forall k | 0 <= k < |s| - 1
          ensures !IsSpace(s[1..][k])
        {
          assert s[1..][k] == s[k + 1];
        }
      }
      StripSpaceFree(s[1..]);
      assert [s[0]] + s[1..] == s;
    }
  }

  /** An indent made of whitespace disappears. */
  lemma {:induction false} StripIndent(n: nat, fill: char)
    requires IsSpace(fill)
    ensures Strip(Indent(n, fill)) == ""
  {
    if n > 0 {
      StripIndent(n - 1, fill);
      StripConcat(Indent(n - 1, fill), [fill]);
    }
  }

  /** Removing whitespace from three pieces. */
  lemma {:induction false} Strip3(a: string, b: string, c: string)
    ensures Strip(a + b + c) == Strip(a) + Strip(b) + Strip(c)
  {
    StripConcat(a + b, c);
    StripConcat(a, b);
  }

  /** Removing whitespace from five pieces. */
  lemma {:induction false} Strip5(a: string, b: string, c: string, d: string, e: string)
    ensures Strip(a + b + c + d + e) == Strip(a) + Strip(b) + Strip(c) + Strip(d) + Strip(e)
  {
    StripConcat(a + b + c + d, e);
    StripConcat(a + b + c, d);
    Strip3(a, b, c);
  }

  /** Removing whitespace from a text that starts with `c`. */
  lemma {:induction false} StripCons(c: char, s: string)
    ensures Strip([c] + s) == (if IsSpace(c) then "" else [c]) + Strip(s)
  {
    assert ([c] + s)[1..] == s;
  }

  /** The opening separators of the two printers, with their whitespace removed. */
  lemma {:induction false} OpeningSeparators()
    ensures Strip("{\n") == "{" == Strip("{") && Strip("[\n") == "[" == Strip("[")
    ensures Strip("\n") == ""
  {
    StripCons('\n', "");
    assert "\n" == ['\n'] + "";
    StripCons('{', "");
    assert "{" == ['{'] + "";
    StripCons('[', "");
    assert "[" == ['['] + "";
    StripCons('{', "\n");
    assert "{\n" == ['{'] + "\n";
    StripCons('[', "\n");
    assert "[\n" == ['['] + "\n";
  }

  /** The separator between two records or two elements, with its whitespace removed. */
  lemma {:induction false} CommaSeparator()
    ensures Strip(",\n") == "," == Strip(",")
  {
    StripCons('\n', "");
    assert "\n" == ['\n'] + "";
    StripCons(',', "");
    assert "," == [','] + "";
    StripCons(',', "\n");
    assert ",\n" == [','] + "\n";
  }

  /** The text around a key, with its whitespace removed. */
  lemma {:induction false} KeySeparators()
    ensures Strip("\"") == "\"" && Strip(": ") == ":" && Strip("\":") == "\":"
  {
    StripCons('"', "");
    assert "\"" == ['"'] + "";
    StripCons(' ', "");
    assert " " == [' '] + "";
    StripCons(':', "");
    assert ":" == [':'] + "";
    StripCons(':', " ");
    assert ": " == [':'] + " ";
    StripCons('"', ":");
    assert "\":" == ['"'] + ":";
  }

  /** A container's pretty text and its compact text, with their whitespace removed. */
  lemma {:induction false} Enclosed(open': string, body: string, nl: string, ind: string, close: string, open: string, compact: string)
    requires Strip(open') == Strip(open) && Strip(nl) == "" && Strip(ind) == "" && Strip(body) == Strip(compact)
    ensures Strip(open' + body + nl + ind + close) == Strip(open + compact + close)
  {
    Strip5(open', body, nl, ind, close);
    Strip3(open, compact, close);
  }

  /** Two joined pieces of pretty text and of compact text, with their whitespace removed. */
  lemma {:induction false} Joined(init: string, sep': string, last: string, init0: string, sep: string, last0: string)
    requires Strip(init) == Strip(init0) && Strip(sep') == Strip(sep) && Strip(last) == Strip(last0)
    ensures Strip(init + sep' + last) == Strip(init0 + sep + last0)
  {
    Strip3(init, sep', last);
    Strip3(init0, sep, last0);
  }

  /**
   * With an indent of whitespace, the pretty text of a value and its compact text differ
   * only in whitespace.
   */
  lemma {:induction false} PrettyMatchesCompact(v: Value, lay: Layout, d: nat)
    requires IsSpace(lay.fill)
    ensures Strip(PrettyValue(v, lay, d)) == Strip(CompactValue(v))
    decreases v, 1
  {
    match v
    case Object(rs, t) =>
      if |rs| == 0 {
        OpeningSeparators();
        StripConcat("{}", if d == 0 then "\n" else "");
      } else {
        ObjectMatch(rs, t, lay, d);
      }
    case Array(vs, t) =>
      if |vs| > 0 {
        ArrayMatch(vs, t, lay, d);
      }
    case Simple(_, _) =>
  }

  lemma {:induction false} ObjectMatch(rs: seq<Record>, t: Token, lay: Layout, d: nat)
    requires IsSpace(lay.fill) && |rs| > 0
    ensures Strip(PrettyValue(Object(rs, t), lay, d)) == Strip(CompactValue(Object(rs, t)))
    decreases rs, |rs| + 1
  {
    OpeningSeparators();
    RecordsMatch(rs, |rs|, lay, d + lay.size);
    assert rs[..|rs|] == rs;
    StripIndent(d, lay.fill);
    Enclosed("{\n", PrettyRecords(rs, |rs|, lay, d + lay.size), "\n", Indent(d, lay.fill), "}",
             "{", CompactRecords(rs));
  }

  lemma {:induction false} ArrayMatch(vs: seq<Value>, t: Token, lay: Layout, d: nat)
    requires IsSpace(lay.fill) && |vs| > 0
    ensures Strip(PrettyValue(Array(vs, t), lay, d)) == Strip(CompactValue(Array(vs, t)))
    decreases vs, |vs| + 1
  {
    OpeningSeparators();
    ValuesMatch(vs, |vs|, lay, d + lay.size);
    assert vs[..|vs|] == vs;
    StripIndent(d, lay.fill);
    Enclosed("[\n", PrettyValues(vs, |vs|, lay, d + lay.size), "\n", Indent(d, lay.fill), "]",
             "[", CompactValues(vs));
  }

  lemma {:induction false} RecordsMatch(rs: seq<Record>, n: nat, lay: Layout, d: nat)
    requires IsSpace(lay.fill) && 0 < n <= |rs|
    ensures Strip(PrettyRecords(rs, n, lay, d)) == Strip(CompactRecords(rs[..n]))
    decreases rs, n
  {
    RecordMatch(rs[n - 1], lay, d);
    if n == 1 {
      assert rs[..n][0] == rs[0];
    } else {
      RecordsMatch(rs, n - 1, lay, d);
      assert rs[..n][..n - 1] == rs[..n - 1] && rs[..n][n - 1] == rs[n - 1];
      CommaSeparator();
      Joined(PrettyRecords(rs, n - 1, lay, d), ",\n", PrettyRecord(rs[n - 1], lay, d),
             CompactRecords(rs[..n - 1]), ",", CompactRecord(rs[n - 1]));
    }
  }

  /** A record's pretty text and its compact text, with their whitespace removed. */
  lemma {:induction false} Keyed(ind: string, key: string, pretty: string, compact: string)
    requires Strip(ind) == "" && Strip(pretty) == Strip(compact)
    ensures Strip(ind + "\"" + key + "\"" + ": " + pretty) == Strip("\"" + key + "\":" + compact)
  {
    KeySeparators();
    var k := Strip(key);
    StripConcat(ind + "\"" + key + "\"" + ": ", pretty);
    Strip5(ind, "\"", key, "\"", ": ");
    StripConcat("\"" + key + "\":", compact);
    Strip3("\"", key, "\":");
    assert "" + "\"" + k + "\"" + ":" == "\"" + k + "\":";
  }

  lemma {:induction false} RecordMatch(r: Record, lay: Layout, d: nat)
    requires IsSpace(lay.fill)
    ensures Strip(PrettyRecord(r, lay, d)) == Strip(CompactRecord(r))
    decreases r
  {
    PrettyMatchesCompact(r.value, lay, d);
    StripIndent(d, lay.fill);
    Keyed(Indent(d, lay.fill), r.key.lexeme, PrettyValue(r.value, lay, d), CompactValue(r.value));
  }

  /** An element after the earlier ones, with whitespace removed from both printers' text. */
  lemma {:induction false} LaterElement(init: string, ind: string, last: string, init0: string, last0: string)
    requires Strip(init) == Strip(init0) && Strip(ind + last) == Strip(last0)
    ensures Strip(init + ",\n" + ind + last) == Strip(init0 + "," + last0)
  {
    CommaSeparator();
    assert init + ",\n" + ind + last == init + ",\n" + (ind + last);
    Joined(init, ",\n", ind + last, init0, ",", last0);
  }

  /** An indented element of an array, with its whitespace removed. */
  lemma {:induction false} ElementMatch(v: Value, lay: Layout, d: nat)
    requires IsSpace(lay.fill)
    ensures Strip(Indent(d, lay.fill) + PrettyValue(v, lay, d)) == Strip(CompactValue(v))
    decreases v, 2
  {
    PrettyMatchesCompact(v, lay, d);
    StripIndent(d, lay.fill);
    StripConcat(Indent(d, lay.fill), PrettyValue(v, lay, d));
  }

  lemma {:induction false} ValuesMatch(vs: seq<Value>, n: nat, lay: Layout, d: nat)
    requires IsSpace(lay.fill) && 0 < n <= |vs|
    ensures Strip(PrettyValues(vs, n, lay, d)) == Strip(CompactValues(vs[..n]))
    decreases vs, n
  {
    ElementMatch(vs[n - 1], lay, d);
    if n == 1 {
      assert vs[..n][0] == vs[0];
    } else {
      ValuesMatch(vs, n - 1, lay, d);
      assert vs[..n][..n - 1] == vs[..n - 1] && vs[..n][n - 1] == vs[n - 1];
      LaterElement(PrettyValues(vs, n - 1, lay, d), Indent(d, lay.fill), PrettyValue(vs[n - 1], lay, d),
                   CompactValues(vs[..n - 1]), CompactValue(vs[n - 1]));
    }
  }

  /**
   * Pretty printing a whitespace-free input that parses, with an indent of whitespace at any
   * width, gives back the input once the whitespace is removed.
   */
  lemma {:induction false} PrettyRoundTrip(input: string, lay: Layout)
    requires SpaceFree(input) && ParseText(input).Success? && IsSpace(lay.fill)
    ensures Strip(PrettyDocument(ParseText(input).value, lay, 0)) == input
  {
    var doc := ParseText(input).value;
    CompactRoundTrip(input);
    PrettyMatchesCompact(doc.root, lay, 0);
    StripConcat(PrettyValue(doc.root, lay, 0), "\n");
    StripSpaceFree(input);
  }

  /**
   * An empty object is followed by a newline only at indent 0, so a document that is just
   * `{}` prints as `{}` and two newlines; elsewhere it prints as `{}`, like an empty array.
   */
  lemma {:induction false} EmptyContainers(t: Token, lay: Layout, d: nat)
    ensures PrettyDocument(Document(Object([], t)), lay, 0) == "{}\n\n"
    ensures d > 0 ==> PrettyValue(Object([], t), lay, d) == "{}"
    ensures PrettyValue(Array([], t), lay, d) == "[]"
  {
  }
}
