/** Errors: lib/core/json_exception.cpp. */
module JsonErrors {
  import opened Outcomes
  import opened Text

  /** The compilation stage where the error occurred (LEXER, SYNTAX, SEMANTIC). */
  datatype ErrorKind = LexerError | SyntaxError | SemanticError

  /**
   * One constructor per C++ constructor: the four-argument one records a position
   * (has_line_column is true), the two-argument one does not.
   */
  datatype JsonError =
    | Positioned(kind: ErrorKind, message: string, line: int, column: int)
    | Unpositioned(kind: ErrorKind, message: string)

  predicate HasLineColumn(e: JsonError) {
    e.Positioned?
  }

  function Category(k: ErrorKind): (s: string)
    ensures |s| > 0 && ' ' !in s
  {
    match k
    case LexerError => "Lexer"
    case SyntaxError => "Parser"
    case SemanticError => "Type"
  }

  function PositionSuffix(line: int, column: int): string {
    " at line " + IntToString(line) + " column " + IntToString(column)
  }

  /** JSONException::to_string. */
  function ToString(e: JsonError): string {
    Category(e.kind) + " Error: " + e.message
      + (if HasLineColumn(e) then PositionSuffix(e.line, e.column) else "")
  }

  /** Reads the error kind back from the category word that opens an error text. */
  function KindOfErrorText(s: string): Option<ErrorKind> {
    if |s| >= 13 && s[..13] == "Lexer Error: " then Some(LexerError)
    else if |s| >= 14 && s[..14] == "Parser Error: " then Some(SyntaxError)
    else if |s| >= 12 && s[..12] == "Type Error: " then Some(SemanticError)
    else None
  }

  /** Reads line and column back from the " at line L column C" ending of an error text. */
  function PositionOfErrorText(s: string): Option<(int, int)> {
    var c := TrailingDigits(s);
    var rest := s[..|s| - |c|];
    if |c| == 0 || |rest| < 8 || rest[|rest| - 8..] != " column " then None
    else
      var front := rest[..|rest| - 8];
      var l := TrailingDigits(front);
      var head := front[..|front| - |l|];
      if |l| == 0 || |head| < 9 || head[|head| - 9..] != " at line " then None
      else Some((ParseNat(l), ParseNat(c)))
  }

  lemma KindOfPrefixedText(k: ErrorKind, rest: string)
    ensures KindOfErrorText(Category(k) + " Error: " + rest) == Some(k)
  {
    var s := Category(k) + " Error: " + rest;
    match k
    case LexerError => assert s[..13] == "Lexer Error: ";
    case SyntaxError => assert s[..14] == "Parser Error: "; assert s[0] == 'P';
    case SemanticError => assert s[..12] == "Type Error: "; assert s[0] == 'T';
  }

  /**
   * The text opens with the category of the error's kind, then " Error: " and the message
   * verbatim; something is appended after the message exactly when the error has a position.
   */
  lemma ErrorTextLayout(e: JsonError)
    ensures var s := ToString(e); var head := Category(e.kind) + " Error: " + e.message;
      |head| <= |s| && s[..|head|] == head && (|s| == |head| <==> !HasLineColumn(e))
  {
    var head := Category(e.kind) + " Error: " + e.message;
    if HasLineColumn(e) {
      var tail := PositionSuffix(e.line, e.column);
      assert |tail| > 0;
      assert ToString(e) == head + tail;
      assert (head + tail)[..|head|] == head;
    } else {
      assert ToString(e) == head;
    }
  }

  /** The category word that opens the text reads back to the error's kind. */
  lemma ErrorTextKind(e: JsonError)
    ensures KindOfErrorText(ToString(e)) == Some(e.kind)
  {
    var tail := if HasLineColumn(e) then PositionSuffix(e.line, e.column) else "";
    assert ToString(e) == Category(e.kind) + " Error: " + (e.message + tail);
    KindOfPrefixedText(e.kind, e.message + tail);
  }

  lemma {:induction false} SuffixDecodes(head: string, l: string, c: string)
    requires |l| > 0 && AllDigits(l) && |c| > 0 && AllDigits(c)
    ensures PositionOfErrorText(head + " at line " + l + " column " + c) == Some((ParseNat(l), ParseNat(c)))
  {
    var s := head + " at line " + l + " column " + c;
    var a := head + " at line " + l + " column ";
    assert s == a + c;
    TrailingDigitsAfter(a, c);
    var rest := s[..|s| - |c|];
    assert rest == a;
    var front := rest[..|rest| - 8];
    assert rest[|rest| - 8..] == " column ";
    assert front == (head + " at line ") + l;
    TrailingDigitsAfter(head + " at line ", l);
    var h := front[..|front| - |l|];
    assert h == head + " at line ";
    assert h[|h| - 9..] == " at line ";
  }

  /** The position written by a positioned error reads back to its line and column. */
  lemma ErrorTextPosition(e: JsonError)
    requires HasLineColumn(e) && e.line >= 0 && e.column >= 0
    ensures PositionOfErrorText(ToString(e)) == Some((e.line, e.column))
  {
    var l, c := NatToString(e.line), NatToString(e.column);
    var head := Category(e.kind) + " Error: " + e.message;
    assert ToString(e) == head + " at line " + l + " column " + c;
    SuffixDecodes(head, l, c);
    ParseNatToString(e.line);
    ParseNatToString(e.column);
  }
}
