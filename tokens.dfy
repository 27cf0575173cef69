/** Tokens: lib/core/token.h and lib/core/token.cpp. */
module Tokens {
  import opened Outcomes
  import opened Text

  /** The closed set of token kinds: six structural symbols, three value kinds, end of stream. */
  datatype TokenType =
    | Comma | Colon | LBracket | RBracket | LBrace | RBrace
    | LiteralVal | NumberVal | StringVal
    | Eos

  /** An immutable token; the fields are the const accessors type(), lexeme(), line(), column(). */
  datatype Token = Token(tokenType: TokenType, lexeme: string, line: int, column: int)

  /** The default-constructed token. */
  const DefaultToken: Token := Token(Eos, "", 0, 0)

  predicate IsStructural(t: TokenType) {
    t in {Comma, Colon, LBracket, RBracket, LBrace, RBrace}
  }

  predicate IsValueType(t: TokenType) {
    t in {LiteralVal, NumberVal, StringVal}
  }

  /** The process-wide, read-only table of type names used by ToString. */
  const TypeNames: map<TokenType, string> := map[
    Comma := "COMMA", Colon := "COLON", LBracket := "LBRACKET",
    RBracket := "RBRACKET", LBrace := "LBRACE", RBrace := "RBRACE",
    LiteralVal := "LITERAL_VAL", NumberVal := "NUMBER_VAL",
    StringVal := "STRING_VAL",
    Eos := "EOS"]

  /** Every token type has exactly one, distinct, space-free name, so the lookup never fails. */
  lemma TypeNamesComplete()
    ensures forall t: TokenType :: t in TypeNames && |TypeNames[t]| > 0 && ' ' !in TypeNames[t]
    ensures forall a: TokenType, b: TokenType :: TypeNames[a] == TypeNames[b] ==> a == b
  {
    forall t: TokenType ensures t in TypeNames && |TypeNames[t]| > 0 && ' ' !in TypeNames[t] {
      match t
      case Comma => case Colon => case LBracket => case RBracket => case LBrace =>
      case RBrace => case LiteralVal => case NumberVal => case StringVal => case Eos =>
    }
  }

  /** Token::to_string: type name, quoted lexeme, then line:column. */
  function ToString(t: Token): (s: string)
  {
    TypeNamesComplete();
    TypeNames[t.tokenType] + " '" + t.lexeme + "' " + IntToString(t.line) + ":" + IntToString(t.column)
  }

  /** The text of `s` before its first space. */
  function UpToSpace(s: string): (r: string)
    ensures ' ' !in r && r <= s
  {
    if |s| == 0 || s[0] == ' ' then "" else [s[0]] + UpToSpace(s[1..])
  }

  lemma {:induction false} UpToSpaceOf(name: string, rest: string)
    requires ' ' !in name && |rest| > 0 && rest[0] == ' '
    ensures UpToSpace(name + rest) == name
    decreases |name|
  {
    if |name| > 0 {
      assert (name + rest)[1..] == name[1..] + rest;
      UpToSpaceOf(name[1..], rest);
    } else {
      assert name + rest == rest;
    }
  }

  /** Reads the token type back from a token's text. */
  function TypeOfTokenText(s: string): Option<TokenType>
  {
    var name := UpToSpace(s);
    if name == "COMMA" then Some(Comma)
    else if name == "COLON" then Some(Colon)
    else if name == "LBRACKET" then Some(LBracket)
    else if name == "RBRACKET" then Some(RBracket)
    else if name == "LBRACE" then Some(LBrace)
    else if name == "RBRACE" then Some(RBrace)
    else if name == "LITERAL_VAL" then Some(LiteralVal)
    else if name == "NUMBER_VAL" then Some(NumberVal)
    else if name == "STRING_VAL" then Some(StringVal)
    else if name == "EOS" then Some(Eos)
    else None
  }

  /** Reads line:column back from the end of a token's text. */
  function PositionOfTokenText(s: string): Option<(int, int)>
  {
    var c := TrailingDigits(s);
    var rest := s[..|s| - |c|];
    if |c| == 0 || |rest| == 0 || rest[|rest| - 1] != ':' then None
    else
      var l := TrailingDigits(rest[..|rest| - 1]);
      if |l| == 0 then None else Some((ParseNat(l), ParseNat(c)))
  }

  /** The text of a token starts with its type name, which reads back to its type. */
  lemma TokenTextType(t: Token)
    ensures TypeOfTokenText(ToString(t)) == Some(t.tokenType)
  {
    TypeNamesComplete();
    var name := TypeNames[t.tokenType];
    var rest := " '" + t.lexeme + "' " + IntToString(t.line) + ":" + IntToString(t.column);
    assert ToString(t) == name + rest;
    UpToSpaceOf(name, rest);
  }

  /** The text of a token ends with its line and column, which read back to the stored values. */
  lemma TokenTextPosition(t: Token)
    requires t.line >= 0 && t.column >= 0
    ensures PositionOfTokenText(ToString(t)) == Some((t.line, t.column))
  {
    TypeNamesComplete();
    var l, c := NatToString(t.line), NatToString(t.column);
    var front := TypeNames[t.tokenType] + " '" + t.lexeme + "' ";
    var s := ToString(t);
    assert s == (front + l + ":") + c;
    TrailingDigitsAfter(front + l + ":", c);
    var rest := s[..|s| - |c|];
    assert rest == front + l + ":";
    assert rest[..|rest| - 1] == front + l;
    TrailingDigitsAfter(front, l);
    ParseNatToString(t.line);
    ParseNatToString(t.column);
  }
}
