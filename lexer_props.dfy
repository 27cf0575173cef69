/**
 * What next_token of lib/core/lexer.cpp promises about the tokens it hands out, stated
 * against reference grammars for string bodies and numbers that do not scan anything.
 */
module LexerProps {
  import opened Outcomes
  import opened Text
  import opened Tokens
  import opened JsonErrors
  import opened LexerSpec

  /**
   * A string body as the lexer accepts it: characters other than a quote, a newline or a
   * backslash, and backslashes each kept with the following character, which may be
   * anything but a newline.
   */
  predicate StringBody(s: string)
    decreases |s|
  {
    || |s| == 0
    || (s[0] == '\\' && |s| >= 2 && s[1] != '\n' && StringBody(s[2..]))
    || (s[0] != '\\' && s[0] != '"' && s[0] != '\n' && StringBody(s[1..]))
  }

  /** The closing quote the lexer finds is the first quote after a body of that grammar. */
  lemma {:induction false} StringEndIsBody(input: string, j: nat, e: nat)
    requires j <= e < |input|
    ensures StringEnd(input, j) == Closed(e) <==> StringBody(input[j..e]) && input[e] == '"'
    decreases e - j
  {
    var s := input[j..e];
    if j < e {
      if input[j] == '\\' && j + 2 <= e {
        assert s[2..] == input[j + 2..e];
        StringEndIsBody(input, j + 2, e);
      } else if input[j] != '\\' {
        assert s[1..] == input[j + 1..e];
        StringEndIsBody(input, j + 1, e);
      }
    }
  }

  /** No body of that grammar holds a newline. */
  lemma {:induction false} BodyHasNoNewline(s: string)
    requires StringBody(s)
    ensures forall k :: 0 <= k < |s| ==> s[k] != '\n'
    decreases |s|
  {
    if |s| > 0 {
      var n := if s[0] == '\\' then 2 else 1;
      BodyHasNoNewline(s[n..]);
      forall k | n <= k < |s|
        ensures s[k] != '\n'
      {
        assert s[k] == s[n..][k - n];
      }
    }
  }

  /**
   * A string token: its lexeme is the body between the quotes, escapes kept verbatim, and
   * the lexer stands just past the closing quote, as many columns right as it read.
   */
  lemma StringToken(input: string, p: nat, l: int, c: int)
    requires p < |input| && input[p] == '"' && StringStep(input, p, l, c).Scanned?
    ensures var r := StringStep(input, p, l, c); var e := r.next.pos - 1;
      p < e < |input| && input[e] == '"' && r.token == Token(StringVal, input[p + 1..e], l, c)
      && StringBody(r.token.lexeme) && r.next == LexState(e + 1, l, c + (e + 1 - p))
    ensures forall k :: 0 <= k < |StringStep(input, p, l, c).token.lexeme| ==>
      StringStep(input, p, l, c).token.lexeme[k] != '\n'
  {
    var e := StringEnd(input, p + 1).end;
    StringEndIsBody(input, p + 1, e);
    BodyHasNoNewline(input[p + 1..e]);
  }

  /** A non-empty run of digits. */
  predicate Digits(s: string) {
    |s| > 0 && AllDigits(s)
  }

  /** An optional minus, then digits that do not start with two zeros. */
  predicate IntegerPart(s: string) {
    var d := if |s| > 0 && s[0] == '-' then s[1..] else s;
    Digits(d) && !(|d| >= 2 && d[0] == '0' && d[1] == '0')
  }

  /** Nothing, or a `.` and digits. */
  predicate FractionPart(s: string) {
    s == "" || (s[0] == '.' && Digits(s[1..]))
  }

  /** Nothing, or an `e` or `E`, an optional sign and digits. */
  predicate ExponentPart(s: string) {
    || s == ""
    || ((s[0] == 'e' || s[0] == 'E') &&
        var d := if |s| > 1 && (s[1] == '-' || s[1] == '+') then s[2..] else s[1..];
        Digits(d))
  }

  /** The digits the scan skips over from `j` are digits. */
  lemma DigitsRun(input: string, j: nat)
    requires j <= |input|
    ensures AllDigits(input[j..DigitsEnd(input, j)])
  {
    var e := DigitsEnd(input, j);
    forall k | 0 <= k < e - j
      ensures IsDigit(input[j..e][k])
    {
      assert input[j..e][k] == input[j + k];
    }
  }

  /** The integer part: an optional minus and digits, running up to `a`. */
  lemma IntegerRun(input: string, p: nat) returns (a: nat)
    requires p < |input| && (IsDigit(input[p]) || input[p] == '-') && ScanInteger(input, p).NumberEnd?
    ensures p < a <= |input| && IntegerPart(input[p..a]) && !DigitAt(input, a)
    ensures ScanInteger(input, p) == ScanFraction(input, p, a)
  {
    var first := if input[p] == '-' then p + 1 else p;
    a := DigitsEnd(input, first + 1);
    DigitsRun(input, first + 1);
    var s := input[p..a];
    assert (if |s| > 0 && s[0] == '-' then s[1..] else s) == input[first..a];
    assert input[first..a] == [input[first]] + input[first + 1..a];
  }

  /** The fraction part: nothing, or a `.` and digits, running from `a` up to `b`. */
  lemma FractionRun(input: string, p: nat, a: nat) returns (b: nat)
    requires p < a <= |input| && !DigitAt(input, a) && ScanFraction(input, p, a).NumberEnd?
    ensures a <= b <= |input| && FractionPart(input[a..b]) && !DigitAt(input, b)
    ensures ScanFraction(input, p, a) == ScanExponent(input, p, b)
  {
    if CharAt(input, a, '.') {
      b := DigitsEnd(input, a + 1);
      DigitsRun(input, a + 1);
      assert input[a..b][1..] == input[a + 1..b];
    } else {
      b := a;
    }
  }

  /** The exponent part: nothing, or `e`/`E`, an optional sign and digits, ending the number. */
  lemma ExponentRun(input: string, p: nat, b: nat)
    requires p < b <= |input| && !DigitAt(input, b) && ScanExponent(input, p, b).NumberEnd?
    ensures var e := ScanExponent(input, p, b).end; ExponentPart(input[b..e]) && !DigitAt(input, e)
  {
    if CharAt(input, b, 'e') || CharAt(input, b, 'E') {
      var k := if CharAt(input, b + 1, '-') || CharAt(input, b + 1, '+') then b + 2 else b + 1;
      var e := DigitsEnd(input, k + 1);
      DigitsRun(input, k);
      assert DigitsEnd(input, k) == e;
      assert input[b..e][k - b..] == input[k..e];
    }
  }

  /**
   * A number token is an integer part, a fraction part and an exponent part, in that order,
   * and no digit follows it.
   */
  lemma NumberLexeme(input: string, p: nat, l: int, c: int) returns (a: nat, b: nat)
    requires p < |input| && (IsDigit(input[p]) || input[p] == '-') && NumberStep(input, p, l, c).Scanned?
    ensures var r := NumberStep(input, p, l, c); var e := r.next.pos;
      && r.token == Token(NumberVal, input[p..e], l, c) && r.next == LexState(e, l, c + (e - p))
      && p < a <= b <= e <= |input|
      && IntegerPart(input[p..a]) && FractionPart(input[a..b]) && ExponentPart(input[b..e])
      && !DigitAt(input, e)
    ensures a == b ==> !CharAt(input, a, '.')
    ensures var e := NumberStep(input, p, l, c).next.pos;
      b == e ==> !CharAt(input, b, 'e') && !CharAt(input, b, 'E')
  {
    a := IntegerRun(input, p);
    b := FractionRun(input, p, a);
    ExponentRun(input, p, b);
  }

  /** A run of digits from `j` that stops before a non-digit at `a` is where the scan stops. */
  lemma {:induction false} DigitsEndAt(input: string, j: nat, a: nat)
    requires j <= a <= |input| && AllDigits(input[j..a]) && !DigitAt(input, a)
    ensures DigitsEnd(input, j) == a
    decreases a - j
  {
    if j < a {
      assert IsDigit(input[j..a][0]);
      assert input[j + 1..a] == input[j..a][1..];
      DigitsEndAt(input, j + 1, a);
    }
  }

  /** The digits of an integer part: no `00` at their head, and the scan stops after them. */
  lemma {:induction false} IntegerDigits(input: string, first: nat, a: nat)
    requires first < a <= |input| && Digits(input[first..a]) && !DigitAt(input, a)
    requires !(a - first >= 2 && input[first] == '0' && input[first + 1] == '0')
    ensures IsDigit(input[first]) && !(input[first] == '0' && CharAt(input, first + 1, '0'))
    ensures DigitsEnd(input, first + 1) == a
  {
    assert input[first] == input[first..a][0];
    assert input[first + 1..a] == input[first..a][1..];
    DigitsEndAt(input, first + 1, a);
  }

  /** Once the sign and leading-zero checks pass, the integer scan hands over to the fraction scan. */
  lemma ScanIntegerPasses(input: string, p: nat, first: nat)
    requires p < |input| && (IsDigit(input[p]) || input[p] == '-')
    requires first == if input[p] == '-' then p + 1 else p
    requires DigitAt(input, first) && !(input[first] == '0' && CharAt(input, first + 1, '0'))
    ensures ScanInteger(input, p) == ScanFraction(input, p, DigitsEnd(input, first + 1))
  {
    if input[p] == '-' {
      assert DigitAt(input, p + 1);
    }
  }

  /** An integer part of the grammar, not followed by a digit, is what the integer scan reads. */
  lemma {:induction false} IntegerScanEnd(input: string, p: nat, a: nat)
    requires p < a <= |input| && IntegerPart(input[p..a]) && !DigitAt(input, a)
    ensures IsDigit(input[p]) || input[p] == '-'
    ensures ScanInteger(input, p) == ScanFraction(input, p, a)
  {
    var s := input[p..a];
    assert s[0] == input[p];
    var first := if input[p] == '-' then p + 1 else p;
    if input[p] == '-' {
      var d := s[1..];
      assert d == input[p + 1..a];
      if |d| >= 2 {
        assert d[0] == input[p + 1] && d[1] == input[p + 2];
      }
    } else if |s| >= 2 {
      assert s[1] == input[p + 1];
    }
    IntegerDigits(input, first, a);
    ScanIntegerPasses(input, p, first);
  }

  /** A fraction part of the grammar, not followed by a digit, is what the fraction scan reads. */
  lemma {:induction false} FractionScanEnd(input: string, p: nat, a: nat, b: nat)
    requires p < a <= b <= |input| && FractionPart(input[a..b]) && !DigitAt(input, b)
    requires a == b ==> !CharAt(input, a, '.')
    ensures ScanFraction(input, p, a) == ScanExponent(input, p, b)
  {
    if a < b {
      assert input[a] == input[a..b][0];
      assert input[a + 1..b] == input[a..b][1..];
      assert input[a + 1] == input[a..b][1];
      DigitsEndAt(input, a + 1, b);
    }
  }

  /** An exponent part of the grammar, not followed by a digit, is what the exponent scan reads. */
  lemma {:induction false} ExponentScanEnd(input: string, p: nat, b: nat, e: nat)
    requires p < b <= e <= |input| && ExponentPart(input[b..e]) && !DigitAt(input, e)
    requires b == e ==> !CharAt(input, b, 'e') && !CharAt(input, b, 'E')
    ensures ScanExponent(input, p, b) == NumberEnd(e)
  {
    if b < e {
      var s := input[b..e];
      assert input[b] == s[0];
      var k := if CharAt(input, b + 1, '-') || CharAt(input, b + 1, '+') then b + 2 else b + 1;
      var d := if |s| > 1 && (s[1] == '-' || s[1] == '+') then s[2..] else s[1..];
      if |s| > 1 {
        assert input[b + 1] == s[1];
      }
      assert d == input[k..e];
      assert input[k] == d[0];
      assert input[k + 1..e] == d[1..];
      DigitsEndAt(input, k + 1, e);
    }
  }

  /**
   * The converse of NumberLexeme: text made of an integer, a fraction and an exponent part,
   * each read as far as it goes, is lexed as one number token spanning exactly that text.
   */
  lemma {:induction false} NumberAccepted(input: string, p: nat, a: nat, b: nat, e: nat, l: int, c: int)
    requires p < a <= b <= e <= |input|
    requires IntegerPart(input[p..a]) && FractionPart(input[a..b]) && ExponentPart(input[b..e])
    requires !DigitAt(input, e)
    requires a == b ==> !CharAt(input, a, '.')
    requires b == e ==> !CharAt(input, b, 'e') && !CharAt(input, b, 'E')
    ensures IsDigit(input[p]) || input[p] == '-'
    ensures NumberStep(input, p, l, c) == Scanned(Token(NumberVal, input[p..e], l, c), LexState(e, l, c + (e - p)))
  {
    if b < e {
      assert input[b] == input[b..e][0];
    }
    if a < b {
      assert input[a] == input[a..b][0];
    }
    IntegerScanEnd(input, p, a);
    FractionScanEnd(input, p, a, b);
    ExponentScanEnd(input, p, b, e);
  }

  /** The two error cases at the head of a number, with the messages the lexer raises. */
  lemma NumberHeadErrors(input: string, p: nat, l: int, c: int)
    requires p < |input| && (IsDigit(input[p]) || input[p] == '-')
    ensures input[p] == '-' && !DigitAt(input, p + 1) ==>
      NumberStep(input, p, l, c) == LexFailed(LexError("Invalid token,", l, c))
    ensures var first := if input[p] == '-' then p + 1 else p;
      DigitAt(input, first) && input[first] == '0' && CharAt(input, first + 1, '0') ==>
      NumberStep(input, p, l, c) == LexFailed(LexError("Invalid token: leading 0's are not allowed,", l, c))
  {
  }

  /** How many newlines `s` holds. */
  function Newlines(s: string): (n: nat)
    ensures n <= |s|
  {
    if |s| == 0 then 0 else (if s[0] == '\n' then 1 else 0) + Newlines(s[1..])
  }

  /** The whitespace loop moves the line down by the number of newlines it skips. */
  lemma {:induction false} SkipSpaceLine(input: string, s: LexState)
    requires s.pos <= |input|
    ensures SkipSpace(input, s).line == s.line + Newlines(input[s.pos..SkipSpace(input, s).pos])
    decreases |input| - s.pos
  {
    if s.pos < |input| && IsSpace(input[s.pos]) {
      var next := if input[s.pos] == '\n' then LexState(s.pos + 1, s.line + 1, 1)
                  else LexState(s.pos + 1, s.line, s.column + 1);
      SkipSpaceLine(input, next);
      var e := SkipSpace(input, s).pos;
      assert input[s.pos..e][1..] == input[s.pos + 1..e];
    }
  }

  /**
   * After the whitespace loop the column counts the characters skipped since the last
   * newline among them, from 1, or has moved right by all of them if there is none.
   */
  lemma {:induction false} SkipSpaceColumn(input: string, s: LexState) returns (last: int)
    requires s.pos <= |input|
    ensures var r := SkipSpace(input, s);
      && s.pos - 1 <= last < r.pos && (forall k :: last < k < r.pos ==> input[k] != '\n')
      && (last >= s.pos ==> input[last] == '\n' && r.column == r.pos - last)
      && (last < s.pos ==> r.column == s.column + (r.pos - s.pos))
    decreases |input| - s.pos
  {
    last := s.pos - 1;
    if s.pos < |input| && IsSpace(input[s.pos]) {
      var next := if input[s.pos] == '\n' then LexState(s.pos + 1, s.line + 1, 1)
                  else LexState(s.pos + 1, s.line, s.column + 1);
      var last' := SkipSpaceColumn(input, next);
      if last' >= s.pos + 1 || input[s.pos] == '\n' {
        last := last';
      }
    }
  }

  /** Skipping whitespace from a position on line 1 or below, column 1 or right, stays there. */
  lemma {:induction false} SkipSpaceFromOne(input: string, s: LexState)
    requires s.pos <= |input| && s.line >= 1 && s.column >= 1
    ensures SkipSpace(input, s).line >= 1 && SkipSpace(input, s).column >= 1
    decreases |input| - s.pos
  {
    if s.pos < |input| && IsSpace(input[s.pos]) {
      var next := if input[s.pos] == '\n' then LexState(s.pos + 1, s.line + 1, 1)
                  else LexState(s.pos + 1, s.line, s.column + 1);
      SkipSpaceFromOne(input, next);
    }
  }

  /**
   * Lines and columns count from 1: every token and every lexical error of a stream started
   * at such a position, as Tokenize starts at line 1, column 1, has a line and a column of at
   * least 1. Only the default token has line 0 and column 0.
   */
  lemma {:induction false} PositionsFromOne(input: string, s: LexState)
    requires s.pos <= |input| && s.line >= 1 && s.column >= 1
    ensures var ts := TokenizeFrom(input, s);
      && (forall k :: 0 <= k < |ts.tokens| ==> ts.tokens[k].line >= 1 && ts.tokens[k].column >= 1)
      && (ts.failure.Some? ==> ts.failure.value.Positioned? && ts.failure.value.line >= 1 && ts.failure.value.column >= 1)
    decreases |input| - s.pos
  {
    SkipSpaceFromOne(input, s);
    match Step(input, s)
    case LexFailed(_) =>
    case Scanned(t, next) =>
      if t.tokenType != Eos {
        PositionsFromOne(input, next);
        var rest := TokenizeFrom(input, next).tokens;
        assert forall k :: 1 <= k < |[t] + rest| ==> ([t] + rest)[k] == rest[k - 1];
      }
  }

  /**
   * Once next_token returns EOS it stands at the end of the input, and every further call
   * returns EOS again, with an empty lexeme, one column further right.
   */
  lemma EosRepeats(input: string, s: LexState)
    requires s.pos <= |input| && Step(input, s).Scanned? && Step(input, s).token.tokenType == Eos
    ensures var n := Step(input, s).next;
      && n.pos == |input| && Step(input, s).token.lexeme == ""
      && Step(input, n) == Scanned(Token(Eos, "", n.line, n.column), LexState(|input|, n.line, n.column + 1))
  {
  }

  /** Each structural character is a token of its own type whose lexeme is that character. */
  lemma StructuralToken(input: string, t: LexState)
    requires t.pos < |input| && StructuralType(input[t.pos]).Some?
    ensures ScanAt(input, t) ==
      Scanned(Token(StructuralType(input[t.pos]).value, [input[t.pos]], t.line, t.column),
              LexState(t.pos + 1, t.line, t.column + 1))
    ensures StructuralType(input[t.pos]).value != Eos
    ensures IsStructural(StructuralType(input[t.pos]).value)
  {
  }

  /**
   * `t`, `f` and `n` start a literal token exactly when the whole word follows, and the
   * lexer then moves past the word.
   */
  lemma LiteralExact(input: string, t: LexState, word: string)
    requires t.pos < |input| && word in {"true", "false", "null"} && input[t.pos] == word[0]
    ensures var r := ScanAt(input, t);
      && (r.Scanned? <==> t.pos + |word| <= |input| && input[t.pos..t.pos + |word|] == word)
      && (r.Scanned? ==> r == Scanned(Token(LiteralVal, word, t.line, t.column),
                                      LexState(t.pos + |word|, t.line, t.column + |word|)))
      && (r.LexFailed? ==> r.error == LexError("Invalid token '\"" + [word[0]] + "'", t.line, t.column))
  {
  }

  /** Any other character is an invalid token. */
  lemma OtherCharacter(input: string, t: LexState)
    requires t.pos < |input|
    requires StructuralType(input[t.pos]).None? && input[t.pos] !in "\"-tfn" && !IsDigit(input[t.pos])
    ensures ScanAt(input, t) == LexFailed(LexError("Invalid token '\"" + [input[t.pos]] + "'", t.line, t.column))
  {
  }

  /** `01` is one number token: only two zeros in a row are refused. */
  lemma LeadingZeroAccepted()
    ensures Step("01", Start) == Scanned(Token(NumberVal, "01", 1, 1), LexState(2, 1, 3))
  {
    assert SkipSpace("01", Start) == Start;
    assert DigitsEnd("01", 1) == 2;
  }

  /** `00` is refused with the leading-zero message. */
  lemma DoubleZeroRefused()
    ensures Step("00", Start) == LexFailed(LexError("Invalid token: leading 0's are not allowed,", 1, 1))
  {
    assert SkipSpace("00", Start) == Start;
  }

  /** A `.` after the integer part must be followed by a digit; otherwise the number is refused. */
  lemma {:induction false} FractionDigitRequired(input: string, p: nat, a: nat, l: int, c: int)
    requires p < a < |input| && IntegerPart(input[p..a]) && input[a] == '.' && !DigitAt(input, a + 1)
    ensures IsDigit(input[p]) || input[p] == '-'
    ensures NumberStep(input, p, l, c) == LexFailed(LexError(
      "Invalid token: '" + input[p..a + 1] + "': double values must have at least one trailing digit,", l, c))
  {
    IntegerScanEnd(input, p, a);
  }

  /**
   * An `e` or `E` after the integer and fraction parts, and its optional sign, must be
   * followed by a digit; otherwise the number is refused with what was read in the message.
   */
  lemma {:induction false} ExponentDigitRequired(input: string, p: nat, a: nat, b: nat, k: nat, l: int, c: int)
    requires p < a <= b < |input| && IntegerPart(input[p..a]) && FractionPart(input[a..b])
    requires input[b] == 'e' || input[b] == 'E'
    requires k == if CharAt(input, b + 1, '-') || CharAt(input, b + 1, '+') then b + 2 else b + 1
    requires !DigitAt(input, k)
    ensures IsDigit(input[p]) || input[p] == '-'
    ensures NumberStep(input, p, l, c) == LexFailed(LexError("Invalid token: '" + input[p..k] + "':", l, c))
  {
    if a < b {
      assert input[a] == input[a..b][0];
    }
    IntegerScanEnd(input, p, a);
    FractionScanEnd(input, p, a, b);
  }

  /** A minus without a digit after it is refused. */
  lemma MinusDigitRequired()
    ensures Step("-x", Start) == LexFailed(LexError("Invalid token,", 1, 1))
  {
    assert SkipSpace("-x", Start) == Start;
  }
}
