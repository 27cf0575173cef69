/** The Lexer class of lib/core/lexer.cpp: a scanner over a character stream. */
module Lexing {
  import opened Outcomes
  import opened Text
  import opened Tokens
  import opened JsonErrors
  import opened LexerSpec

  /** The outcome of a call agrees with one step of the specification. */
  ghost predicate Agrees(step: LexStep, r: Result<Token, JsonError>, after: LexState) {
    match step
    case Scanned(t, n) => r == Success(t) && after == n
    case LexFailed(e) => r == Failure(e)
  }

  /** The exponent of a number whose `e` or `E` is at `j`, and whose digits start at `k`. */
  lemma ExponentScan(input: string, p: nat, j: nat, k: nat)
    requires p < j < |input| && (input[j] == 'e' || input[j] == 'E')
    requires k == if CharAt(input, j + 1, '-') || CharAt(input, j + 1, '+') then j + 2 else j + 1
    ensures !DigitAt(input, k) ==> ScanExponent(input, p, j) == NumberError("Invalid token: '" + input[p..k] + "':")
    ensures DigitAt(input, k) ==> ScanExponent(input, p, j) == NumberEnd(DigitsEnd(input, k + 1))
  {
  }

  /** A slice and the character after it make one slice. */
  lemma SliceSnoc(s: string, a: nat, b: nat)
    requires a <= b < |s|
    ensures s[a..b + 1] == s[a..b] + [s[b]]
  {
  }

  class Lexer {
    /** The whole input stream; `pos` is how much of it has been read. */
    const input: string
    var pos: nat
    var line: int
    var column: int

    ghost predicate Valid()
      reads this
    {
      pos <= |input|
    }

    ghost function State(): LexState
      reads this
    {
      LexState(pos, line, column)
    }

    constructor (input: string)
      ensures Valid() && this.input == input && State() == Start
    {
      this.input := input;
      pos, line, column := 0, 1, 1;
    }

    /** The copy the parser keeps of the lexer it is given. */
    constructor Copy(other: Lexer)
      requires other.Valid()
      ensures Valid() && input == other.input && State() == other.State()
    {
      input := other.input;
      pos, line, column := other.pos, other.line, other.column;
    }

    /** istream::peek: the next character without consuming it, None at the end. */
    function Peek(): (c: Option<char>)
      reads this
      requires Valid()
    {
      if pos < |input| then Some(input[pos]) else None
    }

    /** istream::get: consumes one character; the column is not touched. */
    method Read() returns (c: Option<char>)
      requires Valid()
      modifies this`pos
      ensures Valid() && c == old(Peek())
      ensures pos == if old(pos) < |input| then old(pos) + 1 else old(pos)
    {
      c := Peek();
      if pos < |input| {
        pos := pos + 1;
      }
    }

    /** readNextChar: consumes one character and moves one column right, even at the end. */
    method ReadNextChar() returns (c: Option<char>)
      requires Valid()
      modifies this`pos, this`column
      ensures Valid() && c == old(Peek()) && column == old(column) + 1
      ensures pos == if old(pos) < |input| then old(pos) + 1 else old(pos)
    {
      column := column + 1;
      c := Read();
    }

    /**
     * read_u32(n) for n <= 4: reads n characters (fewer at the end of input) and moves n
     * columns right. The characters are returned as text rather than packed into an int.
     */
    method ReadWord(n: nat) returns (w: string)
      requires Valid()
      modifies this`pos, this`column
      ensures Valid() && column == old(column) + n
      ensures pos == if old(pos) + n <= |input| then old(pos) + n else |input|
      ensures w == input[old(pos)..pos]
    {
      var end := if pos + n <= |input| then pos + n else |input|;
      w := input[pos..end];
      pos := end;
      column := column + n;
    }

    /** The whitespace loop at the head of next_token. */
    method SkipWhitespace()
      requires Valid()
      modifies this`pos, this`line, this`column
      ensures Valid() && State() == SkipSpace(input, old(State()))
    {
      while Peek().Some? && IsSpace(Peek().value)
        invariant Valid()
        invariant SkipSpace(input, State()) == SkipSpace(input, old(State()))
        decreases |input| - pos
      {
        var c := Read();
        if c == Some('\n') {
          line := line + 1;
          column := 1;
        } else {
          column := column + 1;
        }
      }
    }

    /** next_token: the next token, or the lexical error at its first character. */
    method NextToken() returns (r: Result<Token, JsonError>)
      requires Valid()
      modifies this`pos, this`line, this`column
      ensures Valid()
      ensures Agrees(Step(input, old(State())), r, State())
    {
      SkipWhitespace();
      var startLine, startColumn := line, column;
      var next := ReadNextChar();
      if next.None? {
        return Success(Token(Eos, "", startLine, startColumn));
      }
      var ch := next.value;
      var lexeme := [ch];
      if ch == '{' {
        r := Success(Token(LBrace, "{", startLine, startColumn));
      } else if ch == '}' {
        r := Success(Token(RBrace, "}", startLine, startColumn));
      } else if ch == '[' {
        r := Success(Token(LBracket, "[", startLine, startColumn));
      } else if ch == ']' {
        r := Success(Token(RBracket, "]", startLine, startColumn));
      } else if ch == ':' {
        r := Success(Token(Colon, ":", startLine, startColumn));
      } else if ch == ',' {
        r := Success(Token(Comma, ",", startLine, startColumn));
      } else if ch == '"' {
        r := LexString(startLine, startColumn);
      } else if IsDigit(ch) || ch == '-' {
        r := LexNumber(ch, startLine, startColumn);
      } else if ch == 't' {
        r := LexLiteral("true", startLine, startColumn);
      } else if ch == 'f' {
        r := LexLiteral("false", startLine, startColumn);
      } else if ch == 'n' {
        r := LexLiteral("null", startLine, startColumn);
      } else {
        r := Failure(LexError("Invalid token '\"" + lexeme + "'", startLine, startColumn));
      }
    }

    /** The string case of next_token, entered just after the opening quote. */
    method LexString(l: int, c: int) returns (r: Result<Token, JsonError>)
      requires Valid() && 0 < pos && input[pos - 1] == '"' && line == l && column == c + 1
      modifies this`pos, this`column
      ensures Valid()
      ensures Agrees(StringStep(input, old(pos) - 1, l, c), r, State())
    {
      ghost var p := pos - 1;
      var lexeme := "";
      while Peek() != Some('"')
        invariant Valid() && p < pos && line == l && column == c + (pos - p)
        invariant lexeme == input[p + 1..pos]
        invariant StringEnd(input, pos) == StringEnd(input, p + 1)
        decreases |input| - pos
      {
        var ok;
        lexeme, ok := ReadStringUnit(p, lexeme);
        if !ok {
          return Failure(LexError("Invalid token '\"" + lexeme
            + "': string values require an opening and closing quotation mark,", l, c));
        }
      }
      var _ := ReadNextChar();
      r := Success(Token(StringVal, lexeme, l, c));
    }

    /**
     * One turn of the string loop, appending to `lexeme`: a character, or a backslash with
     * the character it escapes, both kept verbatim; `ok` is false when the end of input or a
     * newline is read.
     */
    method ReadStringUnit(ghost p: nat, lexeme: string) returns (lexeme': string, ok: bool)
      requires Valid() && p < pos && lexeme == input[p + 1..pos] && Peek() != Some('"')
      modifies this`pos, this`column
      ensures Valid() && p + 1 + |lexeme'| <= |input| && lexeme' == input[p + 1..p + 1 + |lexeme'|]
      ensures ok ==> pos == p + 1 + |lexeme'| > old(pos) && column == old(column) + (pos - old(pos))
      ensures ok ==> StringEnd(input, old(pos)) == StringEnd(input, pos)
      ensures !ok ==> StringEnd(input, old(pos)) == Unterminated(p + 1 + |lexeme'|)
    {
      ghost var q := pos;
      lexeme' := lexeme;
      var next := ReadNextChar();
      if next == Some('\\') {
        SliceSnoc(input, p + 1, q);
        lexeme' := lexeme' + ['\\'];
        next := ReadNextChar();
      }
      if next.None? || next.value == '\n' {
        assert |lexeme'| == |lexeme| ==> q == |input| || input[q] == '\n';
        return lexeme', false;
      }
      SliceSnoc(input, p + 1, pos - 1);
      lexeme' := lexeme' + [next.value];
      ok := true;
    }

    /** A run of digits, as the `while(isdigit(peek()))` loops of next_token read it. */
    method LexDigits(ghost p: nat, lexeme: string, l: int, c: int) returns (lexeme': string)
      requires Valid() && p < pos && lexeme == input[p..pos] && line == l && column == c + (pos - p)
      modifies this`pos, this`column
      ensures Valid() && pos == DigitsEnd(input, old(pos))
      ensures lexeme' == input[p..pos] && line == l && column == c + (pos - p)
    {
      lexeme' := lexeme;
      while Peek().Some? && IsDigit(Peek().value)
        invariant Valid() && old(pos) <= pos && lexeme' == input[p..pos] && column == c + (pos - p)
        invariant DigitsEnd(input, pos) == DigitsEnd(input, old(pos))
        decreases |input| - pos
      {
        var next := ReadNextChar();
        lexeme' := lexeme' + [next.value];
      }
    }

    /** The number case of next_token, entered just after its first character `first`. */
    method LexNumber(first: char, l: int, c: int) returns (r: Result<Token, JsonError>)
      requires Valid() && 0 < pos && input[pos - 1] == first && (IsDigit(first) || first == '-')
      requires line == l && column == c + 1
      modifies this`pos, this`column
      ensures Valid()
      ensures Agrees(NumberStep(input, old(pos) - 1, l, c), r, State())
    {
      ghost var p := pos - 1;
      var lexeme := [first];
      var nextChar := first;
      if nextChar == '-' {
        var next := ReadNextChar();
        if !(next.Some? && IsDigit(next.value)) {
          return Failure(LexError("Invalid token,", l, c));
        }
        nextChar := next.value;
        lexeme := lexeme + [nextChar];
      }
      var leadingZero := nextChar == '0';
      if leadingZero && Peek() == Some('0') {
        return Failure(LexError("Invalid token: leading 0's are not allowed,", l, c));
      }
      lexeme := LexDigits(p, lexeme, l, c);
      assert ScanInteger(input, p) == ScanFraction(input, p, pos);
      r := LexFraction(p, lexeme, l, c);
    }

    /** The `.` part of the number case; `lexeme` is what has been read since `p`. */
    method LexFraction(ghost p: nat, lexeme: string, l: int, c: int) returns (r: Result<Token, JsonError>)
      requires Valid() && p < pos && lexeme == input[p..pos] && line == l && column == c + (pos - p)
      modifies this`pos, this`column
      ensures Valid()
      ensures Agrees(NumberToken(input, p, ScanFraction(input, p, old(pos)), l, c), r, State())
    {
      var lexeme := lexeme;
      if Peek() == Some('.') {
        var _ := ReadNextChar();
        lexeme := lexeme + ['.'];
        assert lexeme == input[p..pos];
        if !(Peek().Some? && IsDigit(Peek().value)) {
          return Failure(LexError("Invalid token: '" + lexeme
            + "': double values must have at least one trailing digit,", l, c));
        }
        lexeme := LexDigits(p, lexeme, l, c);
      }
      r := LexExponent(p, lexeme, l, c);
    }

    /**
     * The optional sign after an `e` or `E`: consumed with the character after it, which is
     * returned; `lexeme` is what has been read since `p`.
     */
    method ReadExponentSign(ghost p: nat, lexeme: string, ghost c: int) returns (lexeme': string, next: Option<char>)
      requires Valid() && p < pos && lexeme == input[p..pos] && column == c + (pos - p)
      modifies this`pos, this`column
      ensures Valid()
      ensures var k := if CharAt(input, old(pos), '-') || CharAt(input, old(pos), '+') then old(pos) + 1 else old(pos);
        lexeme' == input[p..k] && next == (if k < |input| then Some(input[k]) else None) &&
        (k < |input| ==> pos == k + 1 && column == c + (pos - p))
    {
      lexeme' := lexeme;
      next := ReadNextChar();
      if next == Some('-') || next == Some('+') {
        SliceSnoc(input, p, pos - 1);
        lexeme' := lexeme' + [next.value];
        next := ReadNextChar();
      }
    }

    /** The exponent part of the number case; `lexeme` is what has been read since `p`. */
    method LexExponent(ghost p: nat, lexeme: string, l: int, c: int) returns (r: Result<Token, JsonError>)
      requires Valid() && p < pos && lexeme == input[p..pos] && line == l && column == c + (pos - p)
      modifies this`pos, this`column
      ensures Valid()
      ensures Agrees(NumberToken(input, p, ScanExponent(input, p, old(pos)), l, c), r, State())
    {
      var lexeme := lexeme;
      if Peek() == Some('e') || Peek() == Some('E') {
        ghost var j := pos;
        var next := ReadNextChar();
        SliceSnoc(input, p, j);
        lexeme := lexeme + [next.value];
        lexeme, next := ReadExponentSign(p, lexeme, c);
        ghost var k := if CharAt(input, j + 1, '-') || CharAt(input, j + 1, '+') then j + 2 else j + 1;
        ExponentScan(input, p, j, k);
        if !(next.Some? && IsDigit(next.value)) {
          return Failure(LexError("Invalid token: '" + lexeme + "':", l, c));
        }
        SliceSnoc(input, p, k);
        lexeme := lexeme + [next.value];
        lexeme := LexDigits(p, lexeme, l, c);
      }
      r := Success(Token(NumberVal, lexeme, l, c));
    }

    /** The `t`/`f`/`n` cases of next_token: the rest of `word` must follow verbatim. */
    method LexLiteral(word: string, l: int, c: int) returns (r: Result<Token, JsonError>)
      requires Valid() && 0 < pos && |word| > 0 && input[pos - 1] == word[0]
      requires line == l && column == c + 1
      modifies this`pos, this`column
      ensures Valid()
      ensures Agrees(LiteralStep(input, old(pos) - 1, l, c, word), r, State())
    {
      ghost var p := pos - 1;
      var rest := ReadWord(|word| - 1);
      if rest != word[1..] {
        return Failure(LexError("Invalid token '\"" + [word[0]] + "'", l, c));
      }
      assert input[p..p + |word|] == [input[p]] + rest;
      r := Success(Token(LiteralVal, word, l, c));
    }
  }
}
