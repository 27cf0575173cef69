/**
 * What the lexer of lib/core/lexer.cpp computes, as functions of the input text and the
 * lexer position: the reference the imperative Lexer class is proved against.
 */
module LexerSpec {
  import opened Outcomes
  import opened Text
  import opened Tokens
  import opened JsonErrors

  /** `isspace` in the C locale: space, \t, \n, \v, \f, \r. */
  predicate IsSpace(c: char) {
    c == ' ' || c == '\t' || c == '\n' || c == '\r' || c as int == 0x0B || c as int == 0x0C
  }

  predicate CharAt(input: string, i: nat, c: char) {
    i < |input| && input[i] == c
  }

  predicate DigitAt(input: string, i: nat) {
    i < |input| && IsDigit(input[i])
  }

  /** The lexer's mutable state: stream position, 1-based line and column. */
  datatype LexState = LexState(pos: nat, line: int, column: int)

  const Start: LexState := LexState(0, 1, 1)

  /**
   * The whitespace loop: a skipped newline starts the next line at column 1, any other
   * skipped whitespace moves one column right. Stops at the first non-space or the end.
   */
  function SkipSpace(input: string, s: LexState): (r: LexState)
    requires s.pos <= |input|
    ensures s.pos <= r.pos <= |input|
    ensures forall k :: s.pos <= k < r.pos ==> IsSpace(input[k])
    ensures r.pos == |input| || !IsSpace(input[r.pos])
    decreases |input| - s.pos
  {
    if s.pos < |input| && IsSpace(input[s.pos]) then
      var next := if input[s.pos] == '\n' then LexState(s.pos + 1, s.line + 1, 1)
                  else LexState(s.pos + 1, s.line, s.column + 1);
      SkipSpace(input, next)
    else
      s
  }

  function LexError(message: string, line: int, column: int): JsonError {
    Positioned(LexerError, message, line, column)
  }

  /** One call of next_token: the token and the state after it, or the error it raises. */
  datatype LexStep = Scanned(token: Token, next: LexState) | LexFailed(error: JsonError)

  /** Where a string body that starts at `j` ends: its closing quote, or the failing read. */
  datatype StringScan = Closed(end: nat) | Unterminated(at: nat)

  function StringEnd(input: string, j: nat): (r: StringScan)
    requires j <= |input|
    ensures r.Closed? ==> j <= r.end < |input| && input[r.end] == '"'
    ensures r.Unterminated? ==> j <= r.at <= |input| && (r.at == |input| || input[r.at] == '\n')
    decreases |input| - j
  {
    if CharAt(input, j, '"') then Closed(j)
    else if j == |input| || input[j] == '\n' then Unterminated(j)
    else if input[j] == '\\' then
      if j + 1 == |input| || input[j + 1] == '\n' then Unterminated(j + 1)
      else StringEnd(input, j + 2)
    else StringEnd(input, j + 1)
  }

  /** A string token whose opening quote is at `p`. */
  function StringStep(input: string, p: nat, l: int, c: int): LexStep
    requires p < |input| && input[p] == '"'
  {
    match StringEnd(input, p + 1)
    case Closed(e) =>
      Scanned(Token(StringVal, input[p + 1..e], l, c), LexState(e + 1, l, c + (e + 1 - p)))
    case Unterminated(k) =>
      LexFailed(LexError("Invalid token '\"" + input[p + 1..k]
        + "': string values require an opening and closing quotation mark,", l, c))
  }

  /** The end of the run of digits starting at `j`. */
  function DigitsEnd(input: string, j: nat): (k: nat)
    requires j <= |input|
    ensures j <= k <= |input| && !DigitAt(input, k)
    ensures forall m :: j <= m < k ==> IsDigit(input[m])
    decreases |input| - j
  {
    if DigitAt(input, j) then DigitsEnd(input, j + 1) else j
  }

  /** Where a number that starts at `p` ends, or the message of the error it raises. */
  datatype NumberScan = NumberEnd(end: nat) | NumberError(message: string)

  /** Optional minus, then the integer digits; only `0` followed by `0` is refused. */
  function ScanInteger(input: string, p: nat): (r: NumberScan)
    requires p < |input| && (IsDigit(input[p]) || input[p] == '-')
    ensures r.NumberEnd? ==> p < r.end <= |input|
  {
    if input[p] == '-' && !DigitAt(input, p + 1) then NumberError("Invalid token,")
    else
      var first := if input[p] == '-' then p + 1 else p;
      if input[first] == '0' && CharAt(input, first + 1, '0') then
        NumberError("Invalid token: leading 0's are not allowed,")
      else
        ScanFraction(input, p, DigitsEnd(input, first + 1))
  }

  /** An optional `.` that must be followed by at least one digit. */
  function ScanFraction(input: string, p: nat, j: nat): (r: NumberScan)
    requires p < j <= |input|
    ensures r.NumberEnd? ==> j <= r.end <= |input|
  {
    if CharAt(input, j, '.') then
      if !DigitAt(input, j + 1) then
        NumberError("Invalid token: '" + input[p..j + 1]
          + "': double values must have at least one trailing digit,")
      else
        ScanExponent(input, p, DigitsEnd(input, j + 1))
    else
      ScanExponent(input, p, j)
  }

  /** An optional `e`/`E`, an optional sign, then at least one digit. */
  function ScanExponent(input: string, p: nat, j: nat): (r: NumberScan)
    requires p < j <= |input|
    ensures r.NumberEnd? ==> j <= r.end <= |input|
  {
    if CharAt(input, j, 'e') || CharAt(input, j, 'E') then
      var k := if CharAt(input, j + 1, '-') || CharAt(input, j + 1, '+') then j + 2 else j + 1;
      if !DigitAt(input, k) then NumberError("Invalid token: '" + input[p..k] + "':")
      else NumberEnd(DigitsEnd(input, k + 1))
    else
      NumberEnd(j)
  }

  /** A number token whose first character (a digit or `-`) is at `p`. */
  function NumberStep(input: string, p: nat, l: int, c: int): LexStep
    requires p < |input| && (IsDigit(input[p]) || input[p] == '-')
  {
    NumberToken(input, p, ScanInteger(input, p), l, c)
  }

  /** The token, or the error, that a number scan from `p` leads to. */
  function NumberToken(input: string, p: nat, scan: NumberScan, l: int, c: int): LexStep
    requires scan.NumberEnd? ==> p <= scan.end <= |input|
  {
    match scan
    case NumberEnd(e) => Scanned(Token(NumberVal, input[p..e], l, c), LexState(e, l, c + (e - p)))
    case NumberError(m) => LexFailed(LexError(m, l, c))
  }

  /** `true`, `false` or `null`, recognised by comparing the next characters with `word`. */
  function LiteralStep(input: string, p: nat, l: int, c: int, word: string): LexStep
    requires p < |input| && |word| > 0
  {
    if p + |word| <= |input| && input[p..p + |word|] == word then
      Scanned(Token(LiteralVal, word, l, c), LexState(p + |word|, l, c + |word|))
    else
      LexFailed(LexError("Invalid token '\"" + [input[p]] + "'", l, c))
  }

  function StructuralType(ch: char): Option<TokenType> {
    if ch == '{' then Some(LBrace)
    else if ch == '}' then Some(RBrace)
    else if ch == '[' then Some(LBracket)
    else if ch == ']' then Some(RBracket)
    else if ch == ':' then Some(Colon)
    else if ch == ',' then Some(Comma)
    else None
  }

  /** The token that starts at `t`, a position where no whitespace remains to skip. */
  function ScanAt(input: string, t: LexState): (r: LexStep)
    requires t.pos <= |input|
    ensures r.Scanned? ==> t.pos <= r.next.pos <= |input|
    ensures r.Scanned? ==> (r.token.tokenType == Eos <==> r.next.pos == t.pos)
    ensures r.Scanned? && r.token.tokenType == Eos ==> t.pos == |input|
    ensures r.Scanned? ==> r.token.line == t.line && r.token.column == t.column
    ensures r.LexFailed? ==> r.error == Positioned(LexerError, r.error.message, t.line, t.column)
    ensures r.Scanned? ==> r.next.line == t.line
    ensures r.Scanned? && r.token.tokenType != Eos ==> r.next.column == t.column + (r.next.pos - t.pos)
    ensures r.Scanned? && r.token.tokenType == Eos ==> r.token.lexeme == "" && r.next.column == t.column + 1
  {
    var p, l, c := t.pos, t.line, t.column;
    if p == |input| then
      Scanned(Token(Eos, "", l, c), LexState(p, l, c + 1))
    else
      var ch := input[p];
      if StructuralType(ch).Some? then
        Scanned(Token(StructuralType(ch).value, [ch], l, c), LexState(p + 1, l, c + 1))
      else if ch == '"' then StringStep(input, p, l, c)
      else if IsDigit(ch) || ch == '-' then NumberStep(input, p, l, c)
      else if ch == 't' then LiteralStep(input, p, l, c, "true")
      else if ch == 'f' then LiteralStep(input, p, l, c, "false")
      else if ch == 'n' then LiteralStep(input, p, l, c, "null")
      else LexFailed(LexError("Invalid token '\"" + [ch] + "'", l, c))
  }

  /** next_token: skip whitespace, then scan one token from there. */
  function Step(input: string, s: LexState): (r: LexStep)
    requires s.pos <= |input|
    ensures r.Scanned? ==> s.pos <= r.next.pos <= |input|
    ensures r.Scanned? && r.token.tokenType != Eos ==> s.pos < r.next.pos
    ensures r.Scanned? ==> r.token.line == SkipSpace(input, s).line && r.token.column == SkipSpace(input, s).column
    ensures r.LexFailed? ==> r.error.Positioned? && r.error.kind == LexerError
    ensures r.LexFailed? ==> r.error.line == SkipSpace(input, s).line && r.error.column == SkipSpace(input, s).column
  {
    ScanAt(input, SkipSpace(input, s))
  }

  /**
   * The tokens the lexer hands out, in order, up to and including EOS, or up to its first
   * lexical error, which is then recorded as `failure`.
   */
  datatype TokenStream = TokenStream(tokens: seq<Token>, failure: Option<JsonError>)

  /** EOS ends every stream that did not fail, and appears nowhere else. */
  predicate ValidStream(ts: TokenStream) {
    && (ts.failure.None? ==> |ts.tokens| > 0 && ts.tokens[|ts.tokens| - 1].tokenType == Eos)
    && (forall k :: 0 <= k < |ts.tokens| && ts.tokens[k].tokenType == Eos ==>
          k == |ts.tokens| - 1 && ts.failure.None?)
  }

  /** Calls next_token from `s` until it returns EOS or raises an error. */
  function TokenizeFrom(input: string, s: LexState): (ts: TokenStream)
    requires s.pos <= |input|
    ensures ValidStream(ts)
    decreases |input| - s.pos
  {
    match Step(input, s)
    case LexFailed(e) => TokenStream([], Some(e))
    case Scanned(t, next) =>
      if t.tokenType == Eos then TokenStream([t], None)
      else
        var rest := TokenizeFrom(input, next);
        TokenStream([t] + rest.tokens, rest.failure)
  }

  /** The token stream of a whole input, starting at line 1, column 1. */
  function Tokenize(input: string): (ts: TokenStream)
    ensures ValidStream(ts)
  {
    TokenizeFrom(input, Start)
  }

  /**
   * The lexer states next_token is called from while a stream is produced: one per token,
   * and one more for the call that raised the error, if any.
   */
  function TraceFrom(input: string, s: LexState): (trace: seq<LexState>)
    requires s.pos <= |input|
    ensures |trace| > 0 && trace[0] == s
    ensures |trace| == |TokenizeFrom(input, s).tokens| + if TokenizeFrom(input, s).failure.Some? then 1 else 0
    decreases |input| - s.pos
  {
    match Step(input, s)
    case LexFailed(_) => [s]
    case Scanned(t, next) => if t.tokenType == Eos then [s] else [s] + TraceFrom(input, next)
  }

  /** The k-th state of a trace; it names the trigger under which Pulls is used. */
  function Resume(trace: seq<LexState>, k: nat): LexState
    requires k < |trace|
  {
    trace[k]
  }

  /**
   * The call from the k-th state gives the k-th token and leads to the next state (to the
   * end of input after EOS), or raises the stream's error.
   */
  ghost predicate PullsAt(input: string, trace: seq<LexState>, ts: TokenStream, k: nat)
    requires k < |trace|
  {
    var s := Resume(trace, k);
    s.pos <= |input| &&
    var step := Step(input, s);
    if k < |ts.tokens| then
      && step.Scanned? && step.token == ts.tokens[k]
      && if k + 1 < |trace| then step.next == trace[k + 1] else step.next.pos == |input|
    else
      ts.failure.Some? && step == LexFailed(ts.failure.value)
  }

  /** Every call recorded in the trace behaves as PullsAt says. */
  ghost predicate Pulls(input: string, trace: seq<LexState>, ts: TokenStream) {
    forall k {:trigger Resume(trace, k)} :: 0 <= k < |trace| ==> PullsAt(input, trace, ts, k)
  }

  /** The trace of a stream accounts for each of its tokens and for its error. */
  lemma {:induction false} TracePulls(input: string, s: LexState)
    requires s.pos <= |input|
    ensures Pulls(input, TraceFrom(input, s), TokenizeFrom(input, s))
    decreases |input| - s.pos
  {
    var trace, ts := TraceFrom(input, s), TokenizeFrom(input, s);
    match Step(input, s)
    case LexFailed(e) =>
      assert PullsAt(input, trace, ts, 0);
    case Scanned(t, next) =>
      if t.tokenType == Eos {
        assert PullsAt(input, trace, ts, 0);
      } else {
        var trace', ts' := TraceFrom(input, next), TokenizeFrom(input, next);
        TracePulls(input, next);
        forall k | 0 <= k < |trace|
          ensures PullsAt(input, trace, ts, k)
        {
          if k > 0 {
            assert Resume(trace, k) == Resume(trace', k - 1);
            assert PullsAt(input, trace', ts', k - 1);
          }
        }
      }
  }
}
