# libwjson in Dafny

A model of the core of libwjson, a small C++ JSON library, and of its two printers. It covers
the token type and token record, the hand-written `Lexer`, the syntax tree and its
`first_token`, the recursive-descent `Parser`, the error record and its text, and the two
visitors that print a tree: the compact printer (no whitespace) and the pretty printer
(indented, one line per member).

Layout:

- `tokens.dfy`, `text.dfy`, `json_errors.dfy`, `outcomes.dfy`: the Token record and its
  `to_string`, decimal rendering of integers, the `JSONException` record and its `to_string`,
  and the `Result`/`Option` wrappers that stand for a thrown exception or a normal return.
- `lexer_spec.dfy`: what `next_token` computes, as functions of the input text and the lexer
  position (position, line, column). `Tokenize` is the stream of tokens the parser pulls, up
  to EOS or up to the first lexical error.
- `lexer.dfy`: the `Lexer` class, imperative like the original. Its fields are the position
  in the input and the line and column. Its methods are the character reads and the loops of
  `next_token`. `NextToken` is proved to return exactly what the specification's `Step` does,
  and to leave the lexer in the state `Step` gives.
- `lexer_props.dfy`: what the lexer promises about tokens, stated against separate grammars
  for string bodies and numbers. It also proves the line/column bookkeeping, the EOS
  behaviour, the literal and structural tokens, and the error cases.
- `ast.dfy`: the tree as datatypes (`Value` = `Object` | `Array` | `Simple`, `Record`,
  `Document`) and `first_token`.
- `parser_spec.dfy`: the recursive descent as functions over a token stream and an index.
- `parser.dfy`: the `Parser` class. It keeps a copy of the lexer and the current token and
  pulls tokens one at a time. Each production is proved equal to its function in
  `parser_spec.dfy`.
- `parser_props.dfy`: the shape of what a successful parse consumed, order of elements,
  typing of leaves and keys, `first_token` of parsed trees, and the error cases.
- `token_grammar.dfy`: the JSON grammar written over token types alone, with no reference
  to the parser. A value or a document parses exactly when its tokens belong to that
  grammar, in both directions.
- `compact_printer.dfy`, `round_trip.dfy`: the compact printer and the round trip. Printing
  the parse of a whitespace-free input gives back that input.
- `pretty_printer.dfy`, `pretty_props.dfy`: the pretty `Printer` class. It has a mutable
  current indent and an output string, and each visit is proved to append a function of the
  node. With the whitespace removed, its output is the compact text.

Points where the code behaves differently from what its names and messages suggest, modelled
as the code does it:

- The error text at lib/core/lexer.cpp:146 says leading zeros are not allowed, but the check
  at lib/core/lexer.cpp:144-145 refuses a `0` only when another `0` follows it, so `01` is
  one NUMBER token. The model keeps the code's behaviour:
  `LexerProps.LeadingZeroAccepted` and `LexerProps.DoubleZeroRefused` state both sides.
- The parser never assigns the closing-token fields `rbrace_token` and `rbracket_token`. An
  empty object or array therefore reports the default token (EOS, empty, line 0, column 0)
  as its `first_token`.
- A missing `}` reports "expected ','" (lib/core/parser.cpp:62).

## Model

| member | source | states |
|---|---|---|
| Tokens.TypeNamesComplete | lib/core/token.h:61-70 | every one of the ten token types has a name in the map, so the lookup in `to_string` cannot fail; names are non-empty, space-free and distinct |
| Tokens.TokenTextType | lib/core/token.cpp:46-51 | the text of a token starts with its type name, which reads back to the token's type |
| Tokens.TokenTextPosition | lib/core/token.cpp:46-51 | the text of a token ends with `line:column`, which reads back to the stored line and column |
| Text.NatToString | lib/core/token.cpp:50 | `std::to_string` of a non-negative number is a non-empty run of digits with no leading zero |
| Text.ParseNatToString | lib/core/token.cpp:50 | the digits written for a non-negative number read back to it |
| Text.IntToStringRoundTrip | lib/core/json_exception.cpp:29-30 | the text of any int is a minus sign exactly when it is negative, then digits, and reads back to that int |
| JsonErrors.Category | lib/core/json_exception.cpp:22-26 | the category word ("Lexer", "Parser", "Type") is non-empty and has no space |
| JsonErrors.ErrorTextLayout | lib/core/json_exception.cpp:27-30 | the text starts with category + " Error: " + the message verbatim, and is longer than that exactly when the error has a position |
| JsonErrors.ErrorTextKind | lib/core/json_exception.cpp:22-27 | the category word at the head of the text reads back to the error's kind |
| JsonErrors.ErrorTextPosition | lib/core/json_exception.cpp:28-30 | a positioned error's text ends with " at line L column C", which reads back to its line and column |
| Ast.StoredTokens | lib/core/ast.h:81-126 | every value stores at least one token, so `first_token` always has one to return |
| Ast.FirstToken | lib/core/ast.cpp:34-69 | `first_token` is the first of the tokens the value stores |
| Ast.LeafKind | lib/core/parser.cpp:116-131 | exactly the three value token types get a leaf type, and never ARRAY_TYPE or JSON_TYPE |
| Ast.KindOfWellFormed | lib/core/ast.h:85-103 | in a tree the parser builds, the reported type is JSON_TYPE exactly for objects, ARRAY_TYPE exactly for arrays, and a leaf's type is its token's |
| LexerSpec.SkipSpace | lib/core/lexer.cpp:76-86 | the whitespace loop stops at the first non-space character or at the end, having passed only whitespace |
| LexerSpec.StringEnd | lib/core/lexer.cpp:116-129 | a string body ends at a closing quote, or fails at the end of input or at a newline |
| LexerSpec.DigitsEnd | lib/core/lexer.cpp:148-152 | a digit loop passes only digits and stops before a non-digit or at the end |
| LexerSpec.ScanInteger | lib/core/lexer.cpp:134-152 | the integer part of a number is at least one character long |
| LexerSpec.ScanFraction | lib/core/lexer.cpp:153-169 | the fraction part never moves backwards; which text it accepts is stated by `LexerProps.FractionRun`, `LexerProps.FractionScanEnd` and `LexerProps.FractionDigitRequired` |
| LexerSpec.ScanExponent | lib/core/lexer.cpp:170-190 | the exponent part never moves backwards; which text it accepts is stated by `LexerProps.ExponentRun`, `LexerProps.ExponentScanEnd` and `LexerProps.ExponentDigitRequired` |
| LexerSpec.ScanAt | lib/core/lexer.cpp:87-216 | a token carries the line and column of its first character; EOS is returned exactly at the end of input, with an empty lexeme and one column further; other tokens move the column by the characters they consume; errors carry the token's start position |
| LexerSpec.Step | lib/core/lexer.cpp:71-218 | `next_token` consumes at least one character unless it returns EOS; its token or error carries the line and column reached after skipping whitespace |
| LexerSpec.TokenizeFrom | lib/core/parser.cpp:15-18 | the tokens pulled one `advance` at a time end with exactly one EOS unless a lexical error stops them |
| LexerSpec.Tokenize | lib/core/lexer.cpp:19-22 | tokenizing starts at line 1, column 1 and yields a well-formed stream |
| LexerSpec.TraceFrom | lib/core/parser.cpp:15-18 | one lexer state per call of `next_token`, starting from the given one |
| LexerSpec.TracePulls | lib/core/parser.cpp:15-18 | each recorded call of `next_token` returns the next token of the stream, or its error, and moves to the next recorded state |
| Lexing.Lexer.constructor | lib/core/lexer.cpp:19-22 | a new lexer stands at the start of the input, line 1, column 1 |
| Lexing.Lexer.Copy | lib/core/parser.cpp:8-10 | the parser's copy of a lexer reads the same input from the same state |
| Lexing.Lexer.Read | lib/core/lexer.cpp:25-28 | `read` returns the next character (None at the end), consumes it, and leaves the column alone |
| Lexing.Lexer.ReadNextChar | lib/core/lexer.cpp:65-69 | `readNextChar` returns the next character, consumes it, and moves one column right, even at the end of input |
| Lexing.Lexer.ReadWord | lib/core/lexer.cpp:36-52 | `read_u32(n)` consumes up to n characters, returns them, and moves the column by n |
| Lexing.Lexer.SkipWhitespace | lib/core/lexer.cpp:76-86 | the loop leaves the lexer in the state `SkipSpace` computes |
| Lexing.Lexer.NextToken | lib/core/lexer.cpp:71-218 | returns exactly the token or error of `Step` and ends in `Step`'s next state |
| Lexing.Lexer.LexString | lib/core/lexer.cpp:113-132 | the string case returns the string token or error of the specification and ends after the closing quote |
| Lexing.Lexer.ReadStringUnit | lib/core/lexer.cpp:118-128 | one pass of the string loop keeps the lexeme equal to the input read since the opening quote; on success the column moves by what was read and the closing quote ahead is unchanged, otherwise the string is unterminated where the read failed |
| Lexing.Lexer.LexDigits | lib/core/lexer.cpp:148-152 | the digit loop stops where `DigitsEnd` does, the lexeme being all the text read so far |
| Lexing.Lexer.LexNumber | lib/core/lexer.cpp:134-191 | the number case returns the specification's number token or error |
| Lexing.Lexer.LexFraction | lib/core/lexer.cpp:153-169 | the `.` part returns the token or error of `ScanFraction` |
| Lexing.Lexer.ReadExponentSign | lib/core/lexer.cpp:174-179 | an optional sign is appended to the lexeme and the character after it is read |
| Lexing.Lexer.LexExponent | lib/core/lexer.cpp:170-190 | the exponent part returns the token or error of `ScanExponent` |
| Lexing.Lexer.LexLiteral | lib/core/lexer.cpp:192-212 | the `t`/`f`/`n` cases return the literal token or error of the specification |
| LexerProps.StringEndIsBody | lib/core/lexer.cpp:116-129 | the closing quote found is exactly the first quote after text in which every backslash pairs with a following non-newline character and no bare quote or newline occurs |
| LexerProps.BodyHasNoNewline | lib/core/lexer.cpp:124-127 | a string body never holds a newline |
| LexerProps.StringToken | lib/core/lexer.cpp:113-132 | a STRING token's lexeme is the text strictly between the quotes, escapes kept verbatim; the lexer stops right after the closing quote, on the same line |
| LexerProps.DigitsRun | lib/core/lexer.cpp:148-152 | the text a digit loop passes is all digits |
| LexerProps.IntegerRun | lib/core/lexer.cpp:134-152 | the integer part is an optional minus and digits not starting with `00` |
| LexerProps.FractionRun | lib/core/lexer.cpp:153-169 | the fraction part is empty or a `.` and at least one digit |
| LexerProps.ExponentRun | lib/core/lexer.cpp:170-190 | the exponent part is empty or `e`/`E`, an optional sign and at least one digit |
| LexerProps.NumberLexeme | lib/core/lexer.cpp:134-191 | a NUMBER token's lexeme is exactly the consumed text, split into integer, fraction and exponent parts of that grammar; each part is the longest one: no digit follows, an empty fraction is not followed by `.`, and an empty exponent is not followed by `e` or `E` |
| LexerProps.NumberHeadErrors | lib/core/lexer.cpp:136-147 | `-` without a digit is "Invalid token,"; `0` followed by `0` is the leading-zero error |
| LexerProps.SkipSpaceLine | lib/core/lexer.cpp:76-86 | skipping whitespace moves the line down by the number of newlines skipped |
| LexerProps.SkipSpaceColumn | lib/core/lexer.cpp:76-86 | after skipping, the column counts from 1 after the last newline skipped, or has moved right by every character skipped if there was none |
| LexerProps.SkipSpaceFromOne | lib/core/lexer.cpp:76-86 | skipping whitespace never takes line or column below 1 |
| LexerProps.PositionsFromOne | lib/core/token.h:54-58 | every token and every lexical error of a stream started at line 1, column 1 has a line and a column of at least 1 |
| LexerProps.EosRepeats | lib/core/lexer.cpp:89-93 | EOS is returned only at the end of input with an empty lexeme, and the next call returns EOS again, one column further |
| LexerProps.StructuralToken | lib/core/lexer.cpp:95-111 | each of `{ } [ ] : ,` is a structural token of its own type whose lexeme is that character, one column wide |
| LexerProps.LiteralExact | lib/core/lexer.cpp:192-212 | `t`/`f`/`n` succeed exactly when `true`/`false`/`null` follow verbatim; the lexeme is then the word and the column advances by its length; otherwise the error names the first character |
| LexerProps.OtherCharacter | lib/core/lexer.cpp:213-215 | any other starting character is an "Invalid token" lexical error at its position |
| LexerProps.LeadingZeroAccepted | lib/core/lexer.cpp:144-147 | `01` is one NUMBER token: only two zeros in a row are refused |
| LexerProps.DoubleZeroRefused | lib/core/lexer.cpp:144-147 | `00` is refused with the leading-zero message at line 1, column 1 |
| LexerProps.FractionDigitRequired | lib/core/lexer.cpp:153-163 | for any input, an integer part followed by `.` and a non-digit is refused at the number's start, with the text through the `.` and the "at least one trailing digit" message |
| LexerProps.ExponentDigitRequired | lib/core/lexer.cpp:170-183 | for any input, an integer and fraction part followed by `e`/`E`, an optional sign and a non-digit is refused at the number's start, with the text through the `e` and its sign in the message |
| LexerProps.NumberAccepted | lib/core/lexer.cpp:134-191 | for any input, an integer, fraction and exponent part of the number grammar, each as long as possible and followed by a non-digit, is read as one NUMBER token of exactly that text, and the column advances by its length |
| LexerProps.IntegerScanEnd | lib/core/lexer.cpp:134-152 | an integer part followed by a non-digit passes the sign and leading-zero checks and hands over to the fraction scan right after it |
| LexerProps.FractionScanEnd | lib/core/lexer.cpp:153-169 | a fraction part that is as long as possible hands over to the exponent scan right after it |
| LexerProps.ExponentScanEnd | lib/core/lexer.cpp:170-190 | an exponent part that is as long as possible ends the number right after it |
| LexerProps.MinusDigitRequired | lib/core/lexer.cpp:136-142 | `-x` is refused with "Invalid token," |
| ParserSpec.SyntaxErrorAt | lib/core/parser.cpp:30-43 | a syntax error is the message + "found '<lexeme>'" at the current token's line and column |
| ParserSpec.Advance | lib/core/parser.cpp:15-18 | advancing moves to the next token, or raises the lexer's error when the stream ends in one |
| ParserSpec.Eat | lib/core/parser.cpp:21-27 | `eat` advances past a token of the expected type and raises exactly the given syntax error otherwise |
| ParserSpec.Kval | lib/core/parser.cpp:164-172 | a key succeeds only on a STRING token |
| ParserSpec.Pval | lib/core/parser.cpp:174-186 | a leaf succeeds only on a LITERAL, NUMBER or STRING token |
| ParserSpec.ParseValue | lib/core/parser.cpp:134-160 | a value consumes at least one token and stops inside the stream |
| ParserSpec.ParseObject | lib/core/parser.cpp:58-63 | an object consumes at least one token and stops inside the stream |
| ParserSpec.ParseRecords | lib/core/parser.cpp:65-79 | the records never move backwards; what they collect is stated by `ParserProps.RecordLoopAcc`, and which tokens they accept by `TokenGrammar.RecordsSound` and `TokenGrammar.RecordsComplete` |
| ParserSpec.RecordLoop | lib/core/parser.cpp:69-78 | each pass of the loop consumes at least one record |
| ParserSpec.ParseRecord | lib/core/parser.cpp:81-87 | a record consumes at least one token |
| ParserSpec.ParseArray | lib/core/parser.cpp:89-94 | an array consumes at least one token and stops inside the stream |
| ParserSpec.ParseValues | lib/core/parser.cpp:96-110 | the values never move backwards; what they collect is stated by `ParserProps.ValueLoopAcc`, and which tokens they accept by `TokenGrammar.ValuesSound` and `TokenGrammar.ValuesComplete` |
| ParserSpec.ValueLoop | lib/core/parser.cpp:100-109 | each pass of the loop consumes at least one value |
| ParserSpec.ParseSimple | lib/core/parser.cpp:112-132 | a leaf consumes at least one token and stops inside the stream |
| Parsing.StepAtEnd | lib/core/lexer.cpp:89-93 | at the end of the input `next_token` returns EOS and stays at the end |
| Parsing.Parser.constructor | lib/core/parser.cpp:8-10 | the parser owns a fresh copy of the lexer, has no current token yet, and will read the stream that lexer produces |
| Parsing.Parser.BaseError | lib/core/parser.cpp:38-43 | `base_error` is a SYNTAX error at the current token's line and column |
| Parsing.Parser.Error | lib/core/parser.cpp:30-34 | `error` appends "found '<lexeme>'" to the message |
| Parsing.Parser.Advance | lib/core/parser.cpp:15-18 | the next token of the stream becomes current; the lexer's error is raised when the stream ends in one; after EOS the current token stays EOS |
| Parsing.Parser.Eat | lib/core/parser.cpp:21-27 | does what `ParserSpec.Eat` computes; on EOS it succeeds exactly when the current token is EOS |
| Parsing.Parser.Kval | lib/core/parser.cpp:164-172 | does what `ParserSpec.Kval` computes |
| Parsing.Parser.Pval | lib/core/parser.cpp:174-186 | does what `ParserSpec.Pval` computes |
| Parsing.Parser.Parse | lib/core/parser.cpp:48-53 | returns exactly `ParseDocument` of the lexer's token stream |
| Parsing.Parser.RValue | lib/core/parser.cpp:134-160 | returns the value, or the error, of `ParseValue` and stops at its next token |
| Parsing.Parser.Json | lib/core/parser.cpp:58-63 | returns the result of `ParseObject` |
| Parsing.Parser.Records | lib/core/parser.cpp:65-79 | the `while(1)` loop returns the records of `ParseRecords`, in order |
| Parsing.Parser.Record | lib/core/parser.cpp:81-87 | returns the result of `ParseRecord` |
| Parsing.Parser.Array | lib/core/parser.cpp:89-94 | returns the result of `ParseArray` |
| Parsing.Parser.Values | lib/core/parser.cpp:96-110 | the `while(1)` loop returns the values of `ParseValues`, in order |
| Parsing.Parser.Simple | lib/core/parser.cpp:112-132 | returns the result of `ParseSimple` |
| Parsing.ParseInput | lib/core/parser.cpp:48-53 | lexing and parsing a text with the two classes gives exactly `ParseText` |
| ParserProps.ObjectParts | lib/core/parser.cpp:58-79 | a parsed object spans `{` to its matching `}`; it is empty exactly when `}` follows `{`, otherwise its records are those of the loop; its closing token is the default token (which token sequences are accepted, in both directions: `TokenGrammar.ObjectSound`, `TokenGrammar.ObjectComplete`) |
| ParserProps.ArrayParts | lib/core/parser.cpp:89-110 | a parsed array spans `[` to its matching `]`; empty exactly when `]` follows `[`, otherwise its values are those of the loop; its closing token is the default token (which token sequences are accepted, in both directions: `TokenGrammar.ArraySound`, `TokenGrammar.ArrayComplete`) |
| ParserProps.RecordParts | lib/core/parser.cpp:81-87 | a record is a STRING key token stored as the key, a `:`, then a value |
| ParserProps.RecordLoopAcc | lib/core/parser.cpp:69-78 | the records already collected are kept in front of the new ones, in order, and never change whether the loop succeeds |
| ParserProps.ValueLoopAcc | lib/core/parser.cpp:100-109 | the values already collected are kept in front of the new ones, in order, and never change whether the loop succeeds |
| ParserProps.RecordLoopHead | lib/core/parser.cpp:69-78 | the records loop yields the first record, then either stops or continues after a comma with the rest |
| ParserProps.ValueLoopHead | lib/core/parser.cpp:100-109 | the values loop yields the first value, then either stops or continues after a comma with the rest |
| ParserProps.ValueWellFormed | lib/core/parser.cpp:112-160 | every parsed value has string keys and leaves typed after their tokens |
| ParserProps.ObjectWellFormed | lib/core/parser.cpp:58-63 | every parsed object is well-formed |
| ParserProps.RecordLoopWellFormed | lib/core/parser.cpp:65-79 | every record the loop collects is well-formed |
| ParserProps.RecordWellFormed | lib/core/parser.cpp:81-87 | every parsed record has a STRING key and a well-formed value |
| ParserProps.ArrayWellFormed | lib/core/parser.cpp:89-94 | every parsed array is well-formed |
| ParserProps.ValueLoopWellFormed | lib/core/parser.cpp:96-110 | every value the loop collects is well-formed |
| ParserProps.ObjectFirstToken | lib/core/ast.cpp:34-38 | a parsed object's `first_token` is the key token right after `{`, or the default token when `}` follows |
| ParserProps.ArrayFirstToken | lib/core/ast.cpp:53-57 | a parsed array's `first_token` is that of the value right after `[`, or the default token when `]` follows |
| ParserProps.FirstTokenOfParse | lib/core/ast.cpp:34-69 | a parsed value's `first_token` is the first token after its opening brackets, a value token, or the default token when a closing bracket comes first; a root `true` thus reports its own token |
| ParserProps.TrailingCommaInArray | lib/core/parser.cpp:100-109 | `, ]` inside an array is the error "expected value" at the `]` |
| ParserProps.TrailingCommaInObject | lib/core/parser.cpp:69-78 | `, }` inside an object is the error "expected string" at the `}` |
| ParserProps.UnclosedObject | lib/core/parser.cpp:58-63 | an object whose records are followed by anything other than `}` fails with "expected ','" at that token |
| ParserProps.RecordLoopPast | lib/core/parser.cpp:74-76 | the records loop stops only at a token that is not a comma |
| ParserProps.DocumentShape | lib/core/parser.cpp:48-53 | a document parses exactly when one value is followed by EOS; the root is that value; anything else after the value is "expected end-of-file" at that token (which streams are accepted, in both directions: `TokenGrammar.DocumentAccepted`) |
| TokenGrammar.ValueAccepted | lib/core/parser.cpp:58-160 | from any token position, rvalue() succeeds and stops at position `j` exactly when the tokens up to `j` form a value of the token grammar and a token follows them |
| TokenGrammar.DocumentAccepted | lib/core/parser.cpp:48-53 | parse() succeeds exactly when the token stream is one value of the token grammar followed by EOS as its last token |
| TokenGrammar.EmptyContainersAccepted | lib/core/parser.cpp:58-110 | `{` directly followed by `}` parses as an empty object, and `[` directly followed by `]` as an empty array, both two tokens long with the default closing token |
| TokenGrammar.ValueSound | lib/core/parser.cpp:134-160 | whatever rvalue() accepts is a value of the token grammar |
| TokenGrammar.ObjectSound | lib/core/parser.cpp:58-63 | whatever json() accepts is a braced value of the token grammar |
| TokenGrammar.ArraySound | lib/core/parser.cpp:89-94 | whatever array() accepts is a bracketed value of the token grammar |
| TokenGrammar.RecordsSound | lib/core/parser.cpp:65-87 | whatever the records loop accepts is a comma-separated run of string-colon-value records of the token grammar |
| TokenGrammar.ValuesSound | lib/core/parser.cpp:96-110 | whatever the values loop accepts is a comma-separated run of values of the token grammar |
| TokenGrammar.ValueComplete | lib/core/parser.cpp:134-160 | every value of the token grammar that has a token after it is accepted by rvalue(), which stops right after it |
| TokenGrammar.ObjectComplete | lib/core/parser.cpp:58-63 | every braced value of the token grammar that has a token after it is accepted by json(), which stops right after it |
| TokenGrammar.ArrayComplete | lib/core/parser.cpp:89-94 | every bracketed value of the token grammar that has a token after it is accepted by array(), which stops right after it |
| TokenGrammar.RecordComplete | lib/core/parser.cpp:81-87 | every string-colon-value record of the token grammar that has a token after it is accepted by record(), which stops right after it |
| TokenGrammar.RecordsComplete | lib/core/parser.cpp:65-79 | every comma-separated run of records followed by a non-comma is accepted by the records loop, whatever was collected before, which stops right after it |
| TokenGrammar.ValuesComplete | lib/core/parser.cpp:96-110 | every comma-separated run of values followed by a non-comma is accepted by the values loop, whatever was collected before, which stops right after it; it cannot start at `]` |
| CompactPrinter.LeafText | cli-utils/wjsoncompact/wjsoncompact.cpp:67-81 | numbers and literals print their lexeme, strings their lexeme between double quotes, and other types nothing |
| CompactPrinter.CompactRecordsCons | cli-utils/wjsoncompact/wjsoncompact.cpp:45-56 | records are joined with `,` between them: the first, a comma, the rest |
| CompactPrinter.CompactValuesCons | cli-utils/wjsoncompact/wjsoncompact.cpp:90-101 | values are joined with `,` between them: the first, a comma, the rest |
| CompactPrinter.CompactSpaceFree | cli-utils/wjsoncompact/wjsoncompact.cpp:21-36 | the compact printer emits no whitespace of its own: a value whose lexemes have none prints without any |
| CompactPrinter.CompactRecordsSpaceFree | cli-utils/wjsoncompact/wjsoncompact.cpp:45-56 | joined records add no whitespace |
| CompactPrinter.CompactRecordSpaceFree | cli-utils/wjsoncompact/wjsoncompact.cpp:59-65 | a record adds no whitespace |
| CompactPrinter.CompactValuesSpaceFree | cli-utils/wjsoncompact/wjsoncompact.cpp:90-101 | joined values add no whitespace |
| RoundTrip.KnownPiece | lib/core/lexer.cpp:91-131 | each token stands for fixed text: its quoted lexeme, its lexeme, its symbol, or nothing for EOS |
| RoundTrip.ObjectText | cli-utils/wjsoncompact/wjsoncompact.cpp:38-57 | an object prints as the text from its `{` to its `}` |
| RoundTrip.ArrayText | cli-utils/wjsoncompact/wjsoncompact.cpp:83-102 | an array prints as the text from its `[` to its `]` |
| RoundTrip.RecordText | cli-utils/wjsoncompact/wjsoncompact.cpp:59-65 | a record prints as its quoted key, `:` and its value's text |
| RoundTrip.ValueRoundTrip | cli-utils/wjsoncompact/wjsoncompact.cpp:38-101 | a parsed value prints as exactly the text of the tokens it was parsed from |
| RoundTrip.ObjectRoundTrip | cli-utils/wjsoncompact/wjsoncompact.cpp:38-57 | a parsed object prints as the text of its tokens |
| RoundTrip.RecordLoopRoundTrip | cli-utils/wjsoncompact/wjsoncompact.cpp:45-56 | the records of the loop print as the text they span |
| RoundTrip.RecordRoundTrip | cli-utils/wjsoncompact/wjsoncompact.cpp:59-65 | a parsed record prints as the text of its tokens |
| RoundTrip.ArrayRoundTrip | cli-utils/wjsoncompact/wjsoncompact.cpp:83-102 | a parsed array prints as the text of its tokens |
| RoundTrip.ValueLoopRoundTrip | cli-utils/wjsoncompact/wjsoncompact.cpp:90-101 | the values of the loop print as the text they span |
| RoundTrip.SimpleRoundTrip | cli-utils/wjsoncompact/wjsoncompact.cpp:67-81 | a parsed leaf prints as its one token's text |
| RoundTrip.ScanVerbatim | lib/core/lexer.cpp:87-216 | every token stands for exactly the input text it consumed |
| RoundTrip.StringVerbatim | lib/core/lexer.cpp:113-132 | a string token between quotes is exactly the input from its opening to its closing quote |
| RoundTrip.StepVerbatim | lib/core/lexer.cpp:71-218 | without whitespace, a call of `next_token` consumes exactly its token's text |
| RoundTrip.TokenizeRenders | lib/core/lexer.cpp:71-218 | without whitespace, the texts of all tokens of a successful stream join to the rest of the input |
| RoundTrip.CompactRoundTrip | cli-utils/wjsoncompact/wjsoncompact.cpp:32-101 | compact printing the parse of a whitespace-free input that parses gives back the input exactly |
| PrettyPrinter.Indent | cli-utils/wjsonformat/wjsonformat.cpp:29-31 | an indent of n is n characters long |
| PrettyPrinter.IndentFill | cli-utils/wjsonformat/wjsonformat.cpp:29-31 | every character of an indent is the indent character |
| PrettyPrinter.Printer.constructor | lib/printer/printer.h:30-34 | a new printer has indent 0 and an empty output; by default each level is one tab (wjsonformat.cpp:10-11) |
| PrettyPrinter.Printer.WithWidth | cli-utils/wjsonformat/wjsonformat.cpp:13-14 | the one-int constructor indents each level by that many spaces, starting at indent 0 |
| PrettyPrinter.Printer.WithFill | cli-utils/wjsonformat/wjsonformat.cpp:16-17 | the width-and-character constructor indents by that many copies of that character |
| PrettyPrinter.Printer.IncIndent | cli-utils/wjsonformat/wjsonformat.cpp:21-23 | the current indent grows by the indent size |
| PrettyPrinter.Printer.DecIndent | cli-utils/wjsonformat/wjsonformat.cpp:25-27 | the current indent shrinks by the indent size |
| PrettyPrinter.Printer.GetIndent | cli-utils/wjsonformat/wjsonformat.cpp:29-31 | `get_indent` is exactly `curr_indent` copies of the indent character |
| PrettyPrinter.Printer.VisitDocument | cli-utils/wjsonformat/wjsonformat.cpp:34-38 | appends the root's text and one newline; the indent is unchanged |
| PrettyPrinter.Printer.Accept | lib/core/ast.cpp:41-74 | `accept` runs the visit for the node's own kind: it appends the node's text and leaves the indent as it found it |
| PrettyPrinter.Printer.VisitJson | cli-utils/wjsonformat/wjsonformat.cpp:40-60 | appends the object's pretty text at the current indent; each inc_indent is undone, so the indent is the same on exit |
| PrettyPrinter.Printer.VisitRecord | cli-utils/wjsonformat/wjsonformat.cpp:62-68 | appends indent, quoted key, `: ` and the value's text; the indent is unchanged |
| PrettyPrinter.Printer.VisitSimple | cli-utils/wjsonformat/wjsonformat.cpp:70-84 | appends the lexeme, quoted for strings |
| PrettyPrinter.Printer.VisitArray | cli-utils/wjsonformat/wjsonformat.cpp:86-105 | appends the array's pretty text at the current indent; each inc_indent is undone, so the indent is the same on exit |
| PrettyProps.StripIndent | cli-utils/wjsonformat/wjsonformat.cpp:29-31 | an indent of whitespace disappears once whitespace is removed |
| PrettyProps.PrettyMatchesCompact | cli-utils/wjsonformat/wjsonformat.cpp:40-105 | with a whitespace indent character, the pretty text of any value and its compact text are equal once whitespace is removed |
| PrettyProps.ObjectMatch | cli-utils/wjsonformat/wjsonformat.cpp:40-60 | a non-empty object's pretty and compact texts agree without whitespace |
| PrettyProps.ArrayMatch | cli-utils/wjsonformat/wjsonformat.cpp:86-105 | a non-empty array's pretty and compact texts agree without whitespace |
| PrettyProps.RecordsMatch | cli-utils/wjsonformat/wjsonformat.cpp:50-57 | records joined by `,\n` agree with records joined by `,` without whitespace |
| PrettyProps.RecordMatch | cli-utils/wjsonformat/wjsonformat.cpp:62-68 | a record's pretty and compact texts agree without whitespace |
| PrettyProps.ElementMatch | cli-utils/wjsonformat/wjsonformat.cpp:94-96 | an indented element agrees with its compact text without whitespace |
| PrettyProps.ValuesMatch | cli-utils/wjsonformat/wjsonformat.cpp:94-102 | indented elements joined by `,\n` agree with elements joined by `,` without whitespace |
| PrettyProps.PrettyRoundTrip | cli-utils/wjsonformat/wjsonformat.cpp:34-38 | pretty printing the parse of a whitespace-free input with a whitespace indent gives back the input once whitespace is removed |
| PrettyProps.EmptyContainers | cli-utils/wjsonformat/wjsonformat.cpp:42-47 | a document that is an empty object prints as `{}` and two newlines; a nested empty object prints as `{}`; an empty array prints as `[]` |

## Left out

- Character input: the stream is the text as a sequence of characters with an explicit end.
  `get`/`peek` returning EOF as a character, the unused `read(char*, n)` overload and the
  sign extension in `read_u32`'s shifts are not modelled.
- Lexing.Lexer.LexLiteral: the literal check compares the next characters with `rue`, `alse`
  or `ull` instead of packing them into an unsigned int; the column still moves by 3 or 4,
  as `read_u32` does.
- `isValidIdentifier` is never called and is not modelled.
- Character classes are the ASCII ones of the C locale; locale-dependent `isspace` and
  `isdigit` are not modelled.
- Memory management (`new`, the destructors that delete children) becomes datatypes, whose
  ownership is a tree.
- Exceptions are `Result` failures carrying kind, message and position; the thrown object
  and stack unwinding are not modelled.
- Output streams are strings that grow by appending; `flush` and the flushing done by
  `std::endl` are not modelled, and `std::endl` is one newline.
- Line, column and indents are unbounded integers; int overflow is not modelled.
- The indent width is a natural number; a negative width, for which `std::string(n, c)`
  would fail, is not modelled.
- PrettyPrinter.Printer.DecIndent: requires the current indent to be at least one step,
  since the model keeps the indent a natural number; every visit calls `dec_indent` only
  after its own `inc_indent`.
- The Visitor's double dispatch becomes a `match` in `Accept`; `visit(RValue&)`, declared
  in lib/printer/printer.h but defined by neither printer, is not modelled.
- The compact printer is a set of functions: its indent helpers do nothing and its
  `visit(JSONDocument&)` only flushes, so each visit appends a fixed function of the node.
- ParserSpec.ParseDocument: the specification stops at the final EOS. The `Parser` class
  does pull once more past it, as `eat(EOS)` does, and that changes nothing observable.
- The `default` branch of `simple()` cannot be reached after `pval()` succeeds, and is not
  modelled.
- The test that a document whose root is `true` reports `true` as its first token is
  covered by ParserProps.FirstTokenOfParse and LexerProps.LiteralExact for all inputs. It is
  not evaluated on that literal text.
- The superseded header drafts, the command-line front ends (`main.cpp`,
  `jsonpretty.cpp`) and the test helpers are not part of this model.
