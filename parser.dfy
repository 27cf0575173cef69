/**
 * The Parser class of lib/core/parser.cpp: recursive descent with one token of lookahead,
 * pulling tokens from its own copy of a Lexer. Each production is proved to do what the
 * corresponding function of ParserSpec computes over the token stream the lexer produces.
 */
module Parsing {
  import opened Outcomes
  import opened Tokens
  import opened JsonErrors
  import opened LexerSpec
  import opened Lexing
  import opened Ast
  import opened ParserSpec

  /** At the end of the input next_token keeps returning EOS and stays at the end. */
  lemma StepAtEnd(input: string, s: LexState)
    requires s.pos == |input|
    ensures Step(input, s).Scanned? && Step(input, s).token.tokenType == Eos
    ensures Step(input, s).next.pos == |input|
  {
  }

  class Parser {
    const lexer: Lexer
    var curr: Token
    /**
     * The tokens the lexer hands out from its state at construction, the states it is called
     * from, and how many tokens were pulled.
     */
    ghost const ts: TokenStream
    ghost const trace: seq<LexState>
    ghost var pulled: nat

    /** The lexer is in the state from which it hands out the first token not yet pulled. */
    ghost predicate Valid()
      reads this, lexer
    {
      && lexer.Valid() && ValidStream(ts) && pulled <= |ts.tokens|
      && |trace| == |ts.tokens| + (if ts.failure.Some? then 1 else 0)
      && Pulls(lexer.input, trace, ts)
      && (pulled < |trace| ==> lexer.State() == trace[pulled])
      && (pulled == |trace| ==> lexer.pos == |lexer.input|)
    }

    /** curr_token is the last token pulled, or the default token before the first. */
    ghost predicate Synced()
      reads this
    {
      pulled <= |ts.tokens| && curr == if pulled == 0 then DefaultToken else ts.tokens[pulled - 1]
    }

    /** A production returned what its specification computes, and stopped where it does. */
    ghost predicate Ran<T>(spec: Result<Parsed<T>, JsonError>, r: Result<T, JsonError>)
      reads this, lexer
    {
      match spec
      case Success(p) => r == Success(p.value) && Valid() && Synced() && pulled == p.next + 1
      case Failure(e) => r == Failure(e)
    }

    /** A token check succeeded or failed as its specification says. */
    ghost predicate Moved(spec: Result<nat, JsonError>, r: Result<(), JsonError>)
      reads this, lexer
    {
      match spec
      case Success(j) => r.Success? && Valid() && Synced() && pulled == j + 1
      case Failure(e) => r == Failure(e)
    }

    /** Parser(const Lexer&): keeps a copy of the lexer; no token is current yet. */
    constructor (l: Lexer)
      requires l.Valid()
      ensures Valid() && Synced() && pulled == 0 && fresh(lexer)
      ensures ts == TokenizeFrom(l.input, l.State()) && lexer.input == l.input
    {
      lexer := new Lexer.Copy(l);
      curr := DefaultToken;
      ts := TokenizeFrom(l.input, l.State());
      trace := TraceFrom(l.input, l.State());
      pulled := 0;
      new;
      TracePulls(l.input, l.State());
    }

    /** base_error(): a syntax error at the current token. */
    function BaseError(msg: string): (e: JsonError)
      reads this
      ensures e == Positioned(SyntaxError, msg, curr.line, curr.column)
    {
      Positioned(SyntaxError, msg, curr.line, curr.column)
    }

    /** error(): the message completed with the lexeme found. */
    function Error(msg: string): (e: JsonError)
      reads this
      ensures e == SyntaxErrorAt(msg, curr)
    {
      BaseError(msg + "found '" + curr.lexeme + "'")
    }

    /** advance(): the next token becomes current; past the final EOS it is EOS again. */
    method Advance() returns (r: Result<(), JsonError>)
      requires Valid() && Synced()
      modifies this, lexer
      ensures old(pulled) < |ts.tokens| ==> r.Success? && Valid() && Synced() && pulled == old(pulled) + 1
      ensures old(pulled) == |ts.tokens| && ts.failure.Some? ==> r == Failure(ts.failure.value)
      ensures old(pulled) == |ts.tokens| && ts.failure.None? ==> r.Success? && curr.tokenType == Eos
    {
      if pulled < |trace| {
        assert PullsAt(lexer.input, trace, ts, pulled) by {
          assert Resume(trace, pulled) == lexer.State();
        }
      } else {
        StepAtEnd(lexer.input, lexer.State());
      }
      var t := lexer.NextToken();
      if t.Failure? {
        return Failure(t.error);
      }
      curr := t.value;
      if pulled < |ts.tokens| {
        pulled := pulled + 1;
      }
      r := Success(());
    }

    /** eat(t, msg): advance past a token of type `t`, or raise `msg`. */
    method Eat(t: TokenType, msg: string) returns (r: Result<(), JsonError>)
      requires Valid() && Synced() && 0 < pulled
      modifies this, lexer
      ensures t != Eos ==> Moved(ParserSpec.Eat(ts, old(pulled) - 1, t, msg), r)
      ensures t == Eos ==> (old(curr).tokenType == Eos <==> r.Success?)
      ensures t == Eos && r.Failure? ==> r.error == SyntaxErrorAt(msg, old(curr))
    {
      if curr.tokenType == t {
        r := Advance();
      } else {
        r := Failure(Error(msg));
      }
    }

    /** kval(): the current token must be a string. */
    method Kval() returns (r: Result<(), JsonError>)
      requires Valid() && Synced() && 0 < pulled
      modifies this, lexer
      ensures Moved(ParserSpec.Kval(ts, old(pulled) - 1), r)
    {
      if curr.tokenType == StringVal {
        r := Advance();
      } else {
        r := Failure(Error("Unexpected token: expected string, "));
      }
    }

    /** pval(): the current token must be a literal, a number or a string. */
    method Pval() returns (r: Result<(), JsonError>)
      requires Valid() && Synced() && 0 < pulled
      modifies this, lexer
      ensures Moved(ParserSpec.Pval(ts, old(pulled) - 1), r)
    {
      match curr.tokenType
      case LiteralVal | NumberVal | StringVal =>
        r := Advance();
      case _ =>
        r := Failure(Error("Unexpected token: expected value, "));
    }

    /** parse(): the first token, one value, then end of input. */
    method Parse() returns (r: Result<Document, JsonError>)
      requires Valid() && Synced() && pulled == 0
      modifies this, lexer
      ensures r == ParseDocument(ts)
    {
      var _ :- Advance();
      var root :- RValue();
      var _ :- Eat(Eos, "Unexpected token: expected end-of-file, ");
      r := Success(Document(root));
    }

    /** rvalue(): an object, an array or a leaf, chosen by the current token. */
    method RValue() returns (r: Result<Value, JsonError>)
      requires Valid() && Synced() && 0 < pulled
      modifies this, lexer
      ensures Ran(ParseValue(ts, old(pulled) - 1), r)
      decreases |ts.tokens| - pulled, 3
    {
      match curr.tokenType
      case LBrace =>
        r := Json();
      case LBracket =>
        r := Array();
      case _ =>
        r := Simple();
    }

    /** json(): `{`, the records, `}`. */
    method Json() returns (r: Result<Value, JsonError>)
      requires Valid() && Synced() && 0 < pulled
      modifies this, lexer
      ensures Ran(ParseObject(ts, old(pulled) - 1), r)
      decreases |ts.tokens| - pulled, 2
    {
      var _ :- Eat(LBrace, "Unexpected token: expected '{', ");
      var records :- Records();
      var _ :- Eat(RBrace, "Unexpected token: expected ',', ");
      r := Success(Value.Object(records, DefaultToken));
    }

    /** records(): the records of an object, in order. */
    method Records() returns (r: Result<seq<Ast.Record>, JsonError>)
      requires Valid() && Synced() && 0 < pulled
      modifies this, lexer
      ensures Ran(ParseRecords(ts, old(pulled) - 1), r)
      decreases |ts.tokens| - pulled, 5
    {
      if curr.tokenType == RBrace {
        return Success([]);
      }
      var records := [];
      ghost var start := pulled - 1;
      while true
        invariant Valid() && Synced() && old(pulled) <= pulled && 0 < pulled
        invariant ParseRecords(ts, start) == RecordLoop(ts, pulled - 1, records)
        decreases |ts.tokens| - pulled
      {
        var rec :- Record();
        records := records + [rec];
        if curr.tokenType != Comma {
          return Success(records);
        }
        var _ :- Advance();
      }
    }

    /** record(): a string key, `:`, a value. */
    method Record() returns (r: Result<Ast.Record, JsonError>)
      requires Valid() && Synced() && 0 < pulled
      modifies this, lexer
      ensures Ran(ParseRecord(ts, old(pulled) - 1), r)
      decreases |ts.tokens| - pulled, 3
    {
      var key := curr;
      var _ :- Kval();
      var _ :- Eat(Colon, "Unexpected token: expected ':', ");
      var value :- RValue();
      r := Success(Ast.Record.Record(key, value));
    }

    /** array(): `[`, the values, `]`. */
    method Array() returns (r: Result<Value, JsonError>)
      requires Valid() && Synced() && 0 < pulled
      modifies this, lexer
      ensures Ran(ParseArray(ts, old(pulled) - 1), r)
      decreases |ts.tokens| - pulled, 2
    {
      var _ :- Eat(LBracket, "Unexpected token: expected '[', ");
      var values :- Values();
      var _ :- Eat(RBracket, "Unexpected token: expected ']', ");
      r := Success(Value.Array(values, DefaultToken));
    }

    /** values(): the elements of an array, in order. */
    method Values() returns (r: Result<seq<Value>, JsonError>)
      requires Valid() && Synced() && 0 < pulled
      modifies this, lexer
      ensures Ran(ParseValues(ts, old(pulled) - 1), r)
      decreases |ts.tokens| - pulled, 5
    {
      if curr.tokenType == RBracket {
        return Success([]);
      }
      var values := [];
      ghost var start := pulled - 1;
      while true
        invariant Valid() && Synced() && old(pulled) <= pulled && 0 < pulled
        invariant ParseValues(ts, start) == ValueLoop(ts, pulled - 1, values)
        decreases |ts.tokens| - pulled
      {
        var v :- RValue();
        values := values + [v];
        if curr.tokenType != Comma {
          return Success(values);
        }
        var _ :- Advance();
      }
    }

    /** simple(): a leaf, typed after its token. */
    method Simple() returns (r: Result<Value, JsonError>)
      requires Valid() && Synced() && 0 < pulled
      modifies this, lexer
      ensures Ran(ParseSimple(ts, old(pulled) - 1), r)
      decreases |ts.tokens| - pulled, 2
    {
      var token := curr;
      var _ :- Pval();
      r := Success(Value.Simple(token, LeafKind(token.tokenType).value));
    }
  }

  /** Lexing and parsing a whole input, as the library's callers do. */
  method ParseInput(input: string) returns (r: Result<Document, JsonError>)
    ensures r == ParseText(input)
  {
    var lexer := new Lexer(input);
    var parser := new Parser(lexer);
    r := parser.Parse();
  }
}
