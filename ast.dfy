/**
 * The syntax tree of lib/core/ast.h: a document holds one root value; a value is an
 * object (a list of records), an array (a list of values) or a simple leaf. Ownership is a
 * tree, so the nodes are datatypes; the Visitor's double dispatch becomes a `match`.
 */
module Ast {
  import opened Outcomes
  import opened Tokens

  /** ValueType of lib/core/ast.h. */
  datatype ValueType = StringType | NumberType | LiteralType | ArrayType | JsonType

  /**
   * RValue and its three subclasses. `rbrace` and `rbracket` are the closing-token fields
   * of JSON and Array; `valueType` is the `type` field a SimpleRValue carries.
   */
  datatype Value =
    | Object(records: seq<Record>, rbrace: Token)
    | Array(values: seq<Value>, rbracket: Token)
    | Simple(token: Token, valueType: ValueType)

  /** A key token and the value it names. */
  datatype Record = Record(key: Token, value: Value)

  /** JSONDocument: exactly one root value. */
  datatype Document = Document(root: Value)

  /**
   * Every token a value stores, in source order: keys and leaves where they occur, and a
   * container's closing token after its children.
   */
  function StoredTokens(v: Value): (ts: seq<Token>)
    ensures |ts| > 0
  {
    match v
    case Object(rs, close) => RecordTokens(rs) + [close]
    case Array(vs, close) => ValueTokens(vs) + [close]
    case Simple(t, _) => [t]
  }

  function RecordTokens(rs: seq<Record>): (ts: seq<Token>)
    ensures rs != [] ==> |ts| > 0 && ts[0] == rs[0].key
  {
    if rs == [] then [] else KeyedTokens(rs[0]) + RecordTokens(rs[1..])
  }

  function KeyedTokens(r: Record): seq<Token> {
    [r.key] + StoredTokens(r.value)
  }

  function ValueTokens(vs: seq<Value>): (ts: seq<Token>)
    ensures vs != [] ==> |ts| > 0 && ts[0] == StoredTokens(vs[0])[0]
  {
    if vs == [] then [] else StoredTokens(vs[0]) + ValueTokens(vs[1..])
  }

  /**
   * first_token: a leaf's own token, an object's first key, an array's first element's
   * first token, or the closing token of an empty container.
   */
  function FirstToken(v: Value): (t: Token)
    ensures t == StoredTokens(v)[0]
  {
    match v
    case Object(rs, close) => if |rs| > 0 then rs[0].key else close
    case Array(vs, close) => if |vs| > 0 then FirstToken(vs[0]) else close
    case Simple(t, _) => t
  }

  /** The type a value reports: fixed for containers, the stored type for leaves. */
  function Kind(v: Value): ValueType {
    match v
    case Object(_, _) => JsonType
    case Array(_, _) => ArrayType
    case Simple(_, k) => k
  }

  /** The leaf type the parser assigns to each value token. */
  function LeafKind(t: TokenType): (k: Option<ValueType>)
    ensures k.Some? <==> IsValueType(t)
    ensures k.Some? ==> k.value != ArrayType && k.value != JsonType
  {
    match t
    case LiteralVal => Some(LiteralType)
    case NumberVal => Some(NumberType)
    case StringVal => Some(StringType)
    case _ => None
  }

  /** Keys are string tokens and every leaf's type is the one its token calls for. */
  predicate WellFormed(v: Value) {
    match v
    case Object(rs, _) => forall k :: 0 <= k < |rs| ==> WellFormedRecord(rs[k])
    case Array(vs, _) => forall k :: 0 <= k < |vs| ==> WellFormed(vs[k])
    case Simple(t, kind) => LeafKind(t.tokenType) == Some(kind)
  }

  predicate WellFormedRecord(r: Record) {
    r.key.tokenType == StringVal && WellFormed(r.value)
  }

  /** In a well-formed tree the reported type tells the node kind apart. */
  lemma KindOfWellFormed(v: Value)
    requires WellFormed(v)
    ensures Kind(v) == JsonType <==> v.Object?
    ensures Kind(v) == ArrayType <==> v.Array?
    ensures v.Simple? ==> Some(Kind(v)) == LeafKind(v.token.tokenType)
  {
  }
}
