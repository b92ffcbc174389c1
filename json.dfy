/**
 * The streaming JSON reader the report decoder drives, as a sequence of
 * lexical tokens with a cursor. A lexical error is a `Broken` token;
 * reading it, or reading past the end of the input, is the reader's
 * IOException. After an IOException the reader yields nothing further.
 */
module Json {
  import opened Wrappers

  datatype Token =
    | BeginObject | EndObject | BeginArray | EndArray
    | Name(name: string)
    | Str(s: string)
    | Num(n: int)
    | Bool(b: bool)
    | Null
    | Broken

  /** The exceptions the decoder can meet; IllegalArgument is `StoreType.valueOf` on an unknown name. */
  datatype Fault = IOFailure | IllegalState | NumberFormat | IllegalArgument

  /** A read: the value and the unread input, or the exception and the unread input. */
  datatype Read<T> = Got(value: T, rest: seq<Token>) | Fail(fault: Fault, rest: seq<Token>)

  const LONG_MIN: int := -0x8000_0000_0000_0000
  const LONG_MAX: int := 0x7FFF_FFFF_FFFF_FFFF

  predicate InLongRange(n: int)
  {
    LONG_MIN <= n <= LONG_MAX
  }

  /** The next read cannot produce a token. */
  predicate Stuck(ts: seq<Token>)
  {
    ts == [] || ts[0] == Broken
  }

  /** Reads never add input, and an IOException leaves the reader empty. */
  predicate Moves<T>(ts: seq<Token>, r: Read<T>)
  {
    |r.rest| <= |ts| && (r.Fail? && r.fault == IOFailure ==> r.rest == [])
  }

  function FaultOf<T>(r: Read<T>): Option<Fault>
  {
    if r.Fail? then Some(r.fault) else None
  }

  function AsResult<T>(r: Read<T>): Result<T, Fault>
  {
    match r
    case Got(v, _) => Ok(v)
    case Fail(f, _) => Err(f)
  }

  predicate IsBracket(t: Token)
  {
    t.BeginObject? || t.EndObject? || t.BeginArray? || t.EndArray?
  }

  /** beginObject, endObject, beginArray, endArray: consume exactly that token. */
  function Expect(ts: seq<Token>, t: Token): (r: Read<()>)
    requires IsBracket(t)
    ensures Moves(ts, r)
    ensures r.Got? <==> ts != [] && ts[0] == t
    ensures r.Got? ==> r.rest == ts[1..]
    ensures r.Fail? ==> (r.fault == IOFailure <==> Stuck(ts)) && (r.fault != IOFailure ==> r.fault == IllegalState && r.rest == ts)
  {
    if Stuck(ts) then Fail(IOFailure, []) else if ts[0] == t then Got((), ts[1..]) else Fail(IllegalState, ts)
  }

  /** hasNext: peeks, and is false exactly before a closing bracket. */
  function HasNext(ts: seq<Token>): (r: Read<bool>)
    ensures Moves(ts, r)
    ensures r.Fail? <==> Stuck(ts)
    ensures r.Fail? ==> r.fault == IOFailure
    ensures r.Got? ==> r.rest == ts && (r.value <==> !(ts[0].EndObject? || ts[0].EndArray?))
  {
    if Stuck(ts) then Fail(IOFailure, []) else Got(!(ts[0].EndObject? || ts[0].EndArray?), ts)
  }

  /** nextName: a name, or IllegalStateException on any other token. */
  function NextName(ts: seq<Token>): (r: Read<string>)
    ensures Moves(ts, r)
    ensures r.Got? <==> ts != [] && ts[0].Name?
    ensures r.Got? ==> r.value == ts[0].name && r.rest == ts[1..]
    ensures r.Fail? ==> (r.fault == IOFailure <==> Stuck(ts)) && (r.fault != IOFailure ==> r.fault == IllegalState && r.rest == ts)
  {
    if Stuck(ts) then Fail(IOFailure, []) else if ts[0].Name? then Got(ts[0].name, ts[1..]) else Fail(IllegalState, ts)
  }

  /** nextString: a string value, or IllegalStateException on any other token. */
  function NextString(ts: seq<Token>): (r: Read<string>)
    ensures Moves(ts, r)
    ensures r.Got? <==> ts != [] && ts[0].Str?
    ensures r.Got? ==> r.value == ts[0].s && r.rest == ts[1..]
    ensures r.Fail? ==> (r.fault == IOFailure <==> Stuck(ts)) && (r.fault != IOFailure ==> r.fault == IllegalState && r.rest == ts)
  {
    if Stuck(ts) then Fail(IOFailure, []) else if ts[0].Str? then Got(ts[0].s, ts[1..]) else Fail(IllegalState, ts)
  }

  /** nextLong: a number that fits a long; NumberFormatException when it does not, IllegalStateException on a non-number. */
  function NextLong(ts: seq<Token>): (r: Read<int>)
    ensures Moves(ts, r)
    ensures r.Got? <==> ts != [] && ts[0].Num? && InLongRange(ts[0].n)
    ensures r.Got? ==> r.value == ts[0].n && r.rest == ts[1..]
    ensures r.Fail? && r.fault == NumberFormat <==> ts != [] && ts[0].Num? && !InLongRange(ts[0].n)
    ensures r.Fail? ==> (r.fault == IOFailure <==> Stuck(ts)) && (r.fault != IOFailure ==> r.rest == ts)
  {
    if Stuck(ts) then Fail(IOFailure, [])
    else if ts[0].Num? then (if InLongRange(ts[0].n) then Got(ts[0].n, ts[1..]) else Fail(NumberFormat, ts))
    else Fail(IllegalState, ts)
  }

  /**
   * skipValue from inside `depth` open brackets: brackets count up and
   * down, names inside brackets are skipped with their values, and the
   * skip ends when the count returns to zero. A closing bracket or a name
   * where a value must start is a lexical error.
   */
  function Skip(ts: seq<Token>, depth: nat): (r: Read<()>)
    ensures Moves(ts, r)
    ensures r.Fail? ==> r.fault == IOFailure
    ensures r.Got? ==> |r.rest| < |ts|
    decreases |ts|, 1
  {
    if ts == [] then Fail(IOFailure, [])
    else match ts[0]
      case Broken => Fail(IOFailure, [])
      case BeginObject => Skip(ts[1..], depth + 1)
      case BeginArray => Skip(ts[1..], depth + 1)
      case EndObject => if depth == 0 then Fail(IOFailure, []) else if depth == 1 then Got((), ts[1..]) else Skip(ts[1..], depth - 1)
      case EndArray => if depth == 0 then Fail(IOFailure, []) else if depth == 1 then Got((), ts[1..]) else Skip(ts[1..], depth - 1)
      case Name(_) => if depth == 0 then Fail(IOFailure, []) else Skip(ts[1..], depth)
      case Str(_) => SkipScalar(ts, depth)
      case Num(_) => SkipScalar(ts, depth)
      case Bool(_) => SkipScalar(ts, depth)
      case Null => SkipScalar(ts, depth)
  }

  function SkipScalar(ts: seq<Token>, depth: nat): (r: Read<()>)
    requires ts != []
    ensures Moves(ts, r)
    ensures r.Fail? ==> r.fault == IOFailure
    ensures r.Got? ==> |r.rest| < |ts|
    decreases |ts|, 0
  {
    if depth == 0 then Got((), ts[1..]) else Skip(ts[1..], depth)
  }

  /** A JSON value, as a document holds it. */
  datatype JValue =
    | JString(s: string)
    | JNumber(n: int)
    | JBool(b: bool)
    | JNull
    | JArray(items: seq<JValue>)
    | JObject(members: seq<Member>)

  datatype Member = Member(key: string, value: JValue)

  /** The tokens the lexer produces for a value. */
  function Tokens(v: JValue): (ts: seq<Token>)
    ensures ts != [] && !ts[0].Name? && !ts[0].EndObject? && !ts[0].EndArray? && ts[0] != Broken
    decreases v, 1
  {
    match v
    case JString(s) => [Str(s)]
    case JNumber(n) => [Num(n)]
    case JBool(b) => [Bool(b)]
    case JNull => [Null]
    case JArray(items) => [BeginArray] + ItemsTokens(items) + [EndArray]
    case JObject(ms) => [BeginObject] + MembersTokens(ms) + [EndObject]
  }

  function ItemsTokens(items: seq<JValue>): seq<Token>
    decreases items, 0
  {
    if items == [] then [] else Tokens(items[0]) + ItemsTokens(items[1..])
  }

  function MembersTokens(ms: seq<Member>): seq<Token>
    decreases ms, 0
  {
    if ms == [] then [] else [Name(ms[0].key)] + Tokens(ms[0].value) + MembersTokens(ms[1..])
  }

  /** Skipping a value consumes exactly its tokens, at any depth. */
  lemma {:induction false} SkipTokens(v: JValue, rest: seq<Token>, depth: nat)
    ensures Skip(Tokens(v) + rest, depth) == if depth == 0 then Got((), rest) else Skip(rest, depth)
    decreases v, 1
  {
    match v
    case JArray(items) =>
      var inner := ItemsTokens(items) + ([EndArray] + rest);
      ArrayTokens(items, rest);
      SkipOpen(BeginArray, inner, depth);
      SkipItems(items, [EndArray] + rest, depth + 1);
      SkipClose(EndArray, rest, depth + 1);
    case JObject(ms) =>
      var inner := MembersTokens(ms) + ([EndObject] + rest);
      ObjectTokens(ms, rest);
      SkipOpen(BeginObject, inner, depth);
      SkipMembers(ms, [EndObject] + rest, depth + 1);
      SkipClose(EndObject, rest, depth + 1);
    case JString(s) =>
      SkipScalarToken(Str(s), rest, depth);
    case JNumber(n) =>
      SkipScalarToken(Num(n), rest, depth);
    case JBool(b) =>
      SkipScalarToken(Bool(b), rest, depth);
    case JNull =>
      SkipScalarToken(Null, rest, depth);
  }

  /** The tokens of an array, followed by `rest`, grouped as the reader meets them. */
  lemma ArrayTokens(items: seq<JValue>, rest: seq<Token>)
    ensures Tokens(JArray(items)) + rest == [BeginArray] + (ItemsTokens(items) + ([EndArray] + rest))
    ensures ItemsTokens(items) + ([EndArray] + rest) == ItemsTokens(items) + [EndArray] + rest
  {
  }

  /** The tokens of an object, followed by `rest`, grouped as the reader meets them. */
  lemma ObjectTokens(ms: seq<Member>, rest: seq<Token>)
    ensures Tokens(JObject(ms)) + rest == [BeginObject] + (MembersTokens(ms) + ([EndObject] + rest))
    ensures MembersTokens(ms) + ([EndObject] + rest) == MembersTokens(ms) + [EndObject] + rest
  {
  }

  lemma SkipOpen(t: Token, rest: seq<Token>, depth: nat)
    requires t.BeginObject? || t.BeginArray?
    ensures Skip([t] + rest, depth) == Skip(rest, depth + 1)
  {
    assert ([t] + rest)[1..] == rest;
  }

  lemma SkipClose(t: Token, rest: seq<Token>, depth: nat)
    requires t.EndObject? || t.EndArray?
    requires depth > 0
    ensures Skip([t] + rest, depth) == if depth == 1 then Got((), rest) else Skip(rest, depth - 1)
  {
    assert ([t] + rest)[1..] == rest;
  }

  lemma SkipScalarToken(t: Token, rest: seq<Token>, depth: nat)
    requires t.Str? || t.Num? || t.Bool? || t.Null?
    ensures Skip([t] + rest, depth) == if depth == 0 then Got((), rest) else Skip(rest, depth)
  {
    assert ([t] + rest)[1..] == rest;
  }

  lemma {:induction false} SkipItems(items: seq<JValue>, rest: seq<Token>, depth: nat)
    requires depth > 0
    ensures Skip(ItemsTokens(items) + rest, depth) == Skip(rest, depth)
    decreases items, 0
  {
    if items != [] {
      assert ItemsTokens(items) + rest == Tokens(items[0]) + (ItemsTokens(items[1..]) + rest);
      SkipTokens(items[0], ItemsTokens(items[1..]) + rest, depth);
      SkipItems(items[1..], rest, depth);
    } else {
      assert ItemsTokens(items) + rest == rest;
    }
  }

  lemma {:induction false} SkipMembers(ms: seq<Member>, rest: seq<Token>, depth: nat)
    requires depth > 0
    ensures Skip(MembersTokens(ms) + rest, depth) == Skip(rest, depth)
    decreases ms, 0
  {
    if ms != [] {
      var tail := Tokens(ms[0].value) + (MembersTokens(ms[1..]) + rest);
      assert MembersTokens(ms) + rest == [Name(ms[0].key)] + tail;
      assert ([Name(ms[0].key)] + tail)[1..] == tail;
      SkipTokens(ms[0].value, MembersTokens(ms[1..]) + rest, depth);
      SkipMembers(ms[1..], rest, depth);
    } else {
      assert MembersTokens(ms) + rest == rest;
    }
  }

  /** The reader: the unread input is its cursor. */
  class JsonReader {
    var input: seq<Token>

    constructor (ts: seq<Token>)
      ensures input == ts
    {
      input := ts;
    }

    method Consume(t: Token) returns (f: Option<Fault>)
      requires IsBracket(t)
      modifies this
      ensures var r := Expect(old(input), t); input == r.rest && f == FaultOf(r)
    {
      var r := Expect(input, t);
      input := r.rest;
      f := FaultOf(r);
    }

    method HasNextToken() returns (r: Result<bool, Fault>)
      modifies this
      ensures var s := HasNext(old(input)); input == s.rest && r == AsResult(s)
    {
      var s := HasNext(input);
      input := s.rest;
      r := AsResult(s);
    }

    method NextNameToken() returns (r: Result<string, Fault>)
      modifies this
      ensures var s := NextName(old(input)); input == s.rest && r == AsResult(s)
    {
      var s := NextName(input);
      input := s.rest;
      r := AsResult(s);
    }

    method NextStringToken() returns (r: Result<string, Fault>)
      modifies this
      ensures var s := NextString(old(input)); input == s.rest && r == AsResult(s)
    {
      var s := NextString(input);
      input := s.rest;
      r := AsResult(s);
    }

    method NextLongToken() returns (r: Result<int, Fault>)
      modifies this
      ensures var s := NextLong(old(input)); input == s.rest && r == AsResult(s)
    {
      var s := NextLong(input);
      input := s.rest;
      r := AsResult(s);
    }

    /** skipValue, token by token with a bracket count. */
    method SkipValue() returns (f: Option<Fault>)
      modifies this
      ensures var r := Skip(old(input), 0); input == r.rest && f == FaultOf(r)
    {
      var count: nat := 0;
      while true
        invariant Skip(input, count) == Skip(old(input), 0)
        decreases |input|
      {
        if input == [] || input[0] == Broken {
          input := [];
          return Some(IOFailure);
        }
        var t := input[0];
        if t.BeginObject? || t.BeginArray? {
          count := count + 1;
        } else if t.EndObject? || t.EndArray? || t.Name? {
          if count == 0 {
            input := [];
            return Some(IOFailure);
          }
          if !t.Name? {
            count := count - 1;
          }
        }
        input := input[1..];
        if count == 0 {
          return None;
        }
      }
    }
  }
}
