/**
 * HTTP plumbing as plain values: header lists with the multimap operations
 * Vert.x provides, Java's character classes that the proxy relies on, and
 * the request and response records.
 */
module Http {
  import opened Wrappers
  import opened Model

  /** A header: its name and its value, in the order the multimap iterates them. */
  type Header = (string, string)

  /** ASCII lower-casing, the only case folding a Vert.x header multimap applies to names. */
  function AsciiLower(c: char): char
  {
    if 'A' <= c <= 'Z' then (c as int + 32) as char else c
  }

  /** Header-name equality of a Vert.x multimap: ASCII case-insensitive. */
  predicate NameEq(a: string, b: string)
  {
    |a| == |b| && forall i :: 0 <= i < |a| ==> AsciiLower(a[i]) == AsciiLower(b[i])
  }

  /**
   * The lower-case ASCII letter that Java's `equalsIgnoreCase` treats `c` as,
   * if any: the ASCII upper-case letters, and the four non-ASCII characters
   * whose Java case mapping reaches an ASCII letter (dotted capital I and
   * dotless small i give 'i', long s gives 's', the Kelvin sign gives 'k').
   */
  function FoldToAscii(c: char): char
  {
    if 'A' <= c <= 'Z' then (c as int + 32) as char
    else if c == '\U{0130}' || c == '\U{0131}' then 'i'
    else if c == '\U{017F}' then 's'
    else if c == '\U{212A}' then 'k'
    else c
  }

  /** `key.equalsIgnoreCase(lit)` for a literal `lit` written in lower-case ASCII. */
  predicate EqualsIgnoreCaseLit(key: string, lit: string)
  {
    |key| == |lit| && forall i :: 0 <= i < |key| ==> FoldToAscii(key[i]) == lit[i]
  }

  predicate IsAscii(s: string)
  {
    forall i :: 0 <= i < |s| ==> s[i] < '\U{0080}'
  }

  function AsciiLowerString(s: string): (r: string)
    ensures |r| == |s|
    ensures forall i :: 0 <= i < |s| ==> r[i] == AsciiLower(s[i])
  {
    seq(|s|, i requires 0 <= i < |s| => AsciiLower(s[i]))
  }

  /** `Character.isWhitespace`: Unicode space, line and paragraph separators except the no-break ones, and the controls TAB..CR and FS..US. */
  predicate IsJavaWhitespace(c: char)
  {
    ('\t' <= c <= '\r') || ('\U{001C}' <= c <= ' ')
    || c == '\U{1680}' || ('\U{2000}' <= c <= '\U{2006}') || ('\U{2008}' <= c <= '\U{200A}')
    || c == '\U{2028}' || c == '\U{2029}' || c == '\U{205F}' || c == '\U{3000}'
  }

  /** `StringUtils.isBlank`: null, empty, or whitespace only. */
  predicate IsBlank(s: Option<string>)
  {
    s.None? || forall i :: 0 <= i < |s.value| ==> IsJavaWhitespace(s.value[i])
  }

  /** The headers of `hs` whose names `drop` does not select, in their order. */
  function Without(hs: seq<Header>, drop: string -> bool): (r: seq<Header>)
    ensures |r| <= |hs|
    decreases |hs|
  {
    if hs == [] then []
    else Without(hs[..|hs| - 1], drop) + (if drop(hs[|hs| - 1].0) then [] else [hs[|hs| - 1]])
  }

  /** Filtering keeps exactly the headers whose names are not dropped. */
  lemma {:induction false} WithoutMembers(hs: seq<Header>, drop: string -> bool)
    ensures forall h :: h in Without(hs, drop) <==> h in hs && !drop(h.0)
    decreases |hs|
  {
    if hs != [] {
      WithoutMembers(hs[..|hs| - 1], drop);
      assert hs == hs[..|hs| - 1] + [hs[|hs| - 1]];
    }
  }

  /** Filtering preserves order: it distributes over concatenation. */
  lemma {:induction false} WithoutAppend(a: seq<Header>, b: seq<Header>, drop: string -> bool)
    ensures Without(a + b, drop) == Without(a, drop) + Without(b, drop)
    decreases |b|
  {
    if b == [] {
      assert a + b == a;
    } else {
      var b' := b[..|b| - 1];
      assert (a + b)[..|a + b| - 1] == a + b';
      WithoutAppend(a, b', drop);
    }
  }

  /** A list none of whose names is dropped comes through unchanged. */
  lemma {:induction false} WithoutNothing(hs: seq<Header>, drop: string -> bool)
    requires forall i :: 0 <= i < |hs| ==> !drop(hs[i].0)
    ensures Without(hs, drop) == hs
    decreases |hs|
  {
    if hs != [] {
      WithoutNothing(hs[..|hs| - 1], drop);
    }
  }

  /** `MultiMap.remove(name)`: every header with that name goes. */
  function Removed(hs: seq<Header>, name: string): seq<Header>
  {
    Without(hs, k => NameEq(k, name))
  }

  /** `MultiMap.add(name, value)`: appended after the existing headers. */
  function Added(hs: seq<Header>, name: string, value: string): seq<Header>
  {
    hs + [(name, value)]
  }

  /** `MultiMap.set(name, value)`: the existing headers of that name go, the new one is appended. */
  function Replaced(hs: seq<Header>, name: string, value: string): seq<Header>
  {
    Added(Removed(hs, name), name, value)
  }

  /** `MultiMap.get(name)`: the value of the first header with that name, or null. */
  function FirstValue(hs: seq<Header>, name: string): (r: Option<string>)
    ensures r.Some? <==> exists i :: 0 <= i < |hs| && NameEq(hs[i].0, name)
    ensures r.Some? ==> exists i :: 0 <= i < |hs| && NameEq(hs[i].0, name) && hs[i].1 == r.value
                          && forall j :: 0 <= j < i ==> !NameEq(hs[j].0, name)
  {
    if hs == [] then None
    else if NameEq(hs[0].0, name) then Some(hs[0].1)
    else
      var r := FirstValue(hs[1..], name);
      assert forall i :: 1 <= i < |hs| ==> hs[i] == hs[1..][i - 1];
      r
  }

  /** The number of headers with this name. */
  function CountNamed(hs: seq<Header>, name: string): nat
  {
    if hs == [] then 0 else (if NameEq(hs[0].0, name) then 1 else 0) + CountNamed(hs[1..], name)
  }

  /** An upstream response as the web client delivers it; a null body is None. */
  datatype ProxyResponse = ProxyResponse(statusCode: int, statusMessage: string, headers: seq<Header>, body: Option<seq<byte>>)

  /** What a response carries: raw bytes, a text, or the report rendered as JSON. */
  datatype Entity = Bytes(bytes: seq<byte>) | Text(text: string) | Report(downloads: seq<Entry>)

  /** A response returned to the caller (javax.ws.rs Response). */
  datatype Response = Response(status: int, reason: string, headers: seq<Header>, entity: Option<Entity>)

  /** The inbound request, whose header multimap the proxy changes in place. */
  class Request {
    var headers: seq<Header>

    constructor (hs: seq<Header>)
      ensures headers == hs
    {
      headers := hs;
    }

    /** `request.headers().set(name, value)`. */
    method SetHeader(name: string, value: string)
      modifies this
      ensures headers == Replaced(old(headers), name, value)
    {
      headers := Replaced(headers, name, value);
    }
  }
}
