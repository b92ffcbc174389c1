/**
 * The decisions the proxy service takes without the network: which upstream
 * response headers pass, which trace id goes downstream, which requests are
 * tracked and with which entry, the timeout setting and the 500 fallback.
 */
module ProxyRules {
  import opened Wrappers
  import opened Model
  import opened Http
  import opened Retry

  // ---------------------------------------------------------------------
  // Response conversion

  /** `respHeaderAllowed`: everything except Content-Length and Connection, ignoring case. */
  predicate RespHeaderAllowed(key: string)
  {
    !(EqualsIgnoreCaseLit(key, "content-length") || EqualsIgnoreCaseLit(key, "connection"))
  }

  function FilterResponseHeaders(hs: seq<Header>): seq<Header>
  {
    Without(hs, k => !RespHeaderAllowed(k))
  }

  lemma AsciiFold(c: char)
    requires c < '\U{0080}'
    ensures FoldToAscii(c) == AsciiLower(c)
  {
  }

  lemma {:induction false} EqualsIgnoreCaseAscii(key: string, lit: string)
    requires IsAscii(key)
    ensures EqualsIgnoreCaseLit(key, lit) <==> AsciiLowerString(key) == lit
  {
    if |key| == |lit| {
      forall i | 0 <= i < |key| ensures FoldToAscii(key[i]) == AsciiLowerString(key)[i] {
        AsciiFold(key[i]);
      }
      if AsciiLowerString(key) == lit {
        assert forall i :: 0 <= i < |key| ==> FoldToAscii(key[i]) == lit[i];
      }
    }
  }

  /** On ASCII names the filter drops exactly the two names, in any letter case. */
  lemma RespHeaderAllowedAscii(key: string)
    requires IsAscii(key)
    ensures RespHeaderAllowed(key) <==> AsciiLowerString(key) !in {"content-length", "connection"}
  {
    EqualsIgnoreCaseAscii(key, "content-length");
    EqualsIgnoreCaseAscii(key, "connection");
  }

  /** Java's case rules also take a dotless i for an i: this "Connection" is dropped too. */
  lemma DotlessIConnectionDropped()
    ensures !RespHeaderAllowed("Connect\U{0131}on")
  {
    assert EqualsIgnoreCaseLit("Connect\U{0131}on", "connection");
  }

  /** The response status, reason, headers and entity `convertProxyResp` builds. */
  function Converted(resp: ProxyResponse): Response
  {
    Response(resp.statusCode, resp.statusMessage, FilterResponseHeaders(resp.headers),
             if resp.body.Some? then Some(Bytes(resp.body.value)) else None)
  }

  /**
   * Status code and message are copied verbatim, the body becomes the entity,
   * every allowed header is kept in order and no Content-Length or Connection
   * header gets through.
   */
  lemma ConvertedFacts(resp: ProxyResponse)
    ensures var r := Converted(resp);
      r.status == resp.statusCode && r.reason == resp.statusMessage
      && (r.entity.Some? <==> resp.body.Some?)
      && (resp.body.Some? ==> r.entity == Some(Bytes(resp.body.value)))
      && (forall h :: h in r.headers <==> h in resp.headers && RespHeaderAllowed(h.0))
      && (forall i :: 0 <= i < |r.headers| ==>
            !EqualsIgnoreCaseLit(r.headers[i].0, "content-length") && !EqualsIgnoreCaseLit(r.headers[i].0, "connection"))
  {
    var r := Converted(resp);
    WithoutMembers(resp.headers, k => !RespHeaderAllowed(k));
    forall i | 0 <= i < |r.headers| ensures RespHeaderAllowed(r.headers[i].0) {
      assert r.headers[i] in r.headers;
    }
  }

  /** Converting a list of headers that are all allowed keeps it unchanged. */
  lemma ConvertedKeepsAllowedHeaders(resp: ProxyResponse)
    requires forall i :: 0 <= i < |resp.headers| ==> RespHeaderAllowed(resp.headers[i].0)
    ensures Converted(resp).headers == resp.headers
  {
    WithoutNothing(resp.headers, k => !RespHeaderAllowed(k));
  }

  // ---------------------------------------------------------------------
  // Outbound headers

  const HOST := "Host"
  const EXTERNAL_ID := "External-Id"
  const TRACE_ID := "Trace-Id"
  const HEADER_PROXY_TRACE_ID := "Proxy-Trace-Id"

  /** `getTraceId`: the External-Id header unless it is blank, else the freshly generated `uuid`. */
  function TraceId(headers: seq<Header>, uuid: string): (r: string)
    ensures !IsBlank(FirstValue(headers, EXTERNAL_ID)) ==> Some(r) == FirstValue(headers, EXTERNAL_ID)
    ensures IsBlank(FirstValue(headers, EXTERNAL_ID)) ==> r == uuid
  {
    var ext := FirstValue(headers, EXTERNAL_ID);
    if !IsBlank(ext) then ext.value else uuid
  }

  /** `getHeaders`: Host removed, then one Trace-Id appended (its value read after the removal). */
  function OutboundHeaders(inbound: seq<Header>, uuid: string): seq<Header>
  {
    var noHost := Removed(inbound, HOST);
    Added(noHost, TRACE_ID, TraceId(noHost, uuid))
  }

  /** The number of headers with this name, counted from the end of the list. */
  function CountNamedBack(hs: seq<Header>, name: string): nat
  {
    if hs == [] then 0
    else CountNamedBack(hs[..|hs| - 1], name) + (if NameEq(hs[|hs| - 1].0, name) then 1 else 0)
  }

  lemma {:induction false} RemovedKeepsOtherCount(hs: seq<Header>, gone: string, name: string)
    requires !NameEq(name, gone)
    requires forall k :: NameEq(k, name) ==> !NameEq(k, gone)
    ensures CountNamedBack(Removed(hs, gone), name) == CountNamedBack(hs, name)
    decreases |hs|
  {
    if hs != [] {
      RemovedKeepsOtherCount(hs[..|hs| - 1], gone, name);
      var rest := Removed(hs[..|hs| - 1], gone);
      var tail := if NameEq(hs[|hs| - 1].0, gone) then [] else [hs[|hs| - 1]];
      assert Removed(hs, gone) == rest + tail;
      if tail != [] {
        assert (rest + tail)[..|rest + tail| - 1] == rest;
      } else {
        assert rest + tail == rest;
      }
    }
  }

  lemma TraceIdIsNotHost(k: string)
    requires NameEq(k, TRACE_ID)
    ensures !NameEq(k, HOST)
  {
    assert AsciiLower(k[0]) == 't';
  }

  /**
   * The outbound headers are the inbound ones without any Host header, in
   * their order, followed by one Trace-Id header carrying the chosen trace id;
   * a Trace-Id the caller sent is kept, so the count goes up by exactly one.
   */
  lemma OutboundHeadersFacts(inbound: seq<Header>, uuid: string)
    ensures var r := OutboundHeaders(inbound, uuid);
      |r| >= 1
      && r[|r| - 1] == (TRACE_ID, TraceId(Removed(inbound, HOST), uuid))
      && r[..|r| - 1] == Removed(inbound, HOST)
      && (forall h :: h in r[..|r| - 1] <==> h in inbound && !NameEq(h.0, HOST))
      && (forall i :: 0 <= i < |r| ==> !NameEq(r[i].0, HOST))
      && CountNamedBack(r, TRACE_ID) == CountNamedBack(inbound, TRACE_ID) + 1
  {
    var noHost := Removed(inbound, HOST);
    var r := OutboundHeaders(inbound, uuid);
    WithoutMembers(inbound, k => NameEq(k, HOST));
    assert r[..|r| - 1] == noHost;
    forall i | 0 <= i < |r| ensures !NameEq(r[i].0, HOST) {
      if i < |r| - 1 {
        assert r[i] in noHost;
      } else {
        assert !NameEq(TRACE_ID, HOST);
      }
    }
    forall k | NameEq(k, TRACE_ID) ensures !NameEq(k, HOST) {
      TraceIdIsNotHost(k);
    }
    RemovedKeepsOtherCount(inbound, HOST, TRACE_ID);
    assert NameEq(TRACE_ID, TRACE_ID);
  }

  // ---------------------------------------------------------------------
  // Path segments: String.split("/")

  /** All pieces between the '/' separators, empty ones included. */
  function SplitAll(s: string): (r: seq<string>)
    ensures |r| >= 1
  {
    if s == [] then [""]
    else
      var rest := SplitAll(s[1..]);
      if s[0] == '/' then [""] + rest else [[s[0]] + rest[0]] + rest[1..]
  }

  function Join(ps: seq<string>): string
    requires |ps| >= 1
  {
    if |ps| == 1 then ps[0] else ps[0] + "/" + Join(ps[1..])
  }

  /** Splitting loses nothing: the pieces joined by '/' are the string, and no piece holds a '/'. */
  lemma {:induction false} SplitAllJoin(s: string)
    ensures Join(SplitAll(s)) == s
    ensures forall i :: 0 <= i < |SplitAll(s)| ==> '/' !in SplitAll(s)[i]
  {
    if s != [] {
      SplitAllJoin(s[1..]);
      var rest := SplitAll(s[1..]);
      if s[0] == '/' {
        assert SplitAll(s)[1..] == rest;
        assert s == [s[0]] + s[1..];
      } else {
        var r := SplitAll(s);
        if |rest| == 1 {
          assert s == [s[0]] + rest[0];
        } else {
          assert r[1..] == rest[1..];
          assert Join(rest) == rest[0] + "/" + Join(rest[1..]);
          assert s == [s[0]] + s[1..];
        }
        forall i | 0 <= i < |r| ensures '/' !in r[i] {
          if i > 0 {
            assert r[i] == rest[i];
          } else {
            assert r[0] == [s[0]] + rest[0];
          }
        }
      }
    }
  }

  function StripTrailingEmpty(ps: seq<string>): (r: seq<string>)
    ensures |r| <= |ps| && r == ps[..|r|]
    ensures forall i :: |r| <= i < |ps| ==> ps[i] == ""
    ensures r != [] ==> r[|r| - 1] != ""
  {
    if ps == [] then []
    else if ps[|ps| - 1] == "" then StripTrailingEmpty(ps[..|ps| - 1])
    else ps
  }

  /**
   * `path.split("/")`: without any '/', the string itself; otherwise the pieces
   * with the trailing empty ones removed.
   */
  function JavaSplit(s: string): seq<string>
  {
    if '/' !in s then [s] else StripTrailingEmpty(SplitAll(s))
  }

  lemma {:induction false} SplitAllNoSlash(s: string)
    requires '/' !in s
    ensures SplitAll(s) == [s]
  {
    if s != [] {
      SplitAllNoSlash(s[1..]);
      assert s == [s[0]] + s[1..];
    }
  }

  /** A first piece without '/' splits off whole. */
  lemma {:induction false} SplitAllFirst(a: string, b: string)
    requires '/' !in a
    ensures SplitAll(a + "/" + b) == [a] + SplitAll(b)
  {
    if a == [] {
      assert a + "/" + b == ['/'] + b;
      assert (['/'] + b)[1..] == b;
    } else {
      SplitAllFirst(a[1..], b);
      assert (a + "/" + b)[1..] == a[1..] + "/" + b;
      assert a == [a[0]] + a[1..];
    }
  }

  /**
   * The segments of `JavaSplit` are the pieces of the path in order, with no
   * '/' in them; the pieces it leaves off are exactly the trailing empty ones.
   */
  lemma JavaSplitFacts(s: string)
    ensures var el := JavaSplit(s); var all := SplitAll(s);
      |el| <= |all| && el == all[..|el|]
      && (forall i :: |el| <= i < |all| ==> all[i] == "")
      && (forall i :: 0 <= i < |el| ==> '/' !in el[i])
      && Join(all) == s
  {
    SplitAllJoin(s);
    if '/' !in s {
      SplitAllNoSlash(s);
    }
  }

  // ---------------------------------------------------------------------
  // Tracking decision

  /** What the segment checks of doGet/doPost/doPut decide. */
  datatype Tracking =
    | Untracked
    | Tracked(storeKey: StoreKey)
    | SegmentMissing   // the ArrayIndexOutOfBoundsException of an unchecked `elements[i]`

  /** The store types a GET tracks, and the one an upload tracks. */
  const GET_TRACKED: set<string> := {"hosted", "group", "remote"}
  const UPLOAD_TRACKED: set<string> := {"hosted"}

  /**
   * `elements[2].equals("maven") && elements[3] in stores`, evaluated left to
   * right, then `new StoreKey(elements[2], StoreType.valueOf(elements[3]), elements[4])`.
   */
  function TrackingOf(path: string, stores: set<string>): (d: Tracking)
    requires stores <= GET_TRACKED
    ensures var el := JavaSplit(path);
      (d.Tracked? <==> |el| >= 5 && el[2] == "maven" && el[3] in stores)
      && (d.Tracked? ==> d.storeKey.packageType == "maven" && d.storeKey.name == el[4]
                          && d.storeKey.storeType.Some? && StoreTypeName(d.storeKey.storeType.value) == el[3])
      && (d.SegmentMissing? <==>
            |el| < 3 || (el[2] == "maven" && (|el| < 4 || (el[3] in stores && |el| < 5))))
  {
    var el := JavaSplit(path);
    if |el| < 3 then SegmentMissing
    else if el[2] != "maven" then Untracked
    else if |el| < 4 then SegmentMissing
    else if el[3] !in stores then Untracked
    else if |el| < 5 then SegmentMissing
    else Tracked(StoreKey(el[2], StoreTypeOf(el[3]), el[4]))
  }

  /** An upload that is tracked is tracked as a GET too, and always against a hosted store. */
  lemma UploadTrackedIsHosted(path: string)
    ensures TrackingOf(path, UPLOAD_TRACKED).Tracked? ==>
              TrackingOf(path, GET_TRACKED) == TrackingOf(path, UPLOAD_TRACKED)
              && TrackingOf(path, UPLOAD_TRACKED).storeKey.storeType == Some(Hosted)
  {
  }

  lemma {:induction false} ContentPathPieces(base: string, store: string, name: string, sub: string)
    requires '/' !in base && '/' !in store && '/' !in name
    ensures SplitAll("/" + base + "/maven/" + store + "/" + name + "/" + sub)
              == ["", base, "maven", store, name] + SplitAll(sub)
  {
    var t4 := name + "/" + sub;
    var t3 := store + "/" + t4;
    var t2 := "maven" + "/" + t3;
    var t1 := base + "/" + t2;
    assert "/" + base + "/maven/" + store + "/" + name + "/" + sub == "" + "/" + t1;
    SplitAllFirst(name, sub);
    SplitAllFirst(store, t4);
    SplitAllFirst("maven", t3);
    SplitAllFirst(base, t2);
    SplitAllFirst("", t1);
  }

  /**
   * A content path `/<base>/maven/<store>/<name>/<sub>` is tracked exactly when
   * the store type is one of the tracked ones, against the key maven:<store>:<name>.
   */
  lemma ContentPathTracking(base: string, store: string, name: string, sub: string, stores: set<string>)
    requires stores <= GET_TRACKED
    requires '/' !in base && '/' !in store && '/' !in name && name != ""
    ensures TrackingOf("/" + base + "/maven/" + store + "/" + name + "/" + sub, stores)
              == if store in stores then Tracked(StoreKey("maven", StoreTypeOf(store), name)) else Untracked
  {
    var path := "/" + base + "/maven/" + store + "/" + name + "/" + sub;
    ContentPathPieces(base, store, name, sub);
    var all := SplitAll(path);
    assert path[0] == '/';
    var el := JavaSplit(path);
    assert el == StripTrailingEmpty(all);
    assert all[4] != "";
    assert el[..5] == all[..5];
  }

  /** "unknown" when no build-config id is available. */
  const UNKNOWN_BUILD := "unknown"

  /** The entry doGet/doPost/doPut construct before any payload is seen. */
  function NewEntry(buildConfigId: Option<string>, key: StoreKey, channel: string, host: string, path: string): (e: Entry)
    ensures e.trackingKey == Some(TrackingKey(if buildConfigId.Some? then buildConfigId.value else UNKNOWN_BUILD))
    ensures e.storeKey == Some(key) && e.accessChannel == channel && e.path == path
    ensures e.originUrl == "http://" + host + "/" + path
    ensures e.size == 0 && e.md5 == "" && e.sha1 == "" && e.sha256 == ""
  {
    Entry(Some(TrackingKey(if buildConfigId.Some? then buildConfigId.value else UNKNOWN_BUILD)),
          Some(key), channel, "http://" + host + "/" + path, path, 0, "", "", "")
  }

  // ---------------------------------------------------------------------
  // Digests

  /** MessageDigest for MD5, SHA-1 and SHA-256, left abstract. */
  datatype Digests = Digests(md5: seq<byte> -> seq<byte>, sha1: seq<byte> -> seq<byte>, sha256: seq<byte> -> seq<byte>)

  /** The hex digit for 0 <= n < 16, upper-case or lower-case. */
  function HexDigit(n: int, upper: bool): (c: char)
    requires 0 <= n < 16
  {
    if n < 10 then ('0' as int + n) as char
    else if upper then ('A' as int + n - 10) as char
    else ('a' as int + n - 10) as char
  }

  predicate IsLowerHexDigit(c: char)
  {
    '0' <= c <= '9' || 'a' <= c <= 'f'
  }

  /** `DatatypeConverter.printHexBinary`: two upper-case hex digits per byte. */
  function PrintHexBinary(bs: seq<byte>): (r: string)
    ensures |r| == 2 * |bs|
  {
    if bs == [] then ""
    else [HexDigit(bs[0] as int / 16, true), HexDigit(bs[0] as int % 16, true)] + PrintHexBinary(bs[1..])
  }

  /** `printHexBinary(d).toLowerCase()`. */
  function LowerHex(bs: seq<byte>): string
  {
    AsciiLowerString(PrintHexBinary(bs))
  }

  function HexValue(c: char): int
  {
    if '0' <= c <= '9' then c as int - '0' as int
    else if 'a' <= c <= 'f' then c as int - 'a' as int + 10
    else 0
  }

  /** Reads lower-case hex back into bytes. */
  function ParseLowerHex(s: string): seq<byte>
  {
    if |s| < 2 then []
    else
      var v := HexValue(s[0]) * 16 + HexValue(s[1]);
      [if 0 <= v < 256 then v as byte else 0] + ParseLowerHex(s[2..])
  }

  lemma {:induction false} LowerHexStep(bs: seq<byte>)
    requires bs != []
    ensures LowerHex(bs) == [HexDigit(bs[0] as int / 16, false), HexDigit(bs[0] as int % 16, false)] + LowerHex(bs[1..])
  {
    var u := PrintHexBinary(bs);
    var l := LowerHex(bs);
    var rest := LowerHex(bs[1..]);
    assert u == [HexDigit(bs[0] as int / 16, true), HexDigit(bs[0] as int % 16, true)] + PrintHexBinary(bs[1..]);
    assert l[0] == HexDigit(bs[0] as int / 16, false);
    assert l[1] == HexDigit(bs[0] as int % 16, false);
    assert l[2..] == rest;
  }

  /** The digests stored in an entry are lower-case hex, two digits per digest byte. */
  lemma {:induction false} LowerHexDigits(bs: seq<byte>)
    ensures |LowerHex(bs)| == 2 * |bs|
    ensures forall i :: 0 <= i < |LowerHex(bs)| ==> IsLowerHexDigit(LowerHex(bs)[i])
  {
    if bs != [] {
      LowerHexStep(bs);
      LowerHexDigits(bs[1..]);
      var l := LowerHex(bs);
      forall i | 0 <= i < |l| ensures IsLowerHexDigit(l[i]) {
        if i >= 2 {
          assert l[i] == LowerHex(bs[1..])[i - 2];
        }
      }
    }
  }

  /** The lower-case hex form loses nothing: it reads back to the digest bytes. */
  lemma {:induction false} LowerHexRoundTrip(bs: seq<byte>)
    ensures ParseLowerHex(LowerHex(bs)) == bs
  {
    if bs != [] {
      LowerHexStep(bs);
      LowerHexRoundTrip(bs[1..]);
      var l := LowerHex(bs);
      assert l[2..] == LowerHex(bs[1..]);
      var b := bs[0] as int;
      assert HexValue(HexDigit(b / 16, false)) == b / 16;
      assert HexValue(HexDigit(b % 16, false)) == b % 16;
      assert bs == [bs[0]] + bs[1..];
    }
  }

  /** An entry after its payload is known: `setSize` and the three digests of exactly these bytes. */
  function WithPayload(e: Entry, payload: seq<byte>, d: Digests): (r: Entry)
    ensures r.size == |payload|
    ensures r.md5 == LowerHex(d.md5(payload)) && r.sha1 == LowerHex(d.sha1(payload)) && r.sha256 == LowerHex(d.sha256(payload))
    ensures r.(size := e.size, md5 := e.md5, sha1 := e.sha1, sha256 := e.sha256) == e
  {
    e.(size := |payload|, md5 := LowerHex(d.md5(payload)), sha1 := LowerHex(d.sha1(payload)),
       sha256 := LowerHex(d.sha256(payload)))
  }

  // ---------------------------------------------------------------------
  // Timeout and failures

  /** `TimeUnit.MINUTES.toMillis(30)`. */
  const DEFAULT_TIMEOUT_MILLIS: int := 30 * 60 * 1000

  /**
   * `readTimeout`: the configured duration, parsed as `Duration.parse("pt" + value)`
   * (an abstract parser whose None stands for any exception), or the default when
   * the value is blank or does not parse.
   */
  function ReadTimeout(configured: Option<string>, parseDuration: string -> Option<int>): (t: int)
    ensures IsBlank(configured) ==> t == DEFAULT_TIMEOUT_MILLIS
    ensures !IsBlank(configured) && parseDuration("pt" + configured.value).None? ==> t == DEFAULT_TIMEOUT_MILLIS
    ensures !IsBlank(configured) && parseDuration("pt" + configured.value).Some? ==>
              t == parseDuration("pt" + configured.value).value
  {
    if IsBlank(configured) then DEFAULT_TIMEOUT_MILLIS
    else match parseDuration("pt" + configured.value)
      case Some(ms) => ms
      case None => DEFAULT_TIMEOUT_MILLIS
  }

  /** `"" + t.getCause()`: the cause's text, or "null". */
  function CauseText(t: Throwable): string
  {
    match t.cause
    case None => "null"
    case Some(c) => c.text
  }

  /** `handleProxyException`: status 500 with "<error>. Caused by: <cause>". */
  function HandleProxyException(t: Throwable): (r: Response)
    ensures r.status == 500 && r.headers == []
    ensures r.entity == Some(Text(t.text + ". Caused by: " + CauseText(t)))
  {
    Response(500, "Internal Server Error", [], Some(Text(t.text + ". Caused by: " + CauseText(t))))
  }

  /** The response for the outcome of the retried call: converted on success, 500 once it fails for good. */
  function Respond(o: Result<ProxyResponse, Throwable>): Response
  {
    match o
    case Ok(resp) => Converted(resp)
    case Err(t) => HandleProxyException(t)
  }

  /** The untracked `wrapAsyncCall`: run the call under the retry plan, then respond. */
  function WrapAsyncCall(c: RetryConfig, attempt: nat -> Result<ProxyResponse, Throwable>): Response
  {
    Respond(Run(Plan(c), attempt).outcome)
  }

  /**
   * What the caller gets is decided by the last attempt made: its converted
   * response if it succeeded, otherwise a 500 naming its failure. It is never
   * an exception.
   */
  lemma WrapAsyncCallFacts(c: RetryConfig, attempt: nat -> Result<ProxyResponse, Throwable>)
    ensures var n := Run(Plan(c), attempt).attempts;
      1 <= n && (c.count <= 0 ==> n == 1) && (c.count > 0 ==> n <= c.count + 1)
      && (attempt(n - 1).Ok? ==> WrapAsyncCall(c, attempt) == Converted(attempt(n - 1).value))
      && (attempt(n - 1).Err? ==>
            WrapAsyncCall(c, attempt) == HandleProxyException(attempt(n - 1).error))
  {
    RunCharacterized(Plan(c), attempt);
  }
}
