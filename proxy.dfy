/**
 * The proxy service: its timeout cell, the forwarding of each verb, and the
 * tracked entries it appends to the shared report. The classifier, the path
 * normalizer, the web client and the UUID generator are collaborators whose
 * answers arrive in an `Env` value.
 */
module Proxy {
  import opened Wrappers
  import opened Model
  import opened Http
  import opened Retry
  import opened ProxyRules

  datatype Verb = HEAD | GET | POST | PUT | DELETE

  /** The outbound call: verb, normalized path, headers, timeout and the body sent, if any. */
  datatype Outbound = Outbound(verb: Verb, path: string, headers: seq<Header>, timeout: int, body: Option<seq<byte>>)

  /** What the collaborators answer for one request. */
  datatype Env = Env(
    normalizePath: string -> string,                              // HttpUtils.normalizePath
    classify: string -> Option<Throwable>,                        // the classifier's failure for a path, if it fails
    send: (Outbound, nat) -> Result<ProxyResponse, Throwable>,    // the outcome of the k-th attempt of a call
    retry: RetryConfig,                                           // proxyConfiguration.getRetry()
    serviceHost: string,                                          // host of the first configured service
    buildConfigId: Option<string>,                                // getBuildConfigId(), None for null
    proxyTraceUuid: string,                                       // the UUID normalizePathAnd generates
    traceUuid: string,                                            // the UUID getTraceId generates
    digests: Digests,
    buildUrl: seq<string> -> string,                              // UrlUtils.buildUrl
    contentBasePath: string)                                      // CONTENT_REST_BASE_PATH

  /** The exception an unchecked `elements[i]` throws on a short path. */
  const SEGMENT_MISSING := Throwable(OtherFailure, "java.lang.ArrayIndexOutOfBoundsException", None)

  const CHANNEL_GENERIC_PROXY := "GENERIC_PROXY"
  const CHANNEL_NATIVE := "NATIVE"

  /** The attempts of one outbound call. */
  function Attempts(env: Env, ob: Outbound): nat -> Result<ProxyResponse, Throwable>
  {
    (k: nat) => env.send(ob, k)
  }

  /**
   * What forwarding did: the result (Err for an exception the classifier
   * raised), the inbound headers afterwards, and the outcome of the retried
   * call if one was made.
   */
  datatype Forwarded = Forwarded(result: Result<Response, Throwable>, headers: seq<Header>,
                                 outcome: Option<Result<ProxyResponse, Throwable>>)

  /** normalizePathAnd, then the classifier, then getHeaders and the retried call. */
  function Forwarding(verb: Verb, path: string, inbound: seq<Header>, timeout: int, env: Env,
                      body: Option<seq<byte>>): Forwarded
  {
    var marked := Replaced(inbound, HEADER_PROXY_TRACE_ID, env.proxyTraceUuid);
    var p := env.normalizePath(path);
    match env.classify(p)
    case Some(t) => Forwarded(Err(t), marked, None)
    case None =>
      var hs := OutboundHeaders(marked, env.traceUuid);
      var ob := Outbound(verb, p, hs, timeout, body);
      var o := Run(Plan(env.retry), Attempts(env, ob)).outcome;
      Forwarded(Ok(Respond(o)), hs, Some(o))
  }

  /** What a tracked GET appends: the entry with the response body as payload, when there is a body. */
  function TrackedAppend(outcome: Option<Result<ProxyResponse, Throwable>>, e: Entry, d: Digests): seq<Entry>
  {
    if outcome.Some? && outcome.value.Ok? && outcome.value.value.body.Some?
    then [WithPayload(e, outcome.value.value.body.value, d)]
    else []
  }

  /**
   * Forwarding never lets a transport failure escape: once the classifier
   * resolves the path, the result is a response, a 500 when the call failed
   * for good. The outbound call goes to the normalized path with the current
   * timeout, carries no Host header, ends with the Trace-Id header, and
   * carries the Proxy-Trace-Id set on the request.
   */
  lemma ForwardingFacts(verb: Verb, path: string, inbound: seq<Header>, timeout: int, env: Env, body: Option<seq<byte>>)
    ensures var f := Forwarding(verb, path, inbound, timeout, env, body);
      var p := env.normalizePath(path);
      (env.classify(p).Some? <==> f.result.Err?)
      && (f.result.Err? ==> f.result.error == env.classify(p).value && f.outcome.None?)
      && (f.result.Ok? ==>
            f.outcome.Some?
            && f.headers == OutboundHeaders(Replaced(inbound, HEADER_PROXY_TRACE_ID, env.proxyTraceUuid), env.traceUuid)
            && f.result.value == WrapAsyncCall(env.retry, Attempts(env, Outbound(verb, p, f.headers, timeout, body)))
            && (f.outcome.value.Err? ==> f.result.value.status == 500)
            && (f.outcome.value.Ok? ==> f.result.value == Converted(f.outcome.value.value)))
      && (f.result.Ok? ==>
            |f.headers| >= 1
            && f.headers[|f.headers| - 1].0 == TRACE_ID
            && (forall i :: 0 <= i < |f.headers| ==> !NameEq(f.headers[i].0, HOST))
            && (HEADER_PROXY_TRACE_ID, env.proxyTraceUuid) in f.headers)
  {
    var marked := Replaced(inbound, HEADER_PROXY_TRACE_ID, env.proxyTraceUuid);
    MarkedHeaders(marked, env.proxyTraceUuid, env.traceUuid);
  }

  /** The Proxy-Trace-Id set on the request survives into the outbound headers, which hold no Host and end with Trace-Id. */
  lemma MarkedHeaders(marked: seq<Header>, proxyTraceUuid: string, traceUuid: string)
    requires (HEADER_PROXY_TRACE_ID, proxyTraceUuid) in marked
    ensures var hs := OutboundHeaders(marked, traceUuid);
      |hs| >= 1 && hs[|hs| - 1].0 == TRACE_ID
      && (forall i :: 0 <= i < |hs| ==> !NameEq(hs[i].0, HOST))
      && (HEADER_PROXY_TRACE_ID, proxyTraceUuid) in hs
  {
    OutboundHeadersFacts(marked, traceUuid);
    var noHost := Removed(marked, HOST);
    assert !NameEq(HEADER_PROXY_TRACE_ID, HOST);
    WithoutMembers(marked, k => NameEq(k, HOST));
    assert (HEADER_PROXY_TRACE_ID, proxyTraceUuid) in noHost;
  }

  /** A tracked GET appends at most one entry: the prepared one with exactly the response body's size and digests. */
  lemma TrackedAppendFacts(outcome: Option<Result<ProxyResponse, Throwable>>, e: Entry, d: Digests)
    ensures var a := TrackedAppend(outcome, e, d);
      |a| <= 1
      && (|a| == 1 <==> outcome.Some? && outcome.value.Ok? && outcome.value.value.body.Some?)
      && (|a| == 1 ==> var b := outcome.value.value.body.value;
            a[0].size == |b| && a[0].md5 == LowerHex(d.md5(b)) && a[0].sha1 == LowerHex(d.sha1(b))
            && a[0].sha256 == LowerHex(d.sha256(b))
            && a[0].storeKey == e.storeKey && a[0].accessChannel == e.accessChannel
            && a[0].originUrl == e.originUrl && a[0].path == e.path)
  {
  }

  class ProxyService {
    /** The read timeout in milliseconds (volatile in the source). */
    var timeout: int
    /** The shared report; the service never reassigns it. */
    const trackedContent: TrackedContent

    constructor (tc: TrackedContent)
      ensures trackedContent == tc && timeout == 0
    {
      trackedContent := tc;
      timeout := 0;
    }

    /** `init`: the timeout read from the configuration at start-up. */
    method Init(configured: Option<string>, parseDuration: string -> Option<int>)
      modifies this`timeout
      ensures timeout == ReadTimeout(configured, parseDuration)
    {
      timeout := ReadTimeout(configured, parseDuration);
    }

    /**
     * `handleConfigChange`: the timeout is read again whatever the message;
     * a value that does not parse gives the default, not the previous timeout.
     */
    method HandleConfigChange(message: string, configured: Option<string>, parseDuration: string -> Option<int>)
      modifies this`timeout
      ensures timeout == ReadTimeout(configured, parseDuration)
      ensures !IsBlank(configured) && parseDuration("pt" + configured.value).None? ==> timeout == DEFAULT_TIMEOUT_MILLIS
    {
      timeout := ReadTimeout(configured, parseDuration);
    }

    /** `convertProxyResp`: the builder takes the status line, then each allowed header in turn, then the body. */
    method ConvertProxyResp(resp: ProxyResponse) returns (r: Response)
      ensures r == Converted(resp)
    {
      var hs: seq<Header> := [];
      var i := 0;
      while i < |resp.headers|
        invariant 0 <= i <= |resp.headers|
        invariant hs == FilterResponseHeaders(resp.headers[..i])
      {
        var h := resp.headers[i];
        assert resp.headers[..i + 1][..i] == resp.headers[..i];
        if RespHeaderAllowed(h.0) {
          hs := hs + [h];
        }
        i := i + 1;
      }
      assert resp.headers[..i] == resp.headers;
      var entity := if resp.body.Some? then Some(Bytes(resp.body.value)) else None;
      r := Response(resp.statusCode, resp.statusMessage, hs, entity);
    }

    /** The tracking `convertProxyResp`: the same response; with a body, the entry gets its payload and is appended. */
    method ConvertTrackedResp(resp: ProxyResponse, e: Entry, d: Digests) returns (r: Response)
      modifies trackedContent
      ensures r == Converted(resp)
      ensures trackedContent.downloads == old(trackedContent.downloads) + TrackedAppend(Some(Ok(resp)), e, d)
    {
      r := ConvertProxyResp(resp);
      if resp.body.Some? {
        trackedContent.AppendDownload(WithPayload(e, resp.body.value, d));
      }
    }

    /** `getHeaders`: the multimap wrapper shares the request's headers, so they change in place. */
    method GetHeaders(request: Request, uuid: string) returns (hs: seq<Header>)
      modifies request
      ensures hs == OutboundHeaders(old(request.headers), uuid) && request.headers == hs
    {
      var noHost := Removed(request.headers, HOST);
      request.headers := noHost;
      var traceId := TraceId(request.headers, uuid);
      request.headers := Added(request.headers, TRACE_ID, traceId);
      hs := request.headers;
    }

    /**
     * normalizePathAnd + classifyAnd + wrapAsyncCall, shared by every verb;
     * `entry` is the prepared entry of a tracked GET.
     */
    method Forward(verb: Verb, path: string, request: Request, env: Env, body: Option<seq<byte>>, entry: Option<Entry>)
      returns (r: Result<Response, Throwable>)
      modifies request, trackedContent
      ensures var f := Forwarding(verb, path, old(request.headers), timeout, env, body);
        r == f.result && request.headers == f.headers
        && trackedContent.downloads
           == old(trackedContent.downloads) + (if entry.Some? then TrackedAppend(f.outcome, entry.value, env.digests) else [])
    {
      request.SetHeader(HEADER_PROXY_TRACE_ID, env.proxyTraceUuid);
      var p := env.normalizePath(path);
      var failure := env.classify(p);
      if failure.Some? {
        return Err(failure.value);
      }
      var hs := GetHeaders(request, env.traceUuid);
      var ob := Outbound(verb, p, hs, timeout, body);
      var outcome := Run(Plan(env.retry), Attempts(env, ob)).outcome;
      match outcome {
        case Ok(resp) =>
          var resp' : Response;
          if entry.Some? {
            resp' := ConvertTrackedResp(resp, entry.value, env.digests);
          } else {
            resp' := ConvertProxyResp(resp);
          }
          r := Ok(resp');
        case Err(t) =>
          r := Ok(HandleProxyException(t));
      }
    }

    /** The content path the five-argument forms build. */
    static function ContentPath(env: Env, packageType: string, storeType: string, name: string, path: string): string
    {
      env.buildUrl([env.contentBasePath, packageType, storeType, name, path])
    }

    /** `doHead(path, request)`: forwarded, never tracked. */
    method DoHead(path: string, request: Request, env: Env) returns (r: Result<Response, Throwable>)
      modifies request, trackedContent
      ensures var f := Forwarding(HEAD, path, old(request.headers), timeout, env, None);
        r == f.result && request.headers == f.headers
      ensures trackedContent.downloads == old(trackedContent.downloads)
    {
      r := Forward(HEAD, path, request, env, None, None);
    }

    /** `doHead(packageType, type, name, path, request)`. */
    method DoHeadIn(packageType: string, storeType: string, name: string, path: string, request: Request, env: Env)
      returns (r: Result<Response, Throwable>)
      modifies request, trackedContent
      ensures var f := Forwarding(HEAD, ContentPath(env, packageType, storeType, name, path), old(request.headers), timeout, env, None);
        r == f.result && request.headers == f.headers
      ensures trackedContent.downloads == old(trackedContent.downloads)
    {
      r := DoHead(ContentPath(env, packageType, storeType, name, path), request, env);
    }

    /**
     * `doGet(path, request)`: a path whose segments 2 and 3 are "maven" and a
     * tracked store type prepares a GENERIC_PROXY entry, which is appended
     * with the response body as payload once the call returns a body.
     */
    method DoGet(path: string, request: Request, env: Env) returns (r: Result<Response, Throwable>)
      modifies request, trackedContent
      ensures var d := TrackingOf(path, GET_TRACKED);
        d.SegmentMissing? ==>
          r == Err(SEGMENT_MISSING) && request.headers == old(request.headers)
          && trackedContent.downloads == old(trackedContent.downloads)
      ensures var d := TrackingOf(path, GET_TRACKED);
        var f := Forwarding(GET, path, old(request.headers), timeout, env, None);
        !d.SegmentMissing? ==>
          r == f.result && request.headers == f.headers
          && trackedContent.downloads == old(trackedContent.downloads)
             + (if d.Tracked?
                then TrackedAppend(f.outcome, NewEntry(env.buildConfigId, d.storeKey, CHANNEL_GENERIC_PROXY, env.serviceHost, path), env.digests)
                else [])
    {
      var d := TrackingOf(path, GET_TRACKED);
      match d {
        case SegmentMissing =>
          r := Err(SEGMENT_MISSING);
        case Untracked =>
          r := Forward(GET, path, request, env, None, None);
        case Tracked(key) =>
          var e := NewEntry(env.buildConfigId, key, CHANNEL_GENERIC_PROXY, env.serviceHost, path);
          r := Forward(GET, path, request, env, None, Some(e));
      }
    }

    /** `doGet(packageType, type, name, path, request)`: the built content path goes through `doGet`. */
    method DoGetIn(packageType: string, storeType: string, name: string, path: string, request: Request, env: Env)
      returns (r: Result<Response, Throwable>)
      modifies request, trackedContent
      ensures var cp := ContentPath(env, packageType, storeType, name, path);
        var d := TrackingOf(cp, GET_TRACKED);
        var f := Forwarding(GET, cp, old(request.headers), timeout, env, None);
        (d.SegmentMissing? ==> r == Err(SEGMENT_MISSING) && request.headers == old(request.headers)
                               && trackedContent.downloads == old(trackedContent.downloads))
        && (!d.SegmentMissing? ==>
              r == f.result && request.headers == f.headers
              && trackedContent.downloads == old(trackedContent.downloads)
                 + (if d.Tracked?
                    then TrackedAppend(f.outcome, NewEntry(env.buildConfigId, d.storeKey, CHANNEL_GENERIC_PROXY, env.serviceHost, cp), env.digests)
                    else []))
    {
      r := DoGet(ContentPath(env, packageType, storeType, name, path), request, env);
    }

    /**
     * doPost and the stream-taking doPut: a "maven"/"hosted" path appends a
     * NATIVE entry with the request body as payload BEFORE the call is made,
     * whatever the call then does; the body is sent as it is.
     */
    method Upload(verb: Verb, path: string, body: seq<byte>, request: Request, env: Env) returns (r: Result<Response, Throwable>)
      requires verb == POST || verb == PUT
      modifies request, trackedContent
      ensures var d := TrackingOf(path, UPLOAD_TRACKED);
        d.SegmentMissing? ==>
          r == Err(SEGMENT_MISSING) && request.headers == old(request.headers)
          && trackedContent.downloads == old(trackedContent.downloads)
      ensures var d := TrackingOf(path, UPLOAD_TRACKED);
        var f := Forwarding(verb, path, old(request.headers), timeout, env, Some(body));
        !d.SegmentMissing? ==>
          r == f.result && request.headers == f.headers
          && trackedContent.downloads == old(trackedContent.downloads)
             + (if d.Tracked?
                then [WithPayload(NewEntry(env.buildConfigId, d.storeKey, CHANNEL_NATIVE, env.serviceHost, path), body, env.digests)]
                else [])
    {
      var d := TrackingOf(path, UPLOAD_TRACKED);
      match d {
        case SegmentMissing =>
          return Err(SEGMENT_MISSING);
        case Untracked =>
        case Tracked(key) =>
          var e := NewEntry(env.buildConfigId, key, CHANNEL_NATIVE, env.serviceHost, path);
          trackedContent.AppendDownload(WithPayload(e, body, env.digests));
      }
      r := Forward(verb, path, request, env, Some(body), None);
    }

    /** `doPost(path, is, request)`. */
    method DoPost(path: string, body: seq<byte>, request: Request, env: Env) returns (r: Result<Response, Throwable>)
      modifies request, trackedContent
      ensures var d := TrackingOf(path, UPLOAD_TRACKED);
        var f := Forwarding(POST, path, old(request.headers), timeout, env, Some(body));
        (d.SegmentMissing? ==> r == Err(SEGMENT_MISSING) && request.headers == old(request.headers)
                               && trackedContent.downloads == old(trackedContent.downloads))
        && (!d.SegmentMissing? ==>
              r == f.result && request.headers == f.headers
              && trackedContent.downloads == old(trackedContent.downloads)
                 + (if d.Tracked?
                    then [WithPayload(NewEntry(env.buildConfigId, d.storeKey, CHANNEL_NATIVE, env.serviceHost, path), body, env.digests)]
                    else []))
    {
      r := Upload(POST, path, body, request, env);
    }

    /** `doPut(path, is, request)`. */
    method DoPut(path: string, body: seq<byte>, request: Request, env: Env) returns (r: Result<Response, Throwable>)
      modifies request, trackedContent
      ensures var d := TrackingOf(path, UPLOAD_TRACKED);
        var f := Forwarding(PUT, path, old(request.headers), timeout, env, Some(body));
        (d.SegmentMissing? ==> r == Err(SEGMENT_MISSING) && request.headers == old(request.headers)
                               && trackedContent.downloads == old(trackedContent.downloads))
        && (!d.SegmentMissing? ==>
              r == f.result && request.headers == f.headers
              && trackedContent.downloads == old(trackedContent.downloads)
                 + (if d.Tracked?
                    then [WithPayload(NewEntry(env.buildConfigId, d.storeKey, CHANNEL_NATIVE, env.serviceHost, path), body, env.digests)]
                    else []))
    {
      r := Upload(PUT, path, body, request, env);
    }

    /** `doPut(packageType, type, name, path, request)`: a bodiless PUT to the content path, never tracked. */
    method DoPutIn(packageType: string, storeType: string, name: string, path: string, request: Request, env: Env)
      returns (r: Result<Response, Throwable>)
      modifies request, trackedContent
      ensures var f := Forwarding(PUT, ContentPath(env, packageType, storeType, name, path), old(request.headers), timeout, env, None);
        r == f.result && request.headers == f.headers
      ensures trackedContent.downloads == old(trackedContent.downloads)
    {
      r := Forward(PUT, ContentPath(env, packageType, storeType, name, path), request, env, None, None);
    }

    /** `doDelete(path, request)`: forwarded, never tracked. */
    method DoDelete(path: string, request: Request, env: Env) returns (r: Result<Response, Throwable>)
      modifies request, trackedContent
      ensures var f := Forwarding(DELETE, path, old(request.headers), timeout, env, None);
        r == f.result && request.headers == f.headers
      ensures trackedContent.downloads == old(trackedContent.downloads)
    {
      r := Forward(DELETE, path, request, env, None, None);
    }
  }
}
