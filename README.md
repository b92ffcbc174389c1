# Indy sidecar: proxy and build-report core, in Dafny

The sidecar sits in front of an Indy repository manager during a build. It
does two things:

- **ProxyService** forwards every HEAD, GET, POST, PUT and DELETE of the build
  to an upstream service. It strips Host, adds a Trace-Id, and marks the
  request with a fresh Proxy-Trace-Id. It retries I/O and Vert.x failures as
  the retry configuration says, and turns a failure that will not go away
  into a 500. It copies the upstream status, headers (minus Content-Length
  and Connection) and body back. For Maven content it records a tracked
  entry in the shared report:
  - a GET of a hosted, group or remote store is recorded with the downloaded
    body's size and MD5/SHA-1/SHA-256 digests;
  - a POST or PUT to a hosted store is recorded with the uploaded body.
- **ReportService** serves that report as JSON and resets it. When an
  archive has been decompressed, it reloads a persisted report from
  `<dir>/<buildConfigId>` with a streaming JSON reader, field by field.

Module layout:

| file | module | content |
|---|---|---|
| `wrappers.dfy` | `Wrappers` | `Option`, `Result` |
| `model.dfy` | `Model` | store keys, store types, tracked entries, the shared `TrackedContent` report (a class: it is appended to in place) |
| `http.dfy` | `Http` | header multimaps (`remove`, `add`, `set`, `get`), Java's `equalsIgnoreCase` and `isBlank`, the request whose headers change in place, upstream and downstream responses |
| `retry.dfy` | `Retry` | the retry policy around each outbound call, over an abstract attempt function |
| `proxy_rules.dfy` | `ProxyRules` | the proxy's pure decisions: header filter, trace id, `path.split("/")`, the tracking condition, the entry built for a tracked request, hex digests, `readTimeout`, the 500 response |
| `proxy.dfy` | `Proxy` | `ProxyService` as a class with its `timeout` field and its verbs, proved against the `Forwarding` specification |
| `json.dfy` | `Json` | the streaming reader as a token sequence with a cursor, with `skipValue` as a bracket-counting loop |
| `report.dfy` | `Report` | the decoder, specified token by token and on JSON values, with lemmas joining the two, and `ReportService` as a class whose methods are proved against the token-level specification |
| `roundtrip.dfy` | `ReportRoundTrip` | a report written as JSON and loaded back |
| `findings.dfy` | `Findings` | the two services sharing one report across a reset |

The web client, the classifier, the path normalizer, `UrlUtils.buildUrl`,
`Duration.parse`, the UUID generator and the message digests are
collaborators. Their answers reach the model as parameters: the `Env`
record of `Proxy`, the `parseDuration` function of `readTimeout`, and the
`Digests` record. The file system of `loadReport` is a map from paths to
token sequences.

Where the design and the code disagree, the model follows the code:

- `readTimeout` falls back to the 30-minute default when the configured
  value does not parse. It does not keep the previous timeout
  (`ProxyService.java:89-105`); `HandleConfigChange` states this.
- `getHeaders` uses `add`, not `set`, for Trace-Id. A caller who sends their
  own Trace-Id ends up with two (`ProxyService.java:381-383`);
  `OutboundHeadersFacts` states the count goes up by exactly one.

## Model

| member | source | states |
|---|---|---|
| Model.StoreTypeOf | src/main/java/org/commonjava/util/sidecar/services/ReportService.java:177 | `StoreType.valueOf` accepts exactly "hosted", "group" and "remote", each for its own constant; any other name is rejected |
| Model.StoreTypeName | src/main/java/org/commonjava/util/sidecar/services/ReportService.java:177 | the name written for a store type is read back by `valueOf` to the same type |
| Model.TrackedContent.constructor | src/main/java/org/commonjava/util/sidecar/services/ReportService.java:64 | a new report has no downloads |
| Model.TrackedContent.AppendDownload | src/main/java/org/commonjava/util/sidecar/services/ProxyService.java:358 | the entry is added after all existing downloads, which are kept |
| Model.TrackedContent.Clear | src/main/java/org/commonjava/util/sidecar/services/ReportService.java:63-67 | the report object itself ends with no downloads (used by the corrected reset) |
| Http.WithoutMembers | src/main/java/org/commonjava/util/sidecar/services/ProxyService.java:382 | removing headers by name keeps exactly the headers whose name is not matched |
| Http.WithoutAppend | src/main/java/org/commonjava/util/sidecar/services/ProxyService.java:382 | removal keeps the order of the remaining headers (it distributes over concatenation) |
| Http.WithoutNothing | src/main/java/org/commonjava/util/sidecar/services/ProxyService.java:382 | a list with no matching name comes through unchanged |
| Http.FirstValue | src/main/java/org/commonjava/util/sidecar/services/ProxyService.java:394 | `headers.get(name)` is present iff some header has the name (ignoring case), and is then the value of the first such header |
| Http.Request.constructor | src/main/java/org/commonjava/util/sidecar/services/ProxyService.java:380 | the request holds the headers it was given |
| Http.Request.SetHeader | src/main/java/org/commonjava/util/sidecar/services/ProxyService.java:407 | `set` removes every header of that name and appends the new one |
| Retry.Plan | src/main/java/org/commonjava/util/sidecar/services/ProxyService.java:262-275 | no retry iff count <= 0; otherwise up to `count` retries, with the configured interval when positive and 5000 ms otherwise |
| Retry.RunFromFacts | src/main/java/org/commonjava/util/sidecar/services/ProxyService.java:271-276 | from attempt i: the attempts made stay within the budget, and the outcome is the last attempt's. Every earlier attempt failed retryably, and the last one stops (success, non-retryable failure, or budget used up) |
| Retry.RunCharacterized | src/main/java/org/commonjava/util/sidecar/services/ProxyService.java:271-276 | between 1 and count + 1 attempts; the caller gets the last attempt's outcome; every earlier attempt was an IOException or VertxException; the last attempt is a reason to stop |
| Retry.RunUnique | src/main/java/org/commonjava/util/sidecar/services/ProxyService.java:271-274 | any attempt count meeting that characterization is the one the policy makes, so the characterization is complete |
| Retry.NoRetrySingleAttempt | src/main/java/org/commonjava/util/sidecar/services/ProxyService.java:264 | count <= 0: exactly one attempt, whose outcome surfaces |
| Retry.AllFailingExhausts | src/main/java/org/commonjava/util/sidecar/services/ProxyService.java:271-274 | count > 0 and every attempt fails retryably: count + 1 attempts, and the last attempt's failure is the outcome handed to the handler (unwrapped, see Left out) |
| Retry.FirstFinalOutcomeStops | src/main/java/org/commonjava/util/sidecar/services/ProxyService.java:271 | a first attempt that succeeds (whatever its HTTP status) or fails non-retryably is the only one |
| ProxyRules.EqualsIgnoreCaseAscii | src/main/java/org/commonjava/util/sidecar/services/ProxyService.java:375 | on ASCII names, Java's `equalsIgnoreCase` with a lower-case literal is equality after lower-casing |
| ProxyRules.RespHeaderAllowedAscii | src/main/java/org/commonjava/util/sidecar/services/ProxyService.java:372-376 | an ASCII header passes iff its lower-cased name is neither "content-length" nor "connection" |
| ProxyRules.DotlessIConnectionDropped | src/main/java/org/commonjava/util/sidecar/services/ProxyService.java:375 | Java's case rules also drop "Connectıon" (dotless i) |
| ProxyRules.ConvertedFacts | src/main/java/org/commonjava/util/sidecar/services/ProxyService.java:312-329 | status code and message are copied. A header is in the response iff it is an allowed upstream header, so no Content-Length or Connection gets through. The entity is the body's bytes iff there is a body (the order of the headers is kept by `ConvertProxyResp`'s loop and `WithoutAppend`) |
| ProxyRules.ConvertedKeepsAllowedHeaders | src/main/java/org/commonjava/util/sidecar/services/ProxyService.java:317-322 | when all upstream headers are allowed, they are all copied unchanged |
| ProxyRules.TraceId | src/main/java/org/commonjava/util/sidecar/services/ProxyService.java:392-396 | the trace id is the first External-Id value unless it is missing or blank, and the generated UUID otherwise |
| ProxyRules.OutboundHeadersFacts | src/main/java/org/commonjava/util/sidecar/services/ProxyService.java:378-386 | outbound headers are the inbound ones without Host, in order. A Trace-Id carrying the chosen trace id comes last. The Trace-Id count goes up by exactly one. No Host header remains |
| ProxyRules.SplitAllJoin | src/main/java/org/commonjava/util/sidecar/services/ProxyService.java:136 | the pieces between slashes, joined back with '/', give the path; no piece holds a '/' |
| ProxyRules.StripTrailingEmpty | src/main/java/org/commonjava/util/sidecar/services/ProxyService.java:136 | `split` drops trailing empty pieces only: the result is a prefix, what it drops is empty, its last piece is non-empty |
| ProxyRules.JavaSplitFacts | src/main/java/org/commonjava/util/sidecar/services/ProxyService.java:136 | `path.split("/")` gives the pieces between slashes, in order, without any '/'. It leaves out only trailing pieces, all of them empty |
| ProxyRules.TrackingOf | src/main/java/org/commonjava/util/sidecar/services/ProxyService.java:136-142 | tracked iff there are >= 5 segments, segment 2 is "maven" and segment 3 is a tracked store type; the key is maven:<type>:<segment 4>. An ArrayIndexOutOfBoundsException is raised exactly when the left-to-right evaluation reads a missing segment |
| ProxyRules.UploadTrackedIsHosted | src/main/java/org/commonjava/util/sidecar/services/ProxyService.java:162 | a tracked upload is also tracked as a GET, with the same key, always against a hosted store |
| ProxyRules.ContentPathTracking | src/main/java/org/commonjava/util/sidecar/services/ProxyService.java:136-142 | a path `/<base>/maven/<store>/<name>/<sub>` is tracked iff the store is a tracked type, with key maven:<store>:<name> |
| ProxyRules.NewEntry | src/main/java/org/commonjava/util/sidecar/services/ProxyService.java:140-144 | a new entry has tracking key from the build id ("unknown" if none), the store key, the given channel, origin "http://<host>/<path>", the path, size 0 and empty digests |
| ProxyRules.PrintHexBinary | src/main/java/org/commonjava/util/sidecar/services/ProxyService.java:351 | two hex digits per byte |
| ProxyRules.LowerHexDigits | src/main/java/org/commonjava/util/sidecar/services/ProxyService.java:351 | a stored digest has two characters per digest byte, all lower-case hex digits |
| ProxyRules.LowerHexRoundTrip | src/main/java/org/commonjava/util/sidecar/services/ProxyService.java:351 | the lower-case hex text reads back to the digest bytes (nothing is lost) |
| ProxyRules.WithPayload | src/main/java/org/commonjava/util/sidecar/services/ProxyService.java:344-357 | the entry gets size = payload length and the lower-hex MD5, SHA-1 and SHA-256 of exactly the payload; every other field is unchanged |
| ProxyRules.ReadTimeout | src/main/java/org/commonjava/util/sidecar/services/ProxyService.java:89-105 | blank or null setting: 30 minutes in ms; parsable "pt" + setting: the parsed value; unparsable: 30 minutes |
| ProxyRules.HandleProxyException | src/main/java/org/commonjava/util/sidecar/services/ProxyService.java:302-306 | status 500, entity "<throwable>. Caused by: <cause or null>" |
| ProxyRules.WrapAsyncCallFacts | src/main/java/org/commonjava/util/sidecar/services/ProxyService.java:260-277 | 1 attempt when count <= 0, at most count + 1 otherwise. The response is the converted last response when the last attempt succeeded, else the 500 for its failure, never an exception |
| Proxy.ForwardingFacts | src/main/java/org/commonjava/util/sidecar/services/ProxyService.java:404-409 | only a classifier exception escapes. Otherwise the response is `wrapAsyncCall` of the call to the normalized path, with the current timeout and the outbound headers; on final failure it is a 500. Those headers hold Proxy-Trace-Id, no Host, and end with Trace-Id |
| Proxy.TrackedAppendFacts | src/main/java/org/commonjava/util/sidecar/services/ProxyService.java:342-358 | a tracked GET appends one entry iff the call succeeded with a body, carrying that body's size and digests and the prepared key, channel, origin and path; otherwise none |
| Proxy.ProxyService.constructor | src/main/java/org/commonjava/util/sidecar/services/ProxyService.java:71-80 | the service holds the shared report |
| Proxy.ProxyService.Init | src/main/java/org/commonjava/util/sidecar/services/ProxyService.java:82-87 | the timeout is `readTimeout()` |
| Proxy.ProxyService.HandleConfigChange | src/main/java/org/commonjava/util/sidecar/services/ProxyService.java:107-112 | the timeout is re-read whatever the message; an unparsable setting resets it to the default, not to the previous value |
| Proxy.ProxyService.ConvertProxyResp | src/main/java/org/commonjava/util/sidecar/services/ProxyService.java:312-329 | the header loop builds exactly `Converted(resp)` (see ConvertedFacts) |
| Proxy.ProxyService.ConvertTrackedResp | src/main/java/org/commonjava/util/sidecar/services/ProxyService.java:331-367 | the same response as the untracked conversion; the report grows by the entry with the body as payload iff there is a body |
| Proxy.ProxyService.GetHeaders | src/main/java/org/commonjava/util/sidecar/services/ProxyService.java:378-386 | returns the outbound headers; the request's own headers become the same list (the wrapper shares them) |
| Proxy.ProxyService.Forward | src/main/java/org/commonjava/util/sidecar/services/ProxyService.java:404-409 | result and request headers are those of `Forwarding`; the report grows only for a tracked GET, by `TrackedAppend` of the call's outcome |
| Proxy.ProxyService.DoHead | src/main/java/org/commonjava/util/sidecar/services/ProxyService.java:121-125 | forwarded as HEAD without body; the report is unchanged |
| Proxy.ProxyService.DoHeadIn | src/main/java/org/commonjava/util/sidecar/services/ProxyService.java:114-119 | HEAD of the built content path; the report is unchanged |
| Proxy.ProxyService.DoGet | src/main/java/org/commonjava/util/sidecar/services/ProxyService.java:134-153 | missing segment: the exception, with request and report unchanged. Otherwise forwarded as GET; a tracked path appends the GENERIC_PROXY entry with the downloaded body, and only then |
| Proxy.ProxyService.DoGetIn | src/main/java/org/commonjava/util/sidecar/services/ProxyService.java:127-132 | `doGet` of the built content path, with the same tracking rules |
| Proxy.ProxyService.Upload | src/main/java/org/commonjava/util/sidecar/services/ProxyService.java:155-194 | missing segment: the exception, nothing changes. Otherwise a maven/hosted path appends the NATIVE entry with the request body as payload, whatever the call does; the body is forwarded untouched |
| Proxy.ProxyService.DoPost | src/main/java/org/commonjava/util/sidecar/services/ProxyService.java:155-194 | the upload rules with verb POST |
| Proxy.ProxyService.DoPut | src/main/java/org/commonjava/util/sidecar/services/ProxyService.java:209-249 | the upload rules with verb PUT |
| Proxy.ProxyService.DoPutIn | src/main/java/org/commonjava/util/sidecar/services/ProxyService.java:196-207 | a bodiless PUT of the built content path; never tracked |
| Proxy.ProxyService.DoDelete | src/main/java/org/commonjava/util/sidecar/services/ProxyService.java:251-258 | forwarded as DELETE; never tracked |
| Json.Expect | src/main/java/org/commonjava/util/sidecar/services/ReportService.java:98 | begin/end object/array consume exactly the expected token. Any other token is IllegalState and stays unread; a lexical error or the end of input is an IOException that empties the reader |
| Json.HasNext | src/main/java/org/commonjava/util/sidecar/services/ReportService.java:99 | `hasNext` peeks without consuming, and is false exactly before a closing bracket |
| Json.NextName | src/main/java/org/commonjava/util/sidecar/services/ReportService.java:101 | a name token yields its name; any other token is IllegalState, unread |
| Json.NextString | src/main/java/org/commonjava/util/sidecar/services/ReportService.java:136 | a string token yields its text; any other token is IllegalState, unread |
| Json.NextLong | src/main/java/org/commonjava/util/sidecar/services/ReportService.java:165 | a number in the 64-bit range is read. A number outside it is NumberFormat, unread; a non-number is IllegalState |
| Json.Skip | src/main/java/org/commonjava/util/sidecar/services/ReportService.java:114 | `skipValue` only ever fails with an IOException (which empties the reader), and always consumes something when it succeeds |
| Json.SkipTokens | src/main/java/org/commonjava/util/sidecar/services/ReportService.java:114 | skipping a whole value consumes exactly its tokens, nested values included |
| Json.JsonReader.constructor | src/main/java/org/commonjava/util/sidecar/services/ReportService.java:95 | the reader starts at the beginning of the input |
| Json.JsonReader.Consume | src/main/java/org/commonjava/util/sidecar/services/ReportService.java:98 | the cursor and result are those of `Expect` |
| Json.JsonReader.HasNextToken | src/main/java/org/commonjava/util/sidecar/services/ReportService.java:99 | the cursor and result are those of `HasNext` |
| Json.JsonReader.NextNameToken | src/main/java/org/commonjava/util/sidecar/services/ReportService.java:101 | the cursor and result are those of `NextName` |
| Json.JsonReader.NextStringToken | src/main/java/org/commonjava/util/sidecar/services/ReportService.java:136 | the cursor and result are those of `NextString` |
| Json.JsonReader.NextLongToken | src/main/java/org/commonjava/util/sidecar/services/ReportService.java:165 | the cursor and result are those of `NextLong` |
| Json.JsonReader.SkipValue | src/main/java/org/commonjava/util/sidecar/services/ReportService.java:114 | the bracket-counting loop ends where `Skip` from depth 0 says, with the same fault |
| Report.SetText | src/main/java/org/commonjava/util/sidecar/services/ReportService.java:135-163 | "path", "md5", "sha1" and "sha256" each set their own field and nothing else |
| Report.Finish | src/main/java/org/commonjava/util/sidecar/services/ReportService.java:196-200 | an entry is returned iff decoding ended normally or with an IOException, and then always on the GENERIC_PROXY channel; any other exception escapes |
| Report.Escaping | src/main/java/org/commonjava/util/sidecar/services/ReportService.java:120-124 | `load` lets an exception escape iff it is not an IOException |
| Report.DecodeEntryFacts | src/main/java/org/commonjava/util/sidecar/services/ReportService.java:127-201 | a decoded entry is always GENERIC_PROXY. An IOException never leaves the entry decoder; on an empty or broken input it returns the empty entry |
| Report.LoadDownloadsKeeps | src/main/java/org/commonjava/util/sidecar/services/ReportService.java:106-109 | entries already in the report stay in front of the ones the array loop appends, whatever fault ends it |
| Report.LoadMembersKeeps | src/main/java/org/commonjava/util/sidecar/services/ReportService.java:99-116 | the same for the top-level member loop |
| Report.StuckEndsLoad | src/main/java/org/commonjava/util/sidecar/services/ReportService.java:99-109 | after an IOException every loop ends at once with another IOException and decodes nothing more |
| Report.KeyFieldMeaning | src/main/java/org/commonjava/util/sidecar/services/ReportService.java:172-185 | one accepted storeKey member is read to its meaning: packageType, type and name set their field; other keys are skipped |
| Report.KeyFieldsMeaning | src/main/java/org/commonjava/util/sidecar/services/ReportService.java:170-186 | the storeKey loop gives the meaning of all its members and stops at the closing bracket |
| Report.StoreKeyFieldMeaning | src/main/java/org/commonjava/util/sidecar/services/ReportService.java:167-189 | a "storeKey" member replaces the entry's key with the key its object means |
| Report.EntryFieldMeaning | src/main/java/org/commonjava/util/sidecar/services/ReportService.java:134-193 | each case of the switch reads an accepted member to its meaning (`ApplyField`) and consumes exactly its value |
| Report.EntryFieldsMeaning | src/main/java/org/commonjava/util/sidecar/services/ReportService.java:131-194 | the entry loop applies the accepted members in order and stops at the closing bracket |
| Report.DecodeEntryMeaning | src/main/java/org/commonjava/util/sidecar/services/ReportService.java:127-201 | an accepted entry object decodes to the members' meaning on the GENERIC_PROXY channel, consuming exactly the object |
| Report.EntryFieldsBroken | src/main/java/org/commonjava/util/sidecar/services/ReportService.java:131-198 | a lexical error after some members keeps what those members set and ends with an IOException |
| Report.DecodeEntryBroken | src/main/java/org/commonjava/util/sidecar/services/ReportService.java:127-201 | an entry cut short by a lexical error is still returned, with the fields read before the error |
| Report.LoadDownloadsPrefix | src/main/java/org/commonjava/util/sidecar/services/ReportService.java:106-109 | the array loop appends the meaning of each accepted element, in order, whatever follows |
| Report.LoadDownloadsMeaning | src/main/java/org/commonjava/util/sidecar/services/ReportService.java:105-110 | an array of accepted entries appends all of them in order and stops at the closing bracket |
| Report.MidEntryFailureKeeps | src/main/java/org/commonjava/util/sidecar/services/ReportService.java:105-124 | a lexical error inside an entry keeps the earlier entries and the partial one, in order, and `load` ends quietly |
| Report.BrokenEntryEndsDownloads | src/main/java/org/commonjava/util/sidecar/services/ReportService.java:106-109 | the partial entry is appended and the array loop ends with the IOException |
| Report.DownloadsFault | src/main/java/org/commonjava/util/sidecar/services/ReportService.java:103-111 | a fault in the "downloads" array ends the document loop, keeping the entries appended so far |
| Report.LoadMembersMeaning | src/main/java/org/commonjava/util/sidecar/services/ReportService.java:99-116 | the member loop appends the entries of every "downloads" member, in document order, and skips the rest |
| Report.LoadMemberStep | src/main/java/org/commonjava/util/sidecar/services/ReportService.java:101-115 | one top-level member: "downloads" appends its entries, any other key is skipped whatever its value |
| Report.LoadDocumentMeaning | src/main/java/org/commonjava/util/sidecar/services/ReportService.java:93-125 | an accepted document loads exactly `DownloadsOf` its members, without error, stopping before the final bracket |
| Report.OtherMemberSkipped | src/main/java/org/commonjava/util/sidecar/services/ReportService.java:112-115 | a top-level member other than "downloads" changes nothing |
| Report.UnknownEntryMemberSkipped | src/main/java/org/commonjava/util/sidecar/services/ReportService.java:190-192 | an entry member with another key changes nothing |
| Report.UnknownKeyMemberSkipped | src/main/java/org/commonjava/util/sidecar/services/ReportService.java:182-184 | a storeKey member with another key changes nothing |
| Report.OriginUrlRules | src/main/java/org/commonjava/util/sidecar/services/ReportService.java:138-154 | originUrl: text sets it, any other value is skipped. localUrl: sets the origin only while it is "", otherwise its value is skipped |
| Report.ReportPath | src/main/java/org/commonjava/util/sidecar/services/ReportService.java:87 | the file is the directory, a slash and the build id ("null" when there is none) |
| Report.ReportService.constructor | src/main/java/org/commonjava/util/sidecar/services/ReportService.java:49-50 | the service holds the injected (shared) report |
| Report.ReportService.GetReport | src/main/java/org/commonjava/util/sidecar/services/ReportService.java:58-61 | 200 OK, content type application/json, the current report's downloads as entity |
| Report.ReportService.ResetReport | src/main/java/org/commonjava/util/sidecar/services/ReportService.java:63-67 | the field points at a fresh, empty report; 200 OK without entity |
| Report.ReportService.ResetReportInPlace | src/main/java/org/commonjava/util/sidecar/services/ReportService.java:63-67 | corrected reset: the same report object is emptied; 200 OK without entity |
| Report.ReportService.ReadStoreKey | src/main/java/org/commonjava/util/sidecar/services/ReportService.java:168-186 | the storeKey loop gives the key, fault and cursor of `KeyFields` |
| Report.ReportService.ReadEntryField | src/main/java/org/commonjava/util/sidecar/services/ReportService.java:134-193 | one case of the switch gives the entry, fault and cursor of `EntryField` |
| Report.ReportService.LoadTrackedContentEntry | src/main/java/org/commonjava/util/sidecar/services/ReportService.java:127-201 | the result and cursor are those of `DecodeEntry`; a returned entry is GENERIC_PROXY |
| Report.ReportService.LoadDownloadsArray | src/main/java/org/commonjava/util/sidecar/services/ReportService.java:106-109 | the "downloads" array loop appends exactly the entries the decoder specification yields, in order, and stops at the first fault with that fault |
| Report.ReportService.Load | src/main/java/org/commonjava/util/sidecar/services/ReportService.java:93-125 | the report grows by exactly the decoded entries after those already there; an exception escapes iff it is not an IOException |
| Report.ReportService.LoadReport | src/main/java/org/commonjava/util/sidecar/services/ReportService.java:84-91 | a missing file is FileNotFound with the report unchanged; otherwise the load of that file |
| ReportRoundTrip.StoreKeyReloads | src/main/java/org/commonjava/util/sidecar/services/ReportService.java:167-189 | a written store key is accepted and read back whole |
| ReportRoundTrip.EntryReloads | src/main/java/org/commonjava/util/sidecar/services/ReportService.java:127-201 | a written entry is accepted. It decodes to itself, minus the tracking key and on the GENERIC_PROXY channel |
| ReportRoundTrip.EntriesReload | src/main/java/org/commonjava/util/sidecar/services/ReportService.java:105-109 | the same for every entry of a list, in order |
| ReportRoundTrip.RoundTrip | src/main/java/org/commonjava/util/sidecar/services/ReportService.java:93-125 | loading a written report gives back all its entries, in order and reloaded as above, with no exception |
| ReportRoundTrip.OnlyDownloads | src/main/java/org/commonjava/util/sidecar/services/ReportService.java:103-110 | a document with one "downloads" member holds exactly that array's entries |
| ReportRoundTrip.ReloadedAllKeeps | src/main/java/org/commonjava/util/sidecar/services/ReportService.java:199 | reloading keeps the count and every content field (store key, path, origin, size, digests); it loses the tracking key and the channel |
| Findings.Deploy | src/main/java/org/commonjava/util/sidecar/services/ReportService.java:49-50 | both services start with one shared, empty report |
| Findings.ResetThenTrack | src/main/java/org/commonjava/util/sidecar/services/ReportService.java:63-67 | as written: after a reset, a download the proxy tracks never shows in the report |
| Findings.ResetInPlaceThenTrack | src/main/java/org/commonjava/util/sidecar/services/ReportService.java:63-67 | corrected: after an in-place reset, the report shows exactly the tracked entry |

## Left out

- Mutiny's asynchronous pipeline is modelled as a function of its outcome: `Uni` subscription, resubscription and the clock that waits between retries. The back-off is computed (`Retry.Plan`) but never waited for.
- The HTTP client's enforcement of `timeout`: the value is passed on in `Outbound` only.
- Concurrency: the volatile `timeout` field, and calls racing on the shared report.
- Logging, and `e.printStackTrace()`.
- Collaborators given as parameters, with no model of their own:
  - the classifier and service selection;
  - `HttpUtils.normalizePath` and `UrlUtils.buildUrl`;
  - `Duration.parse`;
  - `UUID.randomUUID`;
  - `SidecarUtils.getBuildConfigId`.
- The digest algorithms are abstract functions. The model assumes MD5, SHA-1 and SHA-256 are available, so the `NoSuchAlgorithmException` branch is not modelled.
- `proxyConfiguration.getServices().iterator().next()` on an empty service list (a `NoSuchElementException`): the host is a given string.
- The `IOException` of `IOUtils.toByteArray`: the request body arrives as bytes.
- `exportReport` is outside the modelled core.
- `FileReader`, `BufferedReader` and the closing of the input: the file system is a map from path to the tokens of its content.
- The JSON text itself: the reader is modelled over tokens the lexer is assumed to have produced. A lexical error is a `Broken` token. Lenient parsing and token sequences the lexer cannot produce are not modelled.
- Gson's coercions:
  - `nextString` accepting a number or boolean;
  - `nextLong` accepting a quoted number or a double.
  The model reads only a string as a string and only a number as a long.
- Retry.AllFailingExhausts: assumes the failure that exhausts `.retry().withBackOff(..).atMost(count)` reaches `recoverWithItem` unwrapped, as the last attempt's own throwable. Mutiny's back-off retry may instead fail with an `IllegalStateException("Retries exhausted: …")` whose cause is that throwable; Mutiny is not part of this model, so the wrap is not modelled.
- ProxyRules.WrapAsyncCallFacts: under the same assumption, the 500 after exhausted retries is built from the last attempt's throwable. If Mutiny wraps it, the entity is `handleProxyException` of the wrapping exception instead. The `count <= 0` path has no retry operator and is not affected.
- `Report.ReportService.Load`: after an IOException the model's reader yields nothing further. Gson's reader after a malformed-input error may differ.
- `DotlessIConnectionDropped` and `IsJavaWhitespace` cover the Unicode cases named in those members. Full Unicode case folding and Java's `Character.isWhitespace` tables are not modelled beyond them.
- `TrackedContentEntry`, `StoreKey`, `StoreType` and `TrackingKey` are not part of this model as source. The model assumes:
  - a new entry's strings start as "" (the decoder's `getOriginUrl().equals("")` relies on it), its `size` is 0, and its trackingKey and storeKey are null (`Model.EMPTY_ENTRY`);
  - `new StoreKey()` has packageType and name "" and no store type (`Model.EMPTY_STORE_KEY`);
  - the store type constants are named "hosted", "group" and "remote" (the tracking condition's `valueOf` relies on it).
- `RequestContextConstants` is not part of this model. The model assumes `EXTERNAL_ID` is "External-Id" and `TRACE_ID` is "Trace-Id" (`ProxyRules.EXTERNAL_ID`, `ProxyRules.TRACE_ID`). Header lookups ignore case, so only the spelling of the emitted Trace-Id header name depends on it.
- Entry objects are values. The mutation of the prepared GET entry in place is modelled as appending the updated value once. Aliasing of that object elsewhere is not captured.
- The text of the `ArrayIndexOutOfBoundsException` message (`SEGMENT_MISSING` names the class only).
- The JSON writer is modelled in `ReportRoundTrip` as the members of each entry in a fixed order (the order of Jackson's properties is not part of this model). Any further property the writer may add (such as `localUrl`) is left out of the written document.

## Findings

| source | as written | input that shows it | evidently intended | confidence | as-written member | corrected member |
|---|---|---|---|---|---|---|
| src/main/java/org/commonjava/util/sidecar/services/ReportService.java:63-67 | `resetReport` points ReportService's own field at a new `TrackedContent`; ProxyService keeps the injected object and goes on appending to it | reset, then a tracked GET with a body: the proxy appends the entry, `getReport` never shows an entry the proxy tracks after the reset | the reset empties the report both services share, so later tracked transfers are reported | medium (depends on the injection scope of `TrackedContent`); not executed | Findings.ResetThenTrack | Findings.ResetInPlaceThenTrack |
