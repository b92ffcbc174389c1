/**
 * The report service: the report endpoints, and the decoder that reloads a
 * persisted report field by field from the streaming reader.
 *
 * The decoder is specified twice: token by token (`EntryFields`,
 * `LoadMembers`, ...), following the reader calls one for one, and on JSON
 * values (`ApplyFields`, `DownloadsOf`), saying what a document means. The
 * lemmas connect the two; the methods of `ReportService` are proved against
 * the token-level functions.
 */
module Report {
  import opened Wrappers
  import opened Model
  import opened Http
  import opened Json

  const CHANNEL_GENERIC_PROXY := "GENERIC_PROXY"

  /** A value read so far, the exception that ended the read if any, and the unread input. */
  datatype Parsed<T> = Parsed(value: T, fault: Option<Fault>, rest: seq<Token>)

  /** The common contract of decoding steps, as `Moves` for single reads. */
  predicate Advances<T>(ts: seq<Token>, r: Parsed<T>)
  {
    |r.rest| <= |ts| && (r.fault == Some(IOFailure) ==> r.rest == [])
  }

  /** The value with the fault of a bracket, name or skip read. */
  function After<T>(r: Read<()>, v: T): (p: Parsed<T>)
    ensures p.rest == r.rest && p.value == v && p.fault == FaultOf(r)
  {
    Parsed(v, FaultOf(r), r.rest)
  }

  // ---------------------------------------------------------------------
  // The storeKey object
  // ---------------------------------------------------------------------

  /** One member of the storeKey object, after its name. */
  function KeyField(ts: seq<Token>, name: string, k: StoreKey): (r: Parsed<StoreKey>)
    ensures Advances(ts, r)
  {
    if name == "packageType" then
      match NextString(ts)
      case Fail(f, rest) => Parsed(k, Some(f), rest)
      case Got(s, rest) => Parsed(k.(packageType := s), None, rest)
    else if name == "type" then
      match NextString(ts)
      case Fail(f, rest) => Parsed(k, Some(f), rest)
      case Got(s, rest) =>
        match StoreTypeOf(s)
        case None => Parsed(k, Some(IllegalArgument), rest)
        case Some(t) => Parsed(k.(storeType := Some(t)), None, rest)
    else if name == "name" then
      match NextString(ts)
      case Fail(f, rest) => Parsed(k, Some(f), rest)
      case Got(s, rest) => Parsed(k.(name := s), None, rest)
    else
      After(Skip(ts, 0), k)
  }

  /** The `while (reader.hasNext())` loop over the storeKey members. */
  function KeyFields(ts: seq<Token>, k: StoreKey): (r: Parsed<StoreKey>)
    ensures Advances(ts, r)
    decreases |ts|
  {
    match HasNext(ts)
    case Fail(f, rest) => Parsed(k, Some(f), rest)
    case Got(more, ts1) =>
      if !more then Parsed(k, None, ts1)
      else
        match NextName(ts1)
        case Fail(f, rest) => Parsed(k, Some(f), rest)
        case Got(name, ts2) =>
          var s := KeyField(ts2, name, k);
          if s.fault.Some? then s else KeyFields(s.rest, s.value)
  }

  // ---------------------------------------------------------------------
  // One entry
  // ---------------------------------------------------------------------

  /** One member of an entry object, after its name: the `switch (jsonKey)`. */
  function EntryField(ts: seq<Token>, name: string, e: Entry): (r: Parsed<Entry>)
    ensures Advances(ts, r)
  {
    if name == "path" || name == "md5" || name == "sha256" || name == "sha1" then
      match NextString(ts)
      case Fail(f, rest) => Parsed(e, Some(f), rest)
      case Got(s, rest) => Parsed(SetText(e, name, s), None, rest)
    else if name == "originUrl" then
      match NextString(ts)
      case Got(s, rest) => Parsed(e.(originUrl := s), None, rest)
      case Fail(f, rest) =>
        if f == IllegalState then After(Skip(rest, 0), e) else Parsed(e, Some(f), rest)
    else if name == "localUrl" then
      if e.originUrl == "" then
        match NextString(ts)
        case Fail(f, rest) => Parsed(e, Some(f), rest)
        case Got(s, rest) => Parsed(e.(originUrl := s), None, rest)
      else After(Skip(ts, 0), e)
    else if name == "size" then
      match NextLong(ts)
      case Fail(f, rest) => Parsed(e, Some(f), rest)
      case Got(n, rest) => Parsed(e.(size := n), None, rest)
    else if name == "storeKey" then
      match Expect(ts, BeginObject)
      case Fail(f, rest) => Parsed(e, Some(f), rest)
      case Got(_, ts1) =>
        var k := KeyFields(ts1, EMPTY_STORE_KEY);
        if k.fault.Some? then Parsed(e, k.fault, k.rest)
        else After(Expect(k.rest, EndObject), e.(storeKey := Some(k.value)))
    else
      After(Skip(ts, 0), e)
  }

  /** The setter for one of the four plain text members. */
  function SetText(e: Entry, name: string, s: string): (e': Entry)
    requires name == "path" || name == "md5" || name == "sha256" || name == "sha1"
    ensures name == "path" ==> e' == e.(path := s)
    ensures name == "md5" ==> e' == e.(md5 := s)
    ensures name == "sha1" ==> e' == e.(sha1 := s)
    ensures name == "sha256" ==> e' == e.(sha256 := s)
  {
    if name == "path" then e.(path := s)
    else if name == "md5" then e.(md5 := s)
    else if name == "sha256" then e.(sha256 := s)
    else e.(sha1 := s)
  }

  /** The `while (reader.hasNext())` loop over an entry's members. */
  function EntryFields(ts: seq<Token>, e: Entry): (r: Parsed<Entry>)
    ensures Advances(ts, r)
    decreases |ts|
  {
    match HasNext(ts)
    case Fail(f, rest) => Parsed(e, Some(f), rest)
    case Got(more, ts1) =>
      if !more then Parsed(e, None, ts1)
      else
        match NextName(ts1)
        case Fail(f, rest) => Parsed(e, Some(f), rest)
        case Got(name, ts2) =>
          var s := EntryField(ts2, name, e);
          if s.fault.Some? then s else EntryFields(s.rest, s.value)
  }

  /**
   * The end of `loadTrackedContentEntry`: an IOException is caught and the
   * entry read so far is returned; any other exception escapes. Either way
   * a returned entry has the GENERIC_PROXY channel.
   */
  function Finish(p: Parsed<Entry>): (r: Read<Entry>)
    ensures r.Got? <==> p.fault.None? || p.fault == Some(IOFailure)
    ensures r.Got? ==> r.value == p.value.(accessChannel := CHANNEL_GENERIC_PROXY)
    ensures r.Fail? ==> Some(r.fault) == p.fault
    ensures r.rest == p.rest
  {
    if p.fault.None? || p.fault == Some(IOFailure) then Got(p.value.(accessChannel := CHANNEL_GENERIC_PROXY), p.rest)
    else Fail(p.fault.value, p.rest)
  }

  /** `loadTrackedContentEntry`: beginObject, the member loop, endObject. */
  function DecodeEntry(ts: seq<Token>): (r: Read<Entry>)
    ensures Moves(ts, r)
    ensures r.Got? && ts != [] ==> |r.rest| < |ts|
  {
    match Expect(ts, BeginObject)
    case Fail(f, rest) => Finish(Parsed(EMPTY_ENTRY, Some(f), rest))
    case Got(_, ts1) =>
      var p := EntryFields(ts1, EMPTY_ENTRY);
      if p.fault.Some? then Finish(p)
      else Finish(After(Expect(p.rest, EndObject), p.value))
  }

  /** Every entry the decoder returns has the GENERIC_PROXY channel, and an IOException never escapes it. */
  lemma DecodeEntryFacts(ts: seq<Token>)
    ensures var r := DecodeEntry(ts);
      (r.Got? ==> r.value.accessChannel == CHANNEL_GENERIC_PROXY)
      && (r.Fail? ==> r.fault != IOFailure)
      && (Stuck(ts) ==> r == Got(EMPTY_ENTRY.(accessChannel := CHANNEL_GENERIC_PROXY), []))
  {
  }

  // ---------------------------------------------------------------------
  // The document
  // ---------------------------------------------------------------------

  /** The loop over the "downloads" array: one decoded entry appended per element. */
  function LoadDownloads(ts: seq<Token>, acc: seq<Entry>): (r: Parsed<seq<Entry>>)
    ensures Advances(ts, r)
    decreases |ts|
  {
    match HasNext(ts)
    case Fail(f, rest) => Parsed(acc, Some(f), rest)
    case Got(more, ts1) =>
      if !more then Parsed(acc, None, ts1)
      else
        match DecodeEntry(ts1)
        case Fail(f, rest) => Parsed(acc, Some(f), rest)
        case Got(e, ts2) => LoadDownloads(ts2, acc + [e])
  }

  /** The loop over the top-level members: "downloads" is read, every other value skipped. */
  function LoadMembers(ts: seq<Token>, acc: seq<Entry>): (r: Parsed<seq<Entry>>)
    ensures Advances(ts, r)
    decreases |ts|
  {
    match HasNext(ts)
    case Fail(f, rest) => Parsed(acc, Some(f), rest)
    case Got(more, ts1) =>
      if !more then Parsed(acc, None, ts1)
      else
        match NextName(ts1)
        case Fail(f, rest) => Parsed(acc, Some(f), rest)
        case Got(name, ts2) =>
          if name == "downloads" then
            match Expect(ts2, BeginArray)
            case Fail(f, rest) => Parsed(acc, Some(f), rest)
            case Got(_, ts3) =>
              var d := LoadDownloads(ts3, acc);
              if d.fault.Some? then d
              else
                match Expect(d.rest, EndArray)
                case Fail(f, rest) => Parsed(d.value, Some(f), rest)
                case Got(_, ts4) => LoadMembers(ts4, d.value)
          else
            match Skip(ts2, 0)
            case Fail(f, rest) => Parsed(acc, Some(f), rest)
            case Got(_, ts3) => LoadMembers(ts3, acc)
  }

  /** One turn of the "downloads" loop: it ends before a closing bracket, and otherwise appends the next decoded entry. */
  lemma DownloadsLoopStep(ts: seq<Token>, acc: seq<Entry>)
    ensures HasNext(ts).Fail? ==> LoadDownloads(ts, acc) == Parsed(acc, Some(HasNext(ts).fault), HasNext(ts).rest)
    ensures HasNext(ts).Got? && !HasNext(ts).value ==> LoadDownloads(ts, acc) == Parsed(acc, None, ts)
    ensures HasNext(ts).Got? && HasNext(ts).value && DecodeEntry(ts).Got? ==>
              LoadDownloads(ts, acc) == LoadDownloads(DecodeEntry(ts).rest, acc + [DecodeEntry(ts).value])
    ensures HasNext(ts).Got? && HasNext(ts).value && DecodeEntry(ts).Fail? ==>
              LoadDownloads(ts, acc) == Parsed(acc, Some(DecodeEntry(ts).fault), DecodeEntry(ts).rest)
  {
  }

  /** One turn of the top-level member loop, up to the "downloads" array's opening bracket. */
  lemma MembersLoopStep(ts: seq<Token>, acc: seq<Entry>)
    ensures HasNext(ts).Fail? ==> LoadMembers(ts, acc) == Parsed(acc, Some(HasNext(ts).fault), HasNext(ts).rest)
    ensures HasNext(ts).Got? && !HasNext(ts).value ==> LoadMembers(ts, acc) == Parsed(acc, None, ts)
    ensures HasNext(ts).Got? && HasNext(ts).value && NextName(ts).Fail? ==>
              LoadMembers(ts, acc) == Parsed(acc, Some(NextName(ts).fault), NextName(ts).rest)
    ensures HasNext(ts).Got? && HasNext(ts).value && NextName(ts).Got? && NextName(ts).value != "downloads" ==>
              var k := Skip(NextName(ts).rest, 0);
              LoadMembers(ts, acc) == if k.Got? then LoadMembers(k.rest, acc) else Parsed(acc, Some(k.fault), k.rest)
    ensures HasNext(ts).Got? && HasNext(ts).value && NextName(ts).Got? && NextName(ts).value == "downloads"
            && Expect(NextName(ts).rest, BeginArray).Fail? ==>
              var b := Expect(NextName(ts).rest, BeginArray);
              LoadMembers(ts, acc) == Parsed(acc, Some(b.fault), b.rest)
  {
  }

  /** The "downloads" member once its array loop has ended: a fault ends the document, otherwise its closing bracket is read. */
  lemma DownloadsMemberDone(ts: seq<Token>, acc: seq<Entry>)
    requires HasNext(ts).Got? && HasNext(ts).value && NextName(ts).Got? && NextName(ts).value == "downloads"
    requires Expect(NextName(ts).rest, BeginArray).Got?
    ensures var d := LoadDownloads(Expect(NextName(ts).rest, BeginArray).rest, acc);
      var c := Expect(d.rest, EndArray);
      (d.fault.Some? ==> LoadMembers(ts, acc) == d)
      && (d.fault.None? && c.Fail? ==> LoadMembers(ts, acc) == Parsed(d.value, Some(c.fault), c.rest))
      && (d.fault.None? && c.Got? ==> LoadMembers(ts, acc) == LoadMembers(c.rest, d.value))
  {
  }

  /** `load`: beginObject, then the member loop; the closing bracket is never read. */
  function LoadDocument(ts: seq<Token>): (r: Parsed<seq<Entry>>)
    ensures Advances(ts, r)
  {
    match Expect(ts, BeginObject)
    case Fail(f, rest) => Parsed([], Some(f), rest)
    case Got(_, ts1) => LoadMembers(ts1, [])
  }

  /** The exception that leaves `load`: an IOException is caught there, the others are not. */
  function Escaping(f: Option<Fault>): (r: Option<Fault>)
    ensures r.None? <==> f.None? || f == Some(IOFailure)
    ensures r.Some? ==> r == f
  {
    if f == Some(IOFailure) then None else f
  }

  /**
   * The entries already accumulated stay, in front of the ones a loop adds,
   * whatever fault ends it; where the loop stops does not depend on them.
   */
  lemma {:induction false} LoadDownloadsKeeps(ts: seq<Token>, acc: seq<Entry>)
    ensures var r0 := LoadDownloads(ts, []);
      LoadDownloads(ts, acc) == Parsed(acc + r0.value, r0.fault, r0.rest)
    decreases |ts|
  {
    assert acc + [] == acc;
    match HasNext(ts)
    case Fail(_, _) =>
    case Got(more, ts1) =>
      if more {
        match DecodeEntry(ts1)
        case Fail(_, _) =>
        case Got(e, ts2) =>
          LoadDownloadsKeeps(ts2, acc + [e]);
          LoadDownloadsKeeps(ts2, [e]);
          assert [] + [e] == [e];
          assert acc + [e] + LoadDownloads(ts2, []).value == acc + ([e] + LoadDownloads(ts2, []).value);
      }
  }

  lemma {:induction false} LoadMembersKeeps(ts: seq<Token>, acc: seq<Entry>)
    ensures var r0 := LoadMembers(ts, []);
      LoadMembers(ts, acc) == Parsed(acc + r0.value, r0.fault, r0.rest)
    decreases |ts|
  {
    assert acc + [] == acc;
    MembersLoopStep(ts, acc);
    MembersLoopStep(ts, []);
    if HasNext(ts).Got? && HasNext(ts).value && NextName(ts).Got? {
      var ts2 := NextName(ts).rest;
      if NextName(ts).value == "downloads" {
        if Expect(ts2, BeginArray).Got? {
          var ts3 := Expect(ts2, BeginArray).rest;
          DownloadsMemberDone(ts, acc);
          DownloadsMemberDone(ts, []);
          LoadDownloadsKeeps(ts3, acc);
          var d0 := LoadDownloads(ts3, []);
          if d0.fault.None? && Expect(d0.rest, EndArray).Got? {
            var ts4 := Expect(d0.rest, EndArray).rest;
            LoadMembersKeeps(ts4, acc + d0.value);
            LoadMembersKeeps(ts4, d0.value);
            AppendAssoc(acc, d0.value, LoadMembers(ts4, []).value);
          }
        }
      } else if Skip(ts2, 0).Got? {
        var ts3 := Skip(ts2, 0).rest;
        LoadMembersKeeps(ts3, acc);
      }
    }
  }

  /** After an IOException the loops end at once: nothing further is decoded. */
  lemma StuckEndsLoad(acc: seq<Entry>)
    ensures LoadMembers([], acc) == Parsed(acc, Some(IOFailure), [])
    ensures LoadDownloads([], acc) == Parsed(acc, Some(IOFailure), [])
    ensures EntryFields([], EMPTY_ENTRY) == Parsed(EMPTY_ENTRY, Some(IOFailure), [])
  {
  }

  // ---------------------------------------------------------------------
  // What a document means
  // ---------------------------------------------------------------------

  /** A storeKey member the decoder accepts: text where text is read, and a known type name. */
  predicate KeyMemberOk(m: Member)
  {
    (m.key == "packageType" || m.key == "name" ==> m.value.JString?)
    && (m.key == "type" ==> m.value.JString? && StoreTypeOf(m.value.s).Some?)
  }

  /** The meaning of one storeKey member; unknown keys change nothing. */
  function ApplyKeyField(m: Member, k: StoreKey): StoreKey
    requires KeyMemberOk(m)
  {
    if m.key == "packageType" then k.(packageType := m.value.s)
    else if m.key == "type" then k.(storeType := StoreTypeOf(m.value.s))
    else if m.key == "name" then k.(name := m.value.s)
    else k
  }

  function ApplyKeyFields(ms: seq<Member>, k: StoreKey): StoreKey
    requires forall i :: 0 <= i < |ms| ==> KeyMemberOk(ms[i])
  {
    if ms == [] then k else ApplyKeyFields(ms[1..], ApplyKeyField(ms[0], k))
  }

  /** An entry member the decoder accepts once the entry so far is `e`. */
  predicate EntryMemberOk(m: Member, e: Entry)
  {
    (m.key == "path" || m.key == "md5" || m.key == "sha1" || m.key == "sha256" ==> m.value.JString?)
    && (m.key == "localUrl" && e.originUrl == "" ==> m.value.JString?)
    && (m.key == "size" ==> m.value.JNumber? && InLongRange(m.value.n))
    && (m.key == "storeKey" ==>
          m.value.JObject? && forall i :: 0 <= i < |m.value.members| ==> KeyMemberOk(m.value.members[i]))
  }

  /**
   * The meaning of one entry member: the text members and size are copied,
   * "originUrl" sets the origin when it is text and is otherwise ignored,
   * "localUrl" sets it only while it is still "", "storeKey" replaces the
   * store key, and every other key changes nothing.
   */
  function ApplyField(m: Member, e: Entry): Entry
    requires EntryMemberOk(m, e)
  {
    match m.key
    case "path" => e.(path := m.value.s)
    case "md5" => e.(md5 := m.value.s)
    case "sha1" => e.(sha1 := m.value.s)
    case "sha256" => e.(sha256 := m.value.s)
    case "size" => e.(size := m.value.n)
    case "originUrl" => if m.value.JString? then e.(originUrl := m.value.s) else e
    case "localUrl" => if e.originUrl == "" then e.(originUrl := m.value.s) else e
    case "storeKey" => e.(storeKey := Some(ApplyKeyFields(m.value.members, EMPTY_STORE_KEY)))
    case _ => e
  }

  /** Every member of `ms` is accepted, each against the entry its predecessors produced. */
  predicate MembersOk(ms: seq<Member>, e: Entry)
  {
    ms == [] || (EntryMemberOk(ms[0], e) && MembersOk(ms[1..], ApplyField(ms[0], e)))
  }

  function ApplyFields(ms: seq<Member>, e: Entry): Entry
    requires MembersOk(ms, e)
  {
    if ms == [] then e else ApplyFields(ms[1..], ApplyField(ms[0], e))
  }

  /** The entry an accepted entry object decodes to. */
  function DecodedValue(ms: seq<Member>): Entry
    requires MembersOk(ms, EMPTY_ENTRY)
  {
    ApplyFields(ms, EMPTY_ENTRY).(accessChannel := CHANNEL_GENERIC_PROXY)
  }

  /** An array whose every element is an accepted entry object. */
  predicate EntriesOk(items: seq<JValue>)
  {
    forall i :: 0 <= i < |items| ==> items[i].JObject? && MembersOk(items[i].members, EMPTY_ENTRY)
  }

  function DecodedItems(items: seq<JValue>): seq<Entry>
    requires EntriesOk(items)
  {
    if items == [] then [] else [DecodedValue(items[0].members)] + DecodedItems(items[1..])
  }

  /** A document whose every "downloads" member is an array of accepted entries. */
  predicate DocumentOk(ms: seq<Member>)
  {
    forall i :: 0 <= i < |ms| ==> ms[i].key == "downloads" ==> ms[i].value.JArray? && EntriesOk(ms[i].value.items)
  }

  /** The entries of a document: those of each "downloads" member, in order; other members add nothing. */
  function DownloadsOf(ms: seq<Member>): seq<Entry>
    requires DocumentOk(ms)
  {
    if ms == [] then []
    else (if ms[0].key == "downloads" then DecodedItems(ms[0].value.items) else []) + DownloadsOf(ms[1..])
  }

  // ---------------------------------------------------------------------
  // The two specifications agree
  // ---------------------------------------------------------------------

  lemma NameThen(name: string, ts: seq<Token>)
    ensures HasNext([Name(name)] + ts) == Got(true, [Name(name)] + ts)
    ensures NextName([Name(name)] + ts) == Got(name, ts)
  {
    assert ([Name(name)] + ts)[1..] == ts;
  }

  lemma SingleThen(t: Token, ts: seq<Token>)
    ensures ([t] + ts)[0] == t && ([t] + ts)[1..] == ts
  {
  }

  lemma {:induction false} KeyFieldMeaning(m: Member, rest: seq<Token>, k: StoreKey)
    requires KeyMemberOk(m)
    ensures KeyField(Tokens(m.value) + rest, m.key, k) == Parsed(ApplyKeyField(m, k), None, rest)
  {
    if m.key == "packageType" || m.key == "type" || m.key == "name" {
      SingleThen(Str(m.value.s), rest);
    } else {
      SkipTokens(m.value, rest, 0);
    }
  }

  /** The storeKey loop reads an accepted object's members to their meaning and stops at the closing bracket. */
  lemma {:induction false} KeyFieldsMeaning(ms: seq<Member>, rest: seq<Token>, k: StoreKey)
    requires forall i :: 0 <= i < |ms| ==> KeyMemberOk(ms[i])
    ensures KeyFields(MembersTokens(ms) + [EndObject] + rest, k) == Parsed(ApplyKeyFields(ms, k), None, [EndObject] + rest)
    decreases |ms|
  {
    if ms == [] {
      assert MembersTokens(ms) + [EndObject] + rest == [EndObject] + rest;
    } else {
      var tail := MembersTokens(ms[1..]) + [EndObject] + rest;
      assert MembersTokens(ms) + [EndObject] + rest == [Name(ms[0].key)] + (Tokens(ms[0].value) + tail);
      NameThen(ms[0].key, Tokens(ms[0].value) + tail);
      KeyFieldMeaning(ms[0], tail, k);
      KeyFieldsMeaning(ms[1..], rest, ApplyKeyField(ms[0], k));
    }
  }

  lemma {:induction false} StoreKeyFieldMeaning(m: Member, rest: seq<Token>, e: Entry)
    requires m.key == "storeKey" && EntryMemberOk(m, e)
    ensures EntryField(Tokens(m.value) + rest, m.key, e) == Parsed(ApplyField(m, e), None, rest)
  {
    var kms := m.value.members;
    var inner := MembersTokens(kms) + [EndObject] + rest;
    assert Tokens(m.value) + rest == [BeginObject] + inner;
    SingleThen(BeginObject, inner);
    KeyFieldsMeaning(kms, rest, EMPTY_STORE_KEY);
    SingleThen(EndObject, rest);
  }

  lemma {:induction false} EntryFieldMeaning(m: Member, rest: seq<Token>, e: Entry)
    requires EntryMemberOk(m, e)
    ensures EntryField(Tokens(m.value) + rest, m.key, e) == Parsed(ApplyField(m, e), None, rest)
  {
    var ts := Tokens(m.value) + rest;
    if m.key == "path" || m.key == "md5" || m.key == "sha256" || m.key == "sha1" || m.key == "size" {
      SingleThen(ts[0], rest);
    } else if m.key == "originUrl" {
      if m.value.JString? {
        SingleThen(ts[0], rest);
      } else {
        SkipTokens(m.value, rest, 0);
      }
    } else if m.key == "localUrl" {
      if e.originUrl == "" {
        SingleThen(ts[0], rest);
      } else {
        SkipTokens(m.value, rest, 0);
      }
    } else if m.key == "storeKey" {
      StoreKeyFieldMeaning(m, rest, e);
    } else {
      SkipTokens(m.value, rest, 0);
    }
  }

  /** The entry loop reads accepted members to their meaning and stops at the closing bracket. */
  lemma {:induction false} EntryFieldsMeaning(ms: seq<Member>, rest: seq<Token>, e: Entry)
    requires MembersOk(ms, e)
    ensures EntryFields(MembersTokens(ms) + [EndObject] + rest, e) == Parsed(ApplyFields(ms, e), None, [EndObject] + rest)
    decreases |ms|
  {
    if ms == [] {
      assert MembersTokens(ms) + [EndObject] + rest == [EndObject] + rest;
    } else {
      var tail := MembersTokens(ms[1..]) + [EndObject] + rest;
      assert MembersTokens(ms) + [EndObject] + rest == [Name(ms[0].key)] + (Tokens(ms[0].value) + tail);
      NameThen(ms[0].key, Tokens(ms[0].value) + tail);
      EntryFieldMeaning(ms[0], tail, e);
      EntryFieldsMeaning(ms[1..], rest, ApplyField(ms[0], e));
    }
  }

  /** An accepted entry object decodes to its meaning, with nothing after it consumed. */
  lemma DecodeEntryMeaning(ms: seq<Member>, rest: seq<Token>)
    requires MembersOk(ms, EMPTY_ENTRY)
    ensures DecodeEntry(Tokens(JObject(ms)) + rest) == Got(DecodedValue(ms), rest)
  {
    var inner := MembersTokens(ms) + [EndObject] + rest;
    ObjectTokens(ms, rest);
    EntryFieldsMeaning(ms, rest, EMPTY_ENTRY);
    DecodeEntryClosed(inner, ApplyFields(ms, EMPTY_ENTRY), rest);
  }

  /** An entry whose member loop stops at the closing bracket is returned with the GENERIC_PROXY channel. */
  lemma DecodeEntryClosed(t: seq<Token>, e: Entry, rest: seq<Token>)
    requires EntryFields(t, EMPTY_ENTRY) == Parsed(e, None, [EndObject] + rest)
    ensures DecodeEntry([BeginObject] + t) == Got(e.(accessChannel := CHANNEL_GENERIC_PROXY), rest)
  {
    SingleThen(BeginObject, t);
    SingleThen(EndObject, rest);
  }

  /** An entry whose member loop meets an IOException is still returned, and the reader is empty. */
  lemma DecodeEntryCut(t: seq<Token>, e: Entry)
    requires EntryFields(t, EMPTY_ENTRY) == Parsed(e, Some(IOFailure), [])
    ensures DecodeEntry([BeginObject] + t) == Got(e.(accessChannel := CHANNEL_GENERIC_PROXY), [])
  {
    SingleThen(BeginObject, t);
  }

  /**
   * A member list cut short by a lexical error: the entry read so far is
   * still returned, with the GENERIC_PROXY channel, and the reader is left
   * empty.
   */
  lemma {:induction false} EntryFieldsBroken(ms: seq<Member>, rest: seq<Token>, e: Entry)
    requires MembersOk(ms, e)
    ensures EntryFields(MembersTokens(ms) + [Broken] + rest, e) == Parsed(ApplyFields(ms, e), Some(IOFailure), [])
    decreases |ms|
  {
    if ms == [] {
      assert MembersTokens(ms) + [Broken] + rest == [Broken] + rest;
    } else {
      var tail := MembersTokens(ms[1..]) + [Broken] + rest;
      assert MembersTokens(ms) + [Broken] + rest == [Name(ms[0].key)] + (Tokens(ms[0].value) + tail);
      NameThen(ms[0].key, Tokens(ms[0].value) + tail);
      EntryFieldMeaning(ms[0], tail, e);
      EntryFieldsBroken(ms[1..], rest, ApplyField(ms[0], e));
    }
  }

  lemma DecodeEntryBroken(ms: seq<Member>, rest: seq<Token>)
    requires MembersOk(ms, EMPTY_ENTRY)
    ensures DecodeEntry([BeginObject] + MembersTokens(ms) + [Broken] + rest) == Got(DecodedValue(ms), [])
  {
    var inner := MembersTokens(ms) + [Broken] + rest;
    assert [BeginObject] + MembersTokens(ms) + [Broken] + rest == [BeginObject] + inner;
    EntryFieldsBroken(ms, rest, EMPTY_ENTRY);
    DecodeEntryCut(inner, ApplyFields(ms, EMPTY_ENTRY));
  }

  /** One accepted element of the "downloads" array: its entry is appended and the loop goes on after it. */
  lemma LoadDownloadsStep(v: JValue, tail: seq<Token>, acc: seq<Entry>)
    requires v.JObject? && MembersOk(v.members, EMPTY_ENTRY)
    ensures LoadDownloads(Tokens(v) + tail, acc) == LoadDownloads(tail, acc + [DecodedValue(v.members)])
  {
    var ts := Tokens(v) + tail;
    assert ts[0] == BeginObject;
    assert HasNext(ts) == Got(true, ts);
    DecodeEntryMeaning(v.members, tail);
  }

  /** The "downloads" loop appends the meaning of each accepted element, in array order, whatever follows them. */
  lemma {:induction false} LoadDownloadsPrefix(items: seq<JValue>, tail: seq<Token>, acc: seq<Entry>)
    requires EntriesOk(items)
    ensures LoadDownloads(ItemsTokens(items) + tail, acc) == LoadDownloads(tail, acc + DecodedItems(items))
    decreases |items|
  {
    if items == [] {
      assert ItemsTokens(items) + tail == tail;
      assert acc + DecodedItems(items) == acc;
    } else {
      var first := items[0];
      var others := items[1..];
      var e := DecodedValue(first.members);
      EntriesCons(items);
      ItemsTokensCons(items, tail);
      LoadDownloadsStep(first, ItemsTokens(others) + tail, acc);
      LoadDownloadsPrefix(others, tail, acc + [e]);
      AppendAssoc(acc, [e], DecodedItems(others));
    }
  }

  /** The first element of an accepted array, and the accepted rest. */
  lemma EntriesCons(items: seq<JValue>)
    requires items != [] && EntriesOk(items)
    ensures items[0].JObject? && MembersOk(items[0].members, EMPTY_ENTRY) && EntriesOk(items[1..])
    ensures DecodedItems(items) == [DecodedValue(items[0].members)] + DecodedItems(items[1..])
  {
    var others := items[1..];
    forall i | 0 <= i < |others| ensures others[i].JObject? && MembersOk(others[i].members, EMPTY_ENTRY) {
      assert others[i] == items[i + 1];
    }
  }

  lemma ItemsTokensCons(items: seq<JValue>, tail: seq<Token>)
    requires items != []
    ensures ItemsTokens(items) + tail == Tokens(items[0]) + (ItemsTokens(items[1..]) + tail)
  {
  }

  lemma LoadDownloadsMeaning(items: seq<JValue>, rest: seq<Token>, acc: seq<Entry>)
    requires EntriesOk(items)
    ensures LoadDownloads(ItemsTokens(items) + [EndArray] + rest, acc) == Parsed(acc + DecodedItems(items), None, [EndArray] + rest)
  {
    AppendAssoc(ItemsTokens(items), [EndArray], rest);
    LoadDownloadsPrefix(items, [EndArray] + rest, acc);
    LoadDownloadsEnd(rest, acc + DecodedItems(items));
  }

  /** Concatenation is associative (a step the decoding lemmas take on token and entry lists). */
  lemma AppendAssoc<T>(a: seq<T>, b: seq<T>, c: seq<T>)
    ensures a + b + c == a + (b + c)
  {
  }

  /** The closing bracket of the "downloads" array ends its loop. */
  lemma LoadDownloadsEnd(rest: seq<Token>, acc: seq<Entry>)
    ensures LoadDownloads([EndArray] + rest, acc) == Parsed(acc, None, [EndArray] + rest)
  {
    assert ([EndArray] + rest)[0] == EndArray;
  }

  /** The closing bracket of the document ends the member loop. */
  lemma LoadMembersEnd(rest: seq<Token>, acc: seq<Entry>)
    ensures LoadMembers([EndObject] + rest, acc) == Parsed(acc, None, [EndObject] + rest)
  {
    assert ([EndObject] + rest)[0] == EndObject;
  }

  /** `load` reads the opening bracket and runs the member loop on what follows. */
  lemma LoadDocumentOpen(t: seq<Token>)
    ensures LoadDocument([BeginObject] + t) == LoadMembers(t, [])
  {
    SingleThen(BeginObject, t);
  }

  /**
   * A lexical error inside an entry of the "downloads" array: the entries
   * before it and the entry read so far are kept, in order, and the load
   * ends with an IOException, which `load` does not let escape.
   */
  lemma MidEntryFailureKeeps(items: seq<JValue>, ms: seq<Member>, rest: seq<Token>)
    requires EntriesOk(items) && MembersOk(ms, EMPTY_ENTRY)
    ensures var ts := [BeginObject, Name("downloads"), BeginArray] + ItemsTokens(items) + [BeginObject] + MembersTokens(ms) + [Broken] + rest;
      var l := LoadDocument(ts);
      l == Parsed(DecodedItems(items) + [DecodedValue(ms)], Some(IOFailure), [])
      && Escaping(l.fault).None?
  {
    var broken := [BeginObject] + MembersTokens(ms) + [Broken] + rest;
    var inner := ItemsTokens(items) + broken;
    MidEntryShape(ItemsTokens(items), MembersTokens(ms), rest);
    LoadDocumentOpen([Name("downloads")] + ([BeginArray] + inner));
    LoadDownloadsPrefix(items, broken, []);
    assert [] + DecodedItems(items) == DecodedItems(items);
    BrokenEntryEndsDownloads(ms, rest, DecodedItems(items));
    DownloadsFault(inner, []);
  }

  lemma MidEntryShape(it: seq<Token>, mt: seq<Token>, rest: seq<Token>)
    ensures [BeginObject, Name("downloads"), BeginArray] + it + [BeginObject] + mt + [Broken] + rest
      == [BeginObject] + ([Name("downloads")] + ([BeginArray] + (it + ([BeginObject] + mt + [Broken] + rest))))
  {
  }

  /** An entry cut short by a lexical error is appended, and the array loop ends with the IOException. */
  lemma BrokenEntryEndsDownloads(ms: seq<Member>, rest: seq<Token>, acc: seq<Entry>)
    requires MembersOk(ms, EMPTY_ENTRY)
    ensures LoadDownloads([BeginObject] + MembersTokens(ms) + [Broken] + rest, acc)
      == Parsed(acc + [DecodedValue(ms)], Some(IOFailure), [])
  {
    DecodeEntryBroken(ms, rest);
  }

  /** A fault in the "downloads" array ends the document loop with the entries appended so far. */
  lemma DownloadsFault(t: seq<Token>, acc: seq<Entry>)
    requires LoadDownloads(t, acc).fault.Some?
    ensures LoadMembers([Name("downloads")] + ([BeginArray] + t), acc) == LoadDownloads(t, acc)
  {
    NameThen("downloads", [BeginArray] + t);
    SingleThen(BeginArray, t);
  }

  lemma {:induction false} LoadMembersMeaning(ms: seq<Member>, rest: seq<Token>, acc: seq<Entry>)
    requires DocumentOk(ms)
    ensures LoadMembers(MembersTokens(ms) + [EndObject] + rest, acc) == Parsed(acc + DownloadsOf(ms), None, [EndObject] + rest)
    decreases |ms|
  {
    if ms == [] {
      assert MembersTokens(ms) + [EndObject] + rest == [EndObject] + rest;
      assert acc + DownloadsOf(ms) == acc;
      LoadMembersEnd(rest, acc);
    } else {
      var tail := MembersTokens(ms[1..]) + [EndObject] + rest;
      var added := if ms[0].key == "downloads" then DecodedItems(ms[0].value.items) else [];
      MembersTokensCons(ms, rest);
      DocumentCons(ms);
      LoadMemberStep(ms[0], tail, acc);
      LoadMembersMeaning(ms[1..], rest, acc + added);
      AppendAssoc(acc, added, DownloadsOf(ms[1..]));
    }
  }

  lemma MembersTokensCons(ms: seq<Member>, rest: seq<Token>)
    requires ms != []
    ensures MembersTokens(ms) + [EndObject] + rest
      == [Name(ms[0].key)] + (Tokens(ms[0].value) + (MembersTokens(ms[1..]) + [EndObject] + rest))
  {
  }

  /** The first member of an accepted document, and the accepted rest. */
  lemma DocumentCons(ms: seq<Member>)
    requires ms != [] && DocumentOk(ms)
    ensures ms[0].key == "downloads" ==> ms[0].value.JArray? && EntriesOk(ms[0].value.items)
    ensures DocumentOk(ms[1..])
    ensures DownloadsOf(ms) == (if ms[0].key == "downloads" then DecodedItems(ms[0].value.items) else []) + DownloadsOf(ms[1..])
  {
    forall i | 0 <= i < |ms[1..]| ensures ms[1..][i] == ms[i + 1] { }
  }

  /** One top-level member: a "downloads" array adds its entries, any other member is skipped. */
  lemma LoadMemberStep(m: Member, tail: seq<Token>, acc: seq<Entry>)
    requires m.key == "downloads" ==> m.value.JArray? && EntriesOk(m.value.items)
    ensures LoadMembers([Name(m.key)] + (Tokens(m.value) + tail), acc)
      == LoadMembers(tail, acc + if m.key == "downloads" then DecodedItems(m.value.items) else [])
  {
    if m.key == "downloads" {
      var items := m.value.items;
      var inner := ItemsTokens(items) + [EndArray] + tail;
      ArrayTokens(items, tail);
      LoadDownloadsMeaning(items, tail, acc);
      DownloadsMemberStep(inner, tail, acc, acc + DecodedItems(items));
    } else {
      SkipTokens(m.value, tail, 0);
      OtherMemberStep(m.key, Tokens(m.value) + tail, tail, acc);
      assert acc + [] == acc;
    }
  }

  /** A "downloads" array read to its closing bracket: the member loop goes on after it. */
  lemma DownloadsMemberStep(inner: seq<Token>, tail: seq<Token>, acc: seq<Entry>, acc': seq<Entry>)
    requires LoadDownloads(inner, acc) == Parsed(acc', None, [EndArray] + tail)
    ensures LoadMembers([Name("downloads")] + ([BeginArray] + inner), acc) == LoadMembers(tail, acc')
  {
    NameThen("downloads", [BeginArray] + inner);
    SingleThen(BeginArray, inner);
    SingleThen(EndArray, tail);
  }

  /** Any other member whose value skips to `tail`: the member loop goes on there. */
  lemma OtherMemberStep(key: string, t: seq<Token>, tail: seq<Token>, acc: seq<Entry>)
    requires key != "downloads" && Skip(t, 0) == Got((), tail)
    ensures LoadMembers([Name(key)] + t, acc) == LoadMembers(tail, acc)
  {
    NameThen(key, t);
  }

  /**
   * `load` on an accepted document yields exactly its downloads, stops
   * before the document's closing bracket, and raises nothing.
   */
  lemma LoadDocumentMeaning(ms: seq<Member>, rest: seq<Token>)
    requires DocumentOk(ms)
    ensures LoadDocument(Tokens(JObject(ms)) + rest) == Parsed(DownloadsOf(ms), None, [EndObject] + rest)
  {
    var inner := MembersTokens(ms) + [EndObject] + rest;
    ObjectTokens(ms, rest);
    LoadDocumentOpen(inner);
    LoadMembersMeaning(ms, rest, []);
    assert [] + DownloadsOf(ms) == DownloadsOf(ms);
  }

  /** A top-level member other than "downloads" is skipped whatever its value. */
  lemma OtherMemberSkipped(key: string, v: JValue, rest: seq<Token>, acc: seq<Entry>)
    requires key != "downloads"
    ensures LoadMembers([Name(key)] + Tokens(v) + rest, acc) == LoadMembers(rest, acc)
  {
    assert [Name(key)] + Tokens(v) + rest == [Name(key)] + (Tokens(v) + rest);
    NameThen(key, Tokens(v) + rest);
    SkipTokens(v, rest, 0);
  }

  /** An entry member with an unknown key is skipped whatever its value. */
  lemma UnknownEntryMemberSkipped(key: string, v: JValue, rest: seq<Token>, e: Entry)
    requires key !in {"path", "originUrl", "localUrl", "md5", "sha256", "sha1", "size", "storeKey"}
    ensures EntryFields([Name(key)] + Tokens(v) + rest, e) == EntryFields(rest, e)
  {
    assert [Name(key)] + Tokens(v) + rest == [Name(key)] + (Tokens(v) + rest);
    NameThen(key, Tokens(v) + rest);
    SkipTokens(v, rest, 0);
  }

  /** A storeKey member with an unknown key is skipped whatever its value. */
  lemma UnknownKeyMemberSkipped(key: string, v: JValue, rest: seq<Token>, k: StoreKey)
    requires key !in {"packageType", "type", "name"}
    ensures KeyFields([Name(key)] + Tokens(v) + rest, k) == KeyFields(rest, k)
  {
    assert [Name(key)] + Tokens(v) + rest == [Name(key)] + (Tokens(v) + rest);
    NameThen(key, Tokens(v) + rest);
    SkipTokens(v, rest, 0);
  }

  /**
   * The origin URL rules: "originUrl" text always sets it, "originUrl"
   * of another kind keeps the earlier value, "localUrl" sets it only while
   * it is still "".
   */
  lemma OriginUrlRules(v: JValue, rest: seq<Token>, e: Entry)
    ensures v.JString? ==> EntryField(Tokens(v) + rest, "originUrl", e) == Parsed(e.(originUrl := v.s), None, rest)
    ensures !v.JString? ==> EntryField(Tokens(v) + rest, "originUrl", e) == Parsed(e, None, rest)
    ensures e.originUrl != "" ==> EntryField(Tokens(v) + rest, "localUrl", e) == Parsed(e, None, rest)
    ensures e.originUrl == "" && v.JString? ==> EntryField(Tokens(v) + rest, "localUrl", e) == Parsed(e.(originUrl := v.s), None, rest)
  {
    EntryFieldMeaning(Member("originUrl", v), rest, e);
    if e.originUrl != "" || v.JString? {
      EntryFieldMeaning(Member("localUrl", v), rest, e);
    }
  }

  // ---------------------------------------------------------------------
  // The service
  // ---------------------------------------------------------------------

  const MEDIA_TYPE_JSON := "application/json"

  /** The file `loadReport` opens: the directory, a slash, and the build id (a missing id prints as "null"). */
  function ReportPath(dir: string, buildConfigId: Option<string>): (p: string)
    ensures |p| > |dir| && p[..|dir|] == dir && p[|dir|] == '/'
    ensures buildConfigId.Some? ==> p[|dir| + 1..] == buildConfigId.value
    ensures buildConfigId.None? ==> p[|dir| + 1..] == "null"
  {
    dir + "/" + (if buildConfigId.Some? then buildConfigId.value else "null")
  }

  /** Why `loadReport` can end with an exception. */
  datatype LoadFailure = FileNotFound(filePath: string) | Thrown(fault: Fault)

  class ReportService {
    /** The report this service answers with; reassigned by `resetReport`. */
    var trackedContent: TrackedContent

    constructor (tc: TrackedContent)
      ensures trackedContent == tc
    {
      trackedContent := tc;
    }

    /** `getReport`: 200 with the report as JSON; nothing changes. */
    method GetReport() returns (r: Response)
      ensures r.status == 200 && r.reason == "OK"
      ensures r.headers == [("Content-Type", MEDIA_TYPE_JSON)]
      ensures r.entity == Some(Report(trackedContent.downloads))
    {
      r := Response(200, "OK", [("Content-Type", MEDIA_TYPE_JSON)], Some(Report(trackedContent.downloads)));
    }

    /** `resetReport`: the field is pointed at a new, empty report; the old object is left as it was. */
    method ResetReport() returns (r: Response)
      modifies this
      ensures fresh(trackedContent) && trackedContent.downloads == []
      ensures r == Response(200, "OK", [], None)
    {
      trackedContent := new TrackedContent();
      r := Response(200, "OK", [], None);
    }

    /** The reset the sharing of the report calls for: the shared object itself is emptied. */
    method ResetReportInPlace() returns (r: Response)
      modifies trackedContent
      ensures trackedContent == old(trackedContent) && trackedContent.downloads == []
      ensures r == Response(200, "OK", [], None)
    {
      trackedContent.Clear();
      r := Response(200, "OK", [], None);
    }

    /** The storeKey object: beginObject, its member loop; the caller reads endObject. */
    method ReadStoreKey(reader: JsonReader) returns (k: StoreKey, f: Option<Fault>)
      modifies reader
      ensures var p := KeyFields(old(reader.input), EMPTY_STORE_KEY);
        k == p.value && f == p.fault && reader.input == p.rest
    {
      k := EMPTY_STORE_KEY;
      f := None;
      while true
        invariant f.None?
        invariant KeyFields(reader.input, k) == KeyFields(old(reader.input), EMPTY_STORE_KEY)
        decreases |reader.input|
      {
        ghost var before := reader.input;
        var more := reader.HasNextToken();
        if more.Err? {
          f := Some(more.error);
          return;
        }
        if !more.value {
          return;
        }
        var name := reader.NextNameToken();
        if name.Err? {
          f := Some(name.error);
          return;
        }
        var key := name.value;
        if key == "packageType" {
          var s := reader.NextStringToken();
          if s.Err? {
            f := Some(s.error);
            return;
          }
          k := k.(packageType := s.value);
        } else if key == "type" {
          var s := reader.NextStringToken();
          if s.Err? {
            f := Some(s.error);
            return;
          }
          var t := StoreTypeOf(s.value);
          if t.None? {
            f := Some(IllegalArgument);
            return;
          }
          k := k.(storeType := t);
        } else if key == "name" {
          var s := reader.NextStringToken();
          if s.Err? {
            f := Some(s.error);
            return;
          }
          k := k.(name := s.value);
        } else {
          f := reader.SkipValue();
          if f.Some? {
            return;
          }
        }
        assert |reader.input| < |before|;
      }
    }

    /** One case of the `switch (jsonKey)` of `loadTrackedContentEntry`. */
    method ReadEntryField(reader: JsonReader, name: string, e: Entry) returns (e': Entry, f: Option<Fault>)
      modifies reader
      ensures var p := EntryField(old(reader.input), name, e);
        e' == p.value && f == p.fault && reader.input == p.rest
    {
      e' := e;
      f := None;
      if name == "path" || name == "md5" || name == "sha256" || name == "sha1" {
        var s := reader.NextStringToken();
        if s.Err? {
          f := Some(s.error);
        } else {
          e' := SetText(e, name, s.value);
        }
      } else if name == "originUrl" {
        var s := reader.NextStringToken();
        if s.Ok? {
          e' := e.(originUrl := s.value);
        } else if s.error == IllegalState {
          f := reader.SkipValue();
        } else {
          f := Some(s.error);
        }
      } else if name == "localUrl" {
        if e.originUrl == "" {
          var s := reader.NextStringToken();
          if s.Err? {
            f := Some(s.error);
          } else {
            e' := e.(originUrl := s.value);
          }
        } else {
          f := reader.SkipValue();
        }
      } else if name == "size" {
        var n := reader.NextLongToken();
        if n.Err? {
          f := Some(n.error);
        } else {
          e' := e.(size := n.value);
        }
      } else if name == "storeKey" {
        f := reader.Consume(BeginObject);
        if f.None? {
          var k;
          k, f := ReadStoreKey(reader);
          if f.None? {
            e' := e.(storeKey := Some(k));
            f := reader.Consume(EndObject);
          }
        }
      } else {
        f := reader.SkipValue();
      }
    }

    /** `loadTrackedContentEntry`: an IOException ends the entry early; any other exception escapes. */
    method LoadTrackedContentEntry(reader: JsonReader) returns (r: Result<Entry, Fault>)
      modifies reader
      ensures var d := DecodeEntry(old(reader.input)); r == AsResult(d) && reader.input == d.rest
      ensures r.Ok? ==> r.value.accessChannel == CHANNEL_GENERIC_PROXY
    {
      var entry := EMPTY_ENTRY;
      var f := reader.Consume(BeginObject);
      if f.None? {
        ghost var start := reader.input;
        while true
          invariant f.None?
          invariant EntryFields(reader.input, entry) == EntryFields(start, EMPTY_ENTRY)
          decreases |reader.input|
        {
          ghost var before := reader.input;
          var more := reader.HasNextToken();
          if more.Err? {
            f := Some(more.error);
            break;
          }
          if !more.value {
            break;
          }
          var name := reader.NextNameToken();
          if name.Err? {
            f := Some(name.error);
            break;
          }
          entry, f := ReadEntryField(reader, name.value, entry);
          if f.Some? {
            break;
          }
          assert |reader.input| < |before|;
        }
        if f.None? {
          f := reader.Consume(EndObject);
        }
      }
      if f.Some? && f != Some(IOFailure) {
        return Err(f.value);
      }
      entry := entry.(accessChannel := CHANNEL_GENERIC_PROXY);
      r := Ok(entry);
    }

    /**
     * `load`: the entries decoded are appended to the report one by one, in
     * document order, after those already there; an IOException ends the
     * load quietly and the others escape, keeping what was appended.
     */
    /** The array loop of the "downloads" member: each entry decoded is appended to the report. */
    method LoadDownloadsArray(reader: JsonReader, ghost base: seq<Entry>, ghost acc: seq<Entry>)
      returns (f: Option<Fault>, ghost acc': seq<Entry>)
      requires trackedContent.downloads == base + acc
      modifies reader, trackedContent
      ensures LoadDownloads(old(reader.input), acc) == Parsed(acc', f, reader.input)
      ensures trackedContent.downloads == base + acc'
    {
      ghost var inner := LoadDownloads(reader.input, acc);
      acc' := acc;
      while true
        invariant LoadDownloads(reader.input, acc') == inner
        invariant trackedContent.downloads == base + acc'
        decreases |reader.input|
      {
        DownloadsLoopStep(reader.input, acc');
        var more := reader.HasNextToken();
        if more.Err? {
          return Some(more.error), acc';
        }
        if !more.value {
          return None, acc';
        }
        ghost var at := reader.input;
        var e := LoadTrackedContentEntry(reader);
        if e.Err? {
          return Some(e.error), acc';
        }
        DownloadsLoopStep(at, acc');
        trackedContent.AppendDownload(e.value);
        acc' := acc' + [e.value];
      }
    }

    method Load(reader: JsonReader) returns (escaped: Option<Fault>)
      modifies reader, trackedContent
      ensures var l := LoadDocument(old(reader.input));
        trackedContent.downloads == old(trackedContent.downloads) + l.value
        && escaped == Escaping(l.fault)
    {
      ghost var base := trackedContent.downloads;
      var f := reader.Consume(BeginObject);
      if f.Some? {
        return Escaping(f);
      }
      ghost var total := LoadMembers(reader.input, []);
      ghost var acc: seq<Entry> := [];
      while true
        invariant LoadMembers(reader.input, acc) == total
        invariant trackedContent.downloads == base + acc
        decreases |reader.input|
      {
        ghost var before := reader.input;
        MembersLoopStep(before, acc);
        var more := reader.HasNextToken();
        if more.Err? {
          return Escaping(Some(more.error));
        }
        if !more.value {
          return None;
        }
        var name := reader.NextNameToken();
        if name.Err? {
          return Escaping(Some(name.error));
        }
        if name.value == "downloads" {
          f := reader.Consume(BeginArray);
          if f.Some? {
            return Escaping(f);
          }
          DownloadsMemberDone(before, acc);
          ghost var acc' := acc;
          f, acc' := LoadDownloadsArray(reader, base, acc);
          if f.Some? {
            return Escaping(f);
          }
          acc := acc';
          f := reader.Consume(EndArray);
          if f.Some? {
            return Escaping(f);
          }
        } else {
          f := reader.SkipValue();
          if f.Some? {
            return Escaping(f);
          }
        }
      }
    }

    /** `loadReport`: open the build's file under the directory and load it; `files` stands for the file system. */
    method LoadReport(dir: string, buildConfigId: Option<string>, files: map<string, seq<Token>>)
      returns (failure: Option<LoadFailure>)
      modifies trackedContent
      ensures var p := ReportPath(dir, buildConfigId);
        (p !in files ==> failure == Some(FileNotFound(p)) && trackedContent.downloads == old(trackedContent.downloads))
        && (p in files ==>
              var l := LoadDocument(files[p]);
              trackedContent.downloads == old(trackedContent.downloads) + l.value
              && failure == (if Escaping(l.fault).Some? then Some(Thrown(Escaping(l.fault).value)) else None))
    {
      var p := ReportPath(dir, buildConfigId);
      if p !in files {
        return Some(FileNotFound(p));
      }
      var reader := new JsonReader(files[p]);
      var escaped := Load(reader);
      failure := if escaped.Some? then Some(Thrown(escaped.value)) else None;
    }
  }
}
