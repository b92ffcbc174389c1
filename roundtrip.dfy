/**
 * A report written as JSON and loaded back. The writer puts every entry
 * property in the document; the decoder reads back a part of it, so the
 * round trip keeps the stored content fields and loses the tracking key
 * and the access channel.
 */
module ReportRoundTrip {
  import opened Wrappers
  import opened Model
  import opened Json
  import opened Report

  /** What the decoder can read back: a complete store key and a size that fits a long. */
  predicate Reloadable(e: Entry)
  {
    e.storeKey.Some? && e.storeKey.value.storeType.Some? && InLongRange(e.size)
  }

  function StoreKeyValue(k: StoreKey): JValue
    requires k.storeType.Some?
  {
    JObject([Member("packageType", JString(k.packageType)),
             Member("type", JString(StoreTypeName(k.storeType.value))),
             Member("name", JString(k.name))])
  }

  function TrackingKeyValue(t: Option<TrackingKey>): JValue
  {
    if t.Some? then JObject([Member("buildConfigId", JString(t.value.buildConfigId))]) else JNull
  }

  /** The members written for an entry, one per property. */
  function EntryMembers(e: Entry): seq<Member>
    requires Reloadable(e)
  {
    [Member("trackingKey", TrackingKeyValue(e.trackingKey)),
     Member("storeKey", StoreKeyValue(e.storeKey.value)),
     Member("accessChannel", JString(e.accessChannel)),
     Member("path", JString(e.path)),
     Member("originUrl", JString(e.originUrl)),
     Member("size", JNumber(e.size)),
     Member("md5", JString(e.md5)),
     Member("sha1", JString(e.sha1)),
     Member("sha256", JString(e.sha256))]
  }

  function EntryValues(es: seq<Entry>): seq<JValue>
    requires forall i :: 0 <= i < |es| ==> Reloadable(es[i])
  {
    if es == [] then [] else [JObject(EntryMembers(es[0]))] + EntryValues(es[1..])
  }

  /** The document written for a report. */
  function ReportValue(es: seq<Entry>): JValue
    requires forall i :: 0 <= i < |es| ==> Reloadable(es[i])
  {
    JObject([Member("downloads", JArray(EntryValues(es)))])
  }

  /** The entry the decoder gives back: no tracking key, and the GENERIC_PROXY channel. */
  function Reloaded(e: Entry): Entry
  {
    e.(trackingKey := None, accessChannel := CHANNEL_GENERIC_PROXY)
  }

  function ReloadedAll(es: seq<Entry>): seq<Entry>
  {
    if es == [] then [] else [Reloaded(es[0])] + ReloadedAll(es[1..])
  }

  lemma KeyCons(m: Member, ms: seq<Member>, k: StoreKey)
    requires KeyMemberOk(m) && forall i :: 0 <= i < |ms| ==> KeyMemberOk(ms[i])
    ensures forall i :: 0 <= i < |[m] + ms| ==> KeyMemberOk(([m] + ms)[i])
    ensures ApplyKeyFields([m] + ms, k) == ApplyKeyFields(ms, ApplyKeyField(m, k))
  {
    assert ([m] + ms)[0] == m;
    assert ([m] + ms)[1..] == ms;
  }

  /** A written store key is accepted and read back whole. */
  lemma StoreKeyReloads(k: StoreKey)
    requires k.storeType.Some?
    ensures forall i :: 0 <= i < |StoreKeyValue(k).members| ==> KeyMemberOk(StoreKeyValue(k).members[i])
    ensures ApplyKeyFields(StoreKeyValue(k).members, EMPTY_STORE_KEY) == k
  {
    var m0 := Member("packageType", JString(k.packageType));
    var m1 := Member("type", JString(StoreTypeName(k.storeType.value)));
    var m2 := Member("name", JString(k.name));
    var k1 := EMPTY_STORE_KEY.(packageType := k.packageType);
    var k2 := k1.(storeType := k.storeType);
    assert ApplyKeyField(m0, EMPTY_STORE_KEY) == k1;
    assert ApplyKeyField(m1, k1) == k2;
    assert ApplyKeyField(m2, k2) == k;
    var t2: seq<Member> := [];
    KeyCons(m2, t2, k2);
    KeyCons(m1, [m2] + t2, k1);
    KeyCons(m0, [m1] + ([m2] + t2), EMPTY_STORE_KEY);
    assert [m0] + ([m1] + ([m2] + t2)) == StoreKeyValue(k).members;
  }

  /** Accepting and applying a member list one member at a time. */
  lemma ApplyCons(m: Member, ms: seq<Member>, e: Entry)
    requires EntryMemberOk(m, e) && MembersOk(ms, ApplyField(m, e))
    ensures MembersOk([m] + ms, e)
    ensures ApplyFields([m] + ms, e) == ApplyFields(ms, ApplyField(m, e))
  {
    assert ([m] + ms)[0] == m;
    assert ([m] + ms)[1..] == ms;
  }

  lemma TextMember(key: string, s: string, e: Entry)
    requires key == "path" || key == "md5" || key == "sha256" || key == "sha1" || key == "originUrl"
    ensures EntryMemberOk(Member(key, JString(s)), e)
    ensures key == "path" ==> ApplyField(Member(key, JString(s)), e) == e.(path := s)
    ensures key == "md5" ==> ApplyField(Member(key, JString(s)), e) == e.(md5 := s)
    ensures key == "sha1" ==> ApplyField(Member(key, JString(s)), e) == e.(sha1 := s)
    ensures key == "sha256" ==> ApplyField(Member(key, JString(s)), e) == e.(sha256 := s)
    ensures key == "originUrl" ==> ApplyField(Member(key, JString(s)), e) == e.(originUrl := s)
  {
  }

  lemma IgnoredMember(m: Member, e: Entry)
    requires m.key == "trackingKey" || m.key == "accessChannel"
    ensures EntryMemberOk(m, e) && ApplyField(m, e) == e
  {
  }

  lemma SizeMember(n: int, e: Entry)
    requires InLongRange(n)
    ensures EntryMemberOk(Member("size", JNumber(n)), e) && ApplyField(Member("size", JNumber(n)), e) == e.(size := n)
  {
  }

  lemma StoreKeyMember(k: StoreKey, e: Entry)
    requires k.storeType.Some?
    ensures EntryMemberOk(Member("storeKey", StoreKeyValue(k)), e)
    ensures ApplyField(Member("storeKey", StoreKeyValue(k)), e) == e.(storeKey := Some(k))
  {
    StoreKeyReloads(k);
  }

  /** The content members, from "path" on, are accepted and set the matching fields. */
  lemma ContentMembersReload(e: Entry, x: Entry)
    requires Reloadable(e)
    ensures MembersOk(EntryMembers(e)[3..], x)
    ensures ApplyFields(EntryMembers(e)[3..], x)
         == x.(path := e.path, originUrl := e.originUrl, size := e.size, md5 := e.md5, sha1 := e.sha1, sha256 := e.sha256)
  {
    var m3 := Member("path", JString(e.path));
    var m4 := Member("originUrl", JString(e.originUrl));
    var m5 := Member("size", JNumber(e.size));
    var m6 := Member("md5", JString(e.md5));
    var m7 := Member("sha1", JString(e.sha1));
    var m8 := Member("sha256", JString(e.sha256));
    var e4 := x.(path := e.path);
    var e5 := e4.(originUrl := e.originUrl);
    var e6 := e5.(size := e.size);
    var e7 := e6.(md5 := e.md5);
    var e8 := e7.(sha1 := e.sha1);
    TextMember("path", e.path, x);
    TextMember("originUrl", e.originUrl, e4);
    SizeMember(e.size, e5);
    TextMember("md5", e.md5, e6);
    TextMember("sha1", e.sha1, e7);
    TextMember("sha256", e.sha256, e8);
    var t9: seq<Member> := [];
    var t8 := [m8] + t9;
    var t7 := [m7] + t8;
    var t6 := [m6] + t7;
    var t5 := [m5] + t6;
    var t4 := [m4] + t5;
    var t3 := [m3] + t4;
    ApplyCons(m8, t9, e8);
    ApplyCons(m7, t8, e7);
    ApplyCons(m6, t7, e6);
    ApplyCons(m5, t6, e5);
    ApplyCons(m4, t5, e4);
    ApplyCons(m3, t4, x);
    assert t3 == EntryMembers(e)[3..];
  }

  /** Each written entry is accepted and decodes to the entry without tracking key, on the GENERIC_PROXY channel. */
  lemma EntryReloads(e: Entry)
    requires Reloadable(e)
    ensures MembersOk(EntryMembers(e), EMPTY_ENTRY)
    ensures DecodedValue(EntryMembers(e)) == Reloaded(e)
  {
    var k := e.storeKey.value;
    var ms := EntryMembers(e);
    var m0 := Member("trackingKey", TrackingKeyValue(e.trackingKey));
    var m1 := Member("storeKey", StoreKeyValue(k));
    var m2 := Member("accessChannel", JString(e.accessChannel));
    var e2 := EMPTY_ENTRY.(storeKey := Some(k));
    IgnoredMember(m0, EMPTY_ENTRY);
    StoreKeyMember(k, EMPTY_ENTRY);
    IgnoredMember(m2, e2);
    var t3 := ms[3..];
    ContentMembersReload(e, e2);
    var t2 := [m2] + t3;
    var t1 := [m1] + t2;
    var t0 := [m0] + t1;
    ApplyCons(m2, t3, e2);
    ApplyCons(m1, t2, EMPTY_ENTRY);
    ApplyCons(m0, t1, EMPTY_ENTRY);
    assert t0 == ms;
    assert ApplyFields(t3, e2).(accessChannel := CHANNEL_GENERIC_PROXY) == Reloaded(e);
  }

  lemma {:induction false} EntriesReload(es: seq<Entry>)
    requires forall i :: 0 <= i < |es| ==> Reloadable(es[i])
    ensures EntriesOk(EntryValues(es))
    ensures DecodedItems(EntryValues(es)) == ReloadedAll(es)
    decreases |es|
  {
    if es != [] {
      EntryReloads(es[0]);
      EntriesReload(es[1..]);
      var vs := EntryValues(es);
      assert vs == [JObject(EntryMembers(es[0]))] + EntryValues(es[1..]);
      assert vs[1..] == EntryValues(es[1..]);
      forall i | 0 <= i < |vs|
        ensures vs[i].JObject? && MembersOk(vs[i].members, EMPTY_ENTRY)
      {
        if i > 0 {
          assert vs[i] == EntryValues(es[1..])[i - 1];
        }
      }
    }
  }

  /**
   * Writing a report and loading the document back appends every entry, in
   * order, without its tracking key and on the GENERIC_PROXY channel; the
   * load raises nothing and stops before the closing bracket.
   */
  lemma RoundTrip(es: seq<Entry>)
    requires forall i :: 0 <= i < |es| ==> Reloadable(es[i])
    ensures LoadDocument(Tokens(ReportValue(es))) == Parsed(ReloadedAll(es), None, [EndObject])
  {
    var vs := EntryValues(es);
    var ms := [Member("downloads", JArray(vs))];
    EntriesReload(es);
    OnlyDownloads(vs);
    LoadDocumentMeaning(ms, []);
    var ts := Tokens(JObject(ms));
    assert ts + [] == ts;
    assert [EndObject] + [] == [EndObject];
    assert ReportValue(es) == JObject(ms);
  }

  /** A document with one "downloads" member holds exactly that array's entries. */
  lemma OnlyDownloads(vs: seq<JValue>)
    requires EntriesOk(vs)
    ensures DocumentOk([Member("downloads", JArray(vs))])
    ensures DownloadsOf([Member("downloads", JArray(vs))]) == DecodedItems(vs)
  {
    var ms := [Member("downloads", JArray(vs))];
    assert ms[1..] == [];
    assert DecodedItems(vs) + [] == DecodedItems(vs);
  }

  /** The reloaded entries are as long as the written ones and keep all content fields. */
  lemma {:induction false} ReloadedAllKeeps(es: seq<Entry>)
    ensures |ReloadedAll(es)| == |es|
    ensures forall i :: 0 <= i < |es| ==>
      var r := ReloadedAll(es)[i];
      r.path == es[i].path && r.originUrl == es[i].originUrl && r.size == es[i].size
      && r.md5 == es[i].md5 && r.sha1 == es[i].sha1 && r.sha256 == es[i].sha256
      && r.storeKey == es[i].storeKey && r.trackingKey.None? && r.accessChannel == CHANNEL_GENERIC_PROXY
    decreases |es|
  {
    if es != [] {
      ReloadedAllKeeps(es[1..]);
      forall i | 0 <= i < |es| ensures ReloadedAll(es)[i] == Reloaded(es[i]) {
        if i > 0 {
          assert ReloadedAll(es)[i] == ReloadedAll(es[1..])[i - 1];
        }
      }
    }
  }
}
