/**
 * The tracked-content records shared by the proxy and the report service:
 * store keys, tracked entries and the report that collects them.
 */
module Model {
  import opened Wrappers

  newtype byte = x: int | 0 <= x < 256

  /** The three kinds of artifact store; `StoreType.valueOf` accepts exactly these names. */
  datatype StoreType = Hosted | Group | Remote

  /** `StoreType.valueOf`: the enum constant with this exact name, or IllegalArgumentException. */
  function StoreTypeOf(name: string): (t: Option<StoreType>)
    ensures t == Some(Hosted) <==> name == "hosted"
    ensures t == Some(Group) <==> name == "group"
    ensures t == Some(Remote) <==> name == "remote"
  {
    if name == "hosted" then Some(Hosted)
    else if name == "group" then Some(Group)
    else if name == "remote" then Some(Remote)
    else None
  }

  /** The name Jackson writes for a store type, the inverse of `StoreTypeOf`. */
  function StoreTypeName(t: StoreType): (name: string)
    ensures StoreTypeOf(name) == Some(t)
  {
    match t
    case Hosted => "hosted"
    case Group => "group"
    case Remote => "remote"
  }

  /** A store key; `storeType` is None while a decoded key has not seen its "type" field. */
  datatype StoreKey = StoreKey(packageType: string, storeType: Option<StoreType>, name: string)

  /** The store key of `new StoreKey()`. */
  const EMPTY_STORE_KEY := StoreKey("", None, "")

  datatype TrackingKey = TrackingKey(buildConfigId: string)

  /** One tracked transfer (TrackedContentEntry). */
  datatype Entry = Entry(
    trackingKey: Option<TrackingKey>,
    storeKey: Option<StoreKey>,
    accessChannel: string,
    originUrl: string,
    path: string,
    size: int,
    md5: string,
    sha1: string,
    sha256: string)

  /**
   * The entry of `new TrackedContentEntry()`. Its class is not part of this
   * model; the decoder relies on originUrl starting as "" (otherwise its
   * `getOriginUrl().equals("")` would throw), so every string starts as "".
   */
  const EMPTY_ENTRY := Entry(None, None, "", "", "", 0, "", "", "")

  /** The report (TrackedContent): its downloads, appended in place. */
  class TrackedContent {
    var downloads: seq<Entry>

    constructor ()
      ensures downloads == []
    {
      downloads := [];
    }

    method AppendDownload(e: Entry)
      modifies this
      ensures downloads == old(downloads) + [e]
    {
      downloads := downloads + [e];
    }

    /** Empties this report object in place. */
    method Clear()
      modifies this
      ensures downloads == []
    {
      downloads := [];
    }
  }
}
