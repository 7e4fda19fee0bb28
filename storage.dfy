/** StorageManager (storage.py): the JSON document that maps each stream uid
    to its binding `{url, water_mark, hls_url}`. Every call reloads the
    document and every change rewrites it whole, so the model keeps the
    document itself as the manager's state. */
module Storage {
  import opened Common

  /** The `watermark_paths` argument of `set_binding`: a list of paths, or
      any single value (a path, or None). */
  datatype WatermarkArg = PathList(paths: seq<Option<string>>) | Single(value: Option<string>)

  /** One stored binding. `status` is not written by this module; it is the
      field other components add to an entry. */
  datatype Binding = Binding(url: Option<string>, waterMark: seq<Option<string>>, hlsUrl: string, status: Option<string>)

  /** The storage file: a valid JSON document, or one that is not valid JSON. */
  datatype Document = Parsed(data: map<string, Binding>) | Malformed

  /** `_load`: a document that is not valid JSON reads as the empty mapping. */
  function Load(d: Document): (m: map<string, Binding>)
    ensures d.Malformed? ==> m == map[]
    ensures d.Parsed? ==> m == d.data
  {
    match d
    case Parsed(data) => data
    case Malformed => map[]
  }

  /** What `set_binding` stores for `watermark_paths`: a list as given, any
      other value as a one-element list holding it. */
  function StoredWatermarks(arg: WatermarkArg): (r: seq<Option<string>>)
    ensures arg.PathList? ==> r == arg.paths
    ensures arg.Single? ==> |r| == 1 && r[0] == arg.value
  {
    match arg
    case PathList(paths) => paths
    case Single(v) => [v]
  }

  /** The playlist a binding's worker writes, named after its uid. */
  function HlsUrl(dir: string, uid: string): string
  {
    dir + "/" + uid + ".m3u8"
  }

  /** Distinct uids get distinct playlists in the same directory. */
  lemma HlsUrlInjective(dir: string, a: string, b: string)
    requires HlsUrl(dir, a) == HlsUrl(dir, b)
    ensures a == b
  {
    var s := HlsUrl(dir, a);
    assert |a| == |b| by {
      assert |HlsUrl(dir, a)| == |dir| + 1 + |a| + 5;
      assert |HlsUrl(dir, b)| == |dir| + 1 + |b| + 5;
    }
    var lo := |dir| + 1;
    assert s[lo..lo + |a|] == a;
    assert HlsUrl(dir, b)[lo..lo + |b|] == b;
  }

  /** The entry `set_binding` writes: every field is new, so nothing of an
      earlier entry (its status included) survives. */
  function NewEntry(dir: string, url: Option<string>, wm: WatermarkArg, uid: string): Binding
  {
    Binding(url, StoredWatermarks(wm), HlsUrl(dir, uid), None)
  }

  /** The mapping after `set_binding` for `uid`. */
  function Stored(data: map<string, Binding>, dir: string, url: Option<string>, wm: WatermarkArg, uid: string): map<string, Binding>
  {
    data[uid := NewEntry(dir, url, wm, uid)]
  }

  /** `get_info`: the entry, or None for an unknown uid. */
  function Info(data: map<string, Binding>, uid: string): (r: Option<Binding>)
    ensures r.Some? <==> uid in data
    ensures r.Some? ==> r.value == data[uid]
  {
    Get(data, uid)
  }

  /** `get_url`: the stored url, or None for an unknown uid. */
  function Url(data: map<string, Binding>, uid: string): (r: Option<string>)
    ensures uid !in data ==> r == None
    ensures uid in data ==> r == data[uid].url
  {
    match Info(data, uid)
    case Some(info) => info.url
    case None => None
  }

  /** `get_watermarks`: the stored list, or the empty list for an unknown uid. */
  function Watermarks(data: map<string, Binding>, uid: string): (r: seq<Option<string>>)
    ensures uid !in data ==> r == []
    ensures uid in data ==> r == data[uid].waterMark
  {
    match Info(data, uid)
    case Some(info) => info.waterMark
    case None => []
  }

  /** `get_hls_url`: the stored playlist, or None for an unknown uid. */
  function HlsUrlOf(data: map<string, Binding>, uid: string): (r: Option<string>)
    ensures uid !in data ==> r == None
    ensures uid in data ==> r == Some(data[uid].hlsUrl)
  {
    match Info(data, uid)
    case Some(info) => Some(info.hlsUrl)
    case None => None
  }

  /** After `set_binding`, every getter returns exactly what was written. */
  lemma SetThenGet(data: map<string, Binding>, dir: string, url: Option<string>, wm: WatermarkArg, uid: string)
    ensures var d := Stored(data, dir, url, wm, uid);
            Info(d, uid) == Some(Binding(url, StoredWatermarks(wm), HlsUrl(dir, uid), None)) &&
            Url(d, uid) == url && Watermarks(d, uid) == StoredWatermarks(wm) &&
            HlsUrlOf(d, uid) == Some(HlsUrl(dir, uid))
  {
  }

  /** `set_binding` leaves every other uid's entry as it was. */
  lemma SetLeavesOthers(data: map<string, Binding>, dir: string, url: Option<string>, wm: WatermarkArg, uid: string, other: string)
    requires other != uid
    ensures Info(Stored(data, dir, url, wm, uid), other) == Info(data, other)
  {
  }

  /** Writing the same binding twice is writing it once. */
  lemma SetIdempotent(data: map<string, Binding>, dir: string, url: Option<string>, wm: WatermarkArg, uid: string)
    ensures Stored(Stored(data, dir, url, wm, uid), dir, url, wm, uid) == Stored(data, dir, url, wm, uid)
  {
  }

  /** Removing a binding that was just added for a new uid restores the
      mapping. */
  lemma RemoveUndoesSet(data: map<string, Binding>, dir: string, url: Option<string>, wm: WatermarkArg, uid: string)
    requires uid !in data
    ensures Stored(data, dir, url, wm, uid) - {uid} == data
  {
  }

  /** After `remove_binding` the getters answer as for an unknown uid, and
      every other entry is unchanged. */
  lemma RemoveThenGet(data: map<string, Binding>, uid: string, other: string)
    ensures Info(data - {uid}, uid) == None && Url(data - {uid}, uid) == None
    ensures Watermarks(data - {uid}, uid) == [] && HlsUrlOf(data - {uid}, uid) == None
    ensures other != uid ==> Info(data - {uid}, other) == Info(data, other)
  {
  }

  /** Two bindings `set_binding` wrote into the same directory never share a
      playlist. */
  lemma PlaylistsDistinct(data: map<string, Binding>, dir: string, a: string, b: string)
    requires a in data && b in data && a != b
    requires data[a].hlsUrl == HlsUrl(dir, a) && data[b].hlsUrl == HlsUrl(dir, b)
    ensures HlsUrlOf(data, a) != HlsUrlOf(data, b)
  {
    if HlsUrl(dir, a) == HlsUrl(dir, b) {
      HlsUrlInjective(dir, a, b);
    }
  }

  class StorageManager {
    var file: Document
    const hlsOutputDir: string

    /** `__init__` with `_ensure_file`: a missing file is created holding the
        empty mapping; an existing one is kept as it is. */
    constructor (hlsOutputDir: string, existing: Option<Document>)
      ensures this.hlsOutputDir == hlsOutputDir
      ensures file == if existing.Some? then existing.value else Parsed(map[])
    {
      this.hlsOutputDir := hlsOutputDir;
      if existing.None? {
        file := Parsed(map[]);
      } else {
        file := existing.value;
      }
    }

    /** `list_bindings`. */
    function ListBindings(): map<string, Binding>
      reads this
    {
      Load(file)
    }

    function GetInfo(uid: string): Option<Binding>
      reads this
    {
      Info(Load(file), uid)
    }

    function GetUrl(uid: string): Option<string>
      reads this
    {
      Url(Load(file), uid)
    }

    function GetWatermarks(uid: string): seq<Option<string>>
      reads this
    {
      Watermarks(Load(file), uid)
    }

    function GetHlsUrl(uid: string): Option<string>
      reads this
    {
      HlsUrlOf(Load(file), uid)
    }

    /** `set_binding`: a uid is generated when none is given (`generated`
        stands for `uuid4()`); the entry for the final uid is replaced whole
        and the document rewritten. */
    method SetBinding(url: Option<string>, wm: WatermarkArg, uid: Option<string>, generated: string) returns (finalUid: string)
      modifies this
      ensures finalUid == if uid.Some? then uid.value else generated
      ensures file == Parsed(Stored(Load(old(file)), hlsOutputDir, url, wm, finalUid))
    {
      finalUid := if uid.Some? then uid.value else generated;
      var paths := StoredWatermarks(wm);
      var data := Load(file);
      var hlsUrl := HlsUrl(hlsOutputDir, finalUid);
      data := data[finalUid := Binding(url, paths, hlsUrl, None)];
      file := Parsed(data);
    }

    /** `remove_binding`: the document is rewritten only when the uid is in
        it, so a document that is not valid JSON stays as it is. */
    method RemoveBinding(uid: string)
      modifies this
      ensures uid in Load(old(file)) ==> file == Parsed(Load(old(file)) - {uid})
      ensures uid !in Load(old(file)) ==> file == old(file)
    {
      var data := Load(file);
      if uid in data {
        data := data - {uid};
        file := Parsed(data);
      }
    }
  }
}
