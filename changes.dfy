/** StreamController (stream_controller.py:225-299): three caches keyed by
    stream uid (the watermark mapping, the fingerprint of every watermark
    file, and the source url), filled when the controller is built and
    compared against the store on every pass of `monitor_watermarks`.

    File contents are reached through a parameter: `files` maps every path
    that exists to the MD5 digest of its contents, so `_file_md5(path)` is
    `Fingerprint(files, path)`. */
module ChangeDetector {
  import opened Common
  import opened BindingView
  import Supervisor

  /** The status a detected change writes. It is not `need_restart`. */
  const Restart := "restart"

  /** `_file_md5`: the digest of the file, or None when it does not exist. */
  function Fingerprint(files: map<string, string>, path: string): Option<string>
  {
    Get(files, path)
  }

  /** `dict(watermarks)`: the mapping from watermark id to path, without its
      order (Python compares dicts without regard to order). */
  function ToMap(wms: seq<(string, string)>): map<string, string>
    decreases |wms|
  {
    if |wms| == 0 then map[] else ToMap(wms[..|wms| - 1])[wms[|wms| - 1].0 := wms[|wms| - 1].1]
  }

  /** The mapping's ids are exactly the listed ones. */
  lemma {:induction false} ToMapKeys(wms: seq<(string, string)>, id: string)
    ensures id in ToMap(wms) <==> exists k :: 0 <= k < |wms| && wms[k].0 == id
    decreases |wms|
  {
    if |wms| > 0 {
      var init := wms[..|wms| - 1];
      ToMapKeys(init, id);
      if id in ToMap(init) {
        var k :| 0 <= k < |init| && init[k].0 == id;
        assert wms[k] == init[k];
      }
      if exists k :: 0 <= k < |wms| && wms[k].0 == id {
        var k :| 0 <= k < |wms| && wms[k].0 == id;
        if k < |init| {
          assert wms[k] == init[k];
        }
      }
    }
  }

  /** With unique ids, each id maps to its own path. */
  lemma {:induction false} ToMapAt(wms: WatermarkMap, k: nat)
    requires k < |wms|
    ensures wms[k].0 in ToMap(wms) && ToMap(wms)[wms[k].0] == wms[k].1
    decreases |wms|
  {
    var init := wms[..|wms| - 1];
    if k < |wms| - 1 {
      assert UniqueIds(init) by {
        forall i, j | 0 <= i < j < |init| ensures init[i].0 != init[j].0 {
          assert init[i] == wms[i] && init[j] == wms[j];
        }
      }
      assert init[k] == wms[k];
      ToMapAt(init, k);
    }
  }

  /** Listing the same watermarks in another order gives the same mapping. */
  lemma ReorderedSameMap(a: WatermarkMap, b: WatermarkMap)
    requires forall p :: p in a <==> p in b
    ensures ToMap(a) == ToMap(b)
  {
    forall id | id in ToMap(a) ensures id in ToMap(b) && ToMap(a)[id] == ToMap(b)[id] {
      ToMapKeys(a, id);
      var k :| 0 <= k < |a| && a[k].0 == id;
      ToMapAt(a, k);
      assert a[k] in b;
      var j :| 0 <= j < |b| && b[j] == a[k];
      ToMapAt(b, j);
    }
    forall id | id in ToMap(b) ensures id in ToMap(a) {
      ToMapKeys(b, id);
      var j :| 0 <= j < |b| && b[j].0 == id;
      assert b[j] in a;
      var k :| 0 <= k < |a| && a[k] == b[j];
      ToMapAt(a, k);
    }
  }

  /** Listing the same watermarks in another order does not flag a binding:
      the mappings compare without regard to order, and each digest is
      compared with the one cached under the same id. */
  lemma ReorderedNotFlagged(info: StreamInfo, wms: WatermarkMap, uid: string, c: Caches, files: map<string, string>)
    requires forall p :: p in wms <==> p in info.waterMarks
    ensures Flagged(info.(waterMarks := wms), uid, c, files) == Flagged(info, uid, c, files)
  {
    ReorderedSameMap(wms, info.waterMarks);
    var cached := GetOr(c.md5s, uid, map[]);
    if FingerprintDrift(wms, cached, files) {
      var k :| 0 <= k < |wms| && Fingerprint(files, wms[k].1) != GetOr(cached, wms[k].0, None);
      assert wms[k] in info.waterMarks;
    }
    if FingerprintDrift(info.waterMarks, cached, files) {
      var k :| 0 <= k < |info.waterMarks| &&
               Fingerprint(files, info.waterMarks[k].1) != GetOr(cached, info.waterMarks[k].0, None);
      assert info.waterMarks[k] in wms;
    }
  }

  /** `{wm_uid: _file_md5(p) for wm_uid, p in watermarks.items()}`. */
  function Fingerprints(wms: seq<(string, string)>, files: map<string, string>): map<string, Option<string>>
    decreases |wms|
  {
    if |wms| == 0 then map[]
    else Fingerprints(wms[..|wms| - 1], files)[wms[|wms| - 1].0 := Fingerprint(files, wms[|wms| - 1].1)]
  }

  /** With unique ids, each id maps to the digest of its own file. */
  lemma {:induction false} FingerprintsAt(wms: WatermarkMap, files: map<string, string>, k: nat)
    requires k < |wms|
    ensures wms[k].0 in Fingerprints(wms, files)
    ensures Fingerprints(wms, files)[wms[k].0] == Fingerprint(files, wms[k].1)
    decreases |wms|
  {
    var init := wms[..|wms| - 1];
    if k < |wms| - 1 {
      assert UniqueIds(init) by {
        forall i, j | 0 <= i < j < |init| ensures init[i].0 != init[j].0 {
          assert init[i] == wms[i] && init[j] == wms[j];
        }
      }
      assert init[k] == wms[k];
      FingerprintsAt(init, files, k);
    }
  }

  /** Some watermark file's digest differs from the one cached for its id. */
  predicate FingerprintDrift(wms: seq<(string, string)>, cached: map<string, Option<string>>, files: map<string, string>)
  {
    exists k :: 0 <= k < |wms| && Fingerprint(files, wms[k].1) != GetOr(cached, wms[k].0, None)
  }

  /** The three caches of the controller. */
  datatype Caches = Caches(
    paths: map<string, map<string, string>>,
    md5s: map<string, map<string, Option<string>>>,
    urls: map<string, Option<string>>)

  /** A binding is flagged when its url differs from the cached one, its
      watermark mapping differs from the cached one (or none is cached), or
      a watermark file's digest differs from the cached one. */
  predicate Flagged(info: StreamInfo, uid: string, c: Caches, files: map<string, string>)
  {
    info.url != GetOr(c.urls, uid, None) ||
    Get(c.paths, uid) != Some(ToMap(info.waterMarks)) ||
    FingerprintDrift(info.waterMarks, GetOr(c.md5s, uid, map[]), files)
  }

  /** The caches after the binding's entries are rewritten from `info`. */
  function Refresh(c: Caches, uid: string, info: StreamInfo, files: map<string, string>): Caches
  {
    Caches(c.paths[uid := ToMap(info.waterMarks)],
           c.md5s[uid := Fingerprints(info.waterMarks, files)],
           c.urls[uid := info.url])
  }

  /** The caches hold exactly what `info` and the files say. */
  predicate Current(info: StreamInfo, uid: string, c: Caches, files: map<string, string>)
  {
    GetOr(c.urls, uid, None) == info.url &&
    Get(c.paths, uid) == Some(ToMap(info.waterMarks)) &&
    GetOr(c.md5s, uid, map[]) == Fingerprints(info.waterMarks, files)
  }

  /** Caches that are current do not flag the binding. */
  lemma CurrentNotFlagged(info: StreamInfo, uid: string, c: Caches, files: map<string, string>)
    requires Current(info, uid, c, files)
    ensures !Flagged(info, uid, c, files)
  {
    forall k | 0 <= k < |info.waterMarks|
      ensures Fingerprint(files, info.waterMarks[k].1) == GetOr(GetOr(c.md5s, uid, map[]), info.waterMarks[k].0, None)
    {
      FingerprintsAt(info.waterMarks, files, k);
    }
  }

  /** Right after its caches are rewritten, and with the files as they were,
      a binding is not flagged. */
  lemma RefreshClearsFlag(c: Caches, uid: string, info: StreamInfo, files: map<string, string>)
    ensures !Flagged(info, uid, Refresh(c, uid, info, files), files)
  {
    CurrentNotFlagged(info, uid, Refresh(c, uid, info, files), files);
  }

  /** A binding the caches know nothing about is always flagged. */
  lemma UncachedAlwaysFlagged(info: StreamInfo, uid: string, c: Caches, files: map<string, string>)
    requires uid !in c.paths
    ensures Flagged(info, uid, c, files)
  {
  }

  /** The bindings of `done` that a pass flags. */
  function FlaggedIn(docs: map<string, StreamInfo>, c: Caches, files: map<string, string>, done: set<string>): set<string>
  {
    set u | u in done && u in docs && Flagged(docs[u], u, c, files)
  }

  /** The cache entries written for the bindings of `us`, one cache at a time. */
  function PathsFor(docs: map<string, StreamInfo>, us: set<string>): map<string, map<string, string>>
  {
    map u | u in us && u in docs :: ToMap(docs[u].waterMarks)
  }

  function Md5sFor(docs: map<string, StreamInfo>, files: map<string, string>, us: set<string>): map<string, map<string, Option<string>>>
  {
    map u | u in us && u in docs :: Fingerprints(docs[u].waterMarks, files)
  }

  function UrlsFor(docs: map<string, StreamInfo>, us: set<string>): map<string, Option<string>>
  {
    map u | u in us && u in docs :: docs[u].url
  }

  lemma PathsForStep(docs: map<string, StreamInfo>, us: set<string>, uid: string)
    requires uid in docs
    ensures PathsFor(docs, us + {uid}) == PathsFor(docs, us)[uid := ToMap(docs[uid].waterMarks)]
  {
  }

  lemma Md5sForStep(docs: map<string, StreamInfo>, files: map<string, string>, us: set<string>, uid: string)
    requires uid in docs
    ensures Md5sFor(docs, files, us + {uid}) == Md5sFor(docs, files, us)[uid := Fingerprints(docs[uid].waterMarks, files)]
  {
  }

  lemma UrlsForStep(docs: map<string, StreamInfo>, us: set<string>, uid: string)
    requires uid in docs
    ensures UrlsFor(docs, us + {uid}) == UrlsFor(docs, us)[uid := docs[uid].url]
  {
  }

  /** The caches once the bindings of `f` have had their entries rewritten. */
  function CachesWith(docs: map<string, StreamInfo>, c: Caches, files: map<string, string>, f: set<string>): Caches
  {
    Caches(c.paths + PathsFor(docs, f), c.md5s + Md5sFor(docs, files, f), c.urls + UrlsFor(docs, f))
  }

  /** The store once the bindings of `f` have been marked `restart`. */
  function StatusesWith(docs: map<string, StreamInfo>, f: set<string>): (r: map<string, StreamInfo>)
    ensures r.Keys == docs.Keys
  {
    map u | u in docs :: if u in f then docs[u].(status := Some(Restart)) else docs[u]
  }

  /** The caches once the bindings in `done` have been examined: the flagged
      ones have their entries rewritten, the others keep theirs. */
  function CachesAfter(docs: map<string, StreamInfo>, c: Caches, files: map<string, string>, done: set<string>): Caches
  {
    CachesWith(docs, c, files, FlaggedIn(docs, c, files, done))
  }

  /** The store once the bindings in `done` have been examined. */
  function MarkedStatuses(docs: map<string, StreamInfo>, c: Caches, files: map<string, string>, done: set<string>): (r: map<string, StreamInfo>)
    ensures r.Keys == docs.Keys
  {
    StatusesWith(docs, FlaggedIn(docs, c, files, done))
  }

  /** The caches that `__init__` has filled once it has gone through the
      bindings in `done`. */
  function InitialCachesOn(docs: map<string, StreamInfo>, files: map<string, string>, done: set<string>): Caches
  {
    Caches(PathsFor(docs, done), Md5sFor(docs, files, done), UrlsFor(docs, done))
  }

  /** The caches that `__init__` fills from the store. */
  function InitialCaches(docs: map<string, StreamInfo>, files: map<string, string>): Caches
  {
    InitialCachesOn(docs, files, docs.Keys)
  }

  /** Going through one more binding refreshes its entries. */
  lemma InitialStep(docs: map<string, StreamInfo>, files: map<string, string>, done: set<string>, uid: string)
    requires uid in docs
    ensures InitialCachesOn(docs, files, done + {uid}) == Refresh(InitialCachesOn(docs, files, done), uid, docs[uid], files)
  {
    PathsForStep(docs, done, uid);
    Md5sForStep(docs, files, done, uid);
    UrlsForStep(docs, done, uid);
  }

  /** Straight after start-up, with the files unchanged, no binding is flagged. */
  lemma InitialCachesQuiet(docs: map<string, StreamInfo>, files: map<string, string>, uid: string)
    requires uid in docs
    ensures !Flagged(docs[uid], uid, InitialCaches(docs, files), files)
  {
    var c := InitialCaches(docs, files);
    CurrentNotFlagged(docs[uid], uid, c, files);
  }

  class StreamController {
    const sm: BindingStore
    var wmPathsCache: map<string, map<string, string>>
    var wmMd5Cache: map<string, map<string, Option<string>>>
    var urlCache: map<string, Option<string>>

    function Snapshot(): Caches
      reads this
    {
      Caches(wmPathsCache, wmMd5Cache, urlCache)
    }

    /** `__init__`: one cache entry per binding in the store. */
    constructor (sm: BindingStore, files: map<string, string>)
      ensures this.sm == sm
      ensures Snapshot() == InitialCaches(sm.docs, files)
    {
      this.sm := sm;
      var bindings := sm.docs;
      var paths: map<string, map<string, string>> := map[];
      var md5s: map<string, map<string, Option<string>>> := map[];
      var urls: map<string, Option<string>> := map[];
      var todo := bindings.Keys;
      assert Caches(paths, md5s, urls) == InitialCachesOn(bindings, files, {});
      while todo != {}
        invariant todo <= bindings.Keys
        invariant Caches(paths, md5s, urls) == InitialCachesOn(bindings, files, bindings.Keys - todo)
        decreases |todo|
      {
        var uid :| uid in todo;
        var info := bindings[uid];
        InitialStep(bindings, files, bindings.Keys - todo, uid);
        paths := paths[uid := ToMap(info.waterMarks)];
        md5s := md5s[uid := Fingerprints(info.waterMarks, files)];
        urls := urls[uid := info.url];
        assert bindings.Keys - (todo - {uid}) == (bindings.Keys - todo) + {uid};
        todo := todo - {uid};
      }
      wmPathsCache := paths;
      wmMd5Cache := md5s;
      urlCache := urls;
    }

    /** The digest loop of `monitor_watermarks`: stops at the first
        watermark whose file digest differs from the cached one. */
    method WatermarksDrifted(wms: WatermarkMap, cached: map<string, Option<string>>, files: map<string, string>)
      returns (changed: bool)
      ensures changed == FingerprintDrift(wms, cached, files)
    {
      changed := false;
      var i := 0;
      while i < |wms|
        invariant 0 <= i <= |wms|
        invariant !changed
        invariant forall k :: 0 <= k < i ==> Fingerprint(files, wms[k].1) == GetOr(cached, wms[k].0, None)
      {
        var md5 := Fingerprint(files, wms[i].1);
        if md5 != GetOr(cached, wms[i].0, None) {
          changed := true;
          break;
        }
        i := i + 1;
      }
    }

    /** The body of `monitor_watermarks` for one binding. */
    method Examine(uid: string, info: StreamInfo, files: map<string, string>) returns (changed: bool)
      modifies this, sm
      ensures changed == Flagged(info, uid, old(Snapshot()), files)
      ensures Snapshot() == if changed then Refresh(old(Snapshot()), uid, info, files) else old(Snapshot())
      ensures sm.docs == if changed then WithStatus(old(sm.docs), uid, Restart) else old(sm.docs)
    {
      var watermarks := info.waterMarks;
      var url := info.url;
      var cachedPaths := Get(wmPathsCache, uid);
      var cachedMd5s := GetOr(wmMd5Cache, uid, map[]);
      var cachedUrl := GetOr(urlCache, uid, None);
      if url != cachedUrl || Some(ToMap(watermarks)) != cachedPaths {
        changed := true;
      } else {
        changed := WatermarksDrifted(watermarks, cachedMd5s, files);
      }
      if changed {
        sm.UpdateStatus(uid, Restart);
        wmPathsCache := wmPathsCache[uid := ToMap(watermarks)];
        wmMd5Cache := wmMd5Cache[uid := Fingerprints(watermarks, files)];
        urlCache := urlCache[uid := url];
      }
    }

    /** One pass of `monitor_watermarks` over the bindings read at its start. */
    method MonitorPass(files: map<string, string>)
      modifies this, sm
      ensures Snapshot() == CachesAfter(old(sm.docs), old(Snapshot()), files, old(sm.docs).Keys)
      ensures sm.docs == MarkedStatuses(old(sm.docs), old(Snapshot()), files, old(sm.docs).Keys)
    {
      var bindings := sm.docs;
      ghost var caches := Snapshot();
      var todo := bindings.Keys;
      ghost var flagged: set<string> := {};
      assert FlaggedIn(bindings, caches, files, bindings.Keys - todo) == {};
      StartOfPass(bindings, caches, files);
      while todo != {}
        invariant todo <= bindings.Keys
        invariant flagged == FlaggedIn(bindings, caches, files, bindings.Keys - todo)
        invariant Snapshot() == CachesWith(bindings, caches, files, flagged)
        invariant sm.docs == StatusesWith(bindings, flagged)
        decreases |todo|
      {
        var uid :| uid in todo;
        ghost var done := bindings.Keys - todo;
        PassStep(bindings, caches, files, flagged, done, uid);
        var changed := Examine(uid, bindings[uid], files);
        if changed {
          flagged := flagged + {uid};
        }
        assert bindings.Keys - (todo - {uid}) == done + {uid};
        todo := todo - {uid};
      }
      assert bindings.Keys - todo == bindings.Keys;
    }
  }

  /** Examining one more binding: it sees its caches as they were before the
      pass, and flagging it or not moves the caches and the store along. */
  lemma PassStep(docs: map<string, StreamInfo>, c: Caches, files: map<string, string>, f: set<string>, done: set<string>, uid: string)
    requires uid in docs && uid !in done && f == FlaggedIn(docs, c, files, done)
    ensures Flagged(docs[uid], uid, CachesWith(docs, c, files, f), files) == Flagged(docs[uid], uid, c, files)
    ensures var g := if Flagged(docs[uid], uid, c, files) then f + {uid} else f;
            g == FlaggedIn(docs, c, files, done + {uid}) &&
            CachesWith(docs, c, files, g) ==
              (if g == f then CachesWith(docs, c, files, f) else Refresh(CachesWith(docs, c, files, f), uid, docs[uid], files)) &&
            StatusesWith(docs, g) ==
              (if g == f then StatusesWith(docs, f) else WithStatus(StatusesWith(docs, f), uid, Restart))
  {
    CachesOfUnexamined(docs, c, files, f, uid);
    StepFlagged(docs, c, files, done, uid);
    RefreshFlagged(docs, c, files, f, uid);
    MarkFlagged(docs, f, uid);
  }

  /** Before any binding is examined nothing has changed. */
  lemma StartOfPass(docs: map<string, StreamInfo>, c: Caches, files: map<string, string>)
    ensures CachesWith(docs, c, files, {}) == c
    ensures StatusesWith(docs, {}) == docs
  {
    var e1: map<string, map<string, string>> := map[];
    assert c.paths + e1 == c.paths;
  }

  /** A binding not among the flagged ones keeps its cache entries. */
  lemma UnflaggedKept(docs: map<string, StreamInfo>, c: Caches, files: map<string, string>, f: set<string>, uid: string)
    requires uid !in f
    ensures var a := CachesWith(docs, c, files, f);
            Get(a.paths, uid) == Get(c.paths, uid) && GetOr(a.md5s, uid, map[]) == GetOr(c.md5s, uid, map[]) &&
            GetOr(a.urls, uid, None) == GetOr(c.urls, uid, None)
  {
  }

  /** A flagged binding has its cache entries rewritten from the store. */
  lemma FlaggedRefreshed(docs: map<string, StreamInfo>, c: Caches, files: map<string, string>, f: set<string>, uid: string)
    requires uid in f && uid in docs
    ensures Current(docs[uid], uid, CachesWith(docs, c, files, f), files)
  {
  }

  /** A binding not yet examined still sees its caches as they were. */
  lemma CachesOfUnexamined(docs: map<string, StreamInfo>, c: Caches, files: map<string, string>, f: set<string>, uid: string)
    requires uid in docs && uid !in f
    ensures Flagged(docs[uid], uid, CachesWith(docs, c, files, f), files) == Flagged(docs[uid], uid, c, files)
  {
    UnflaggedKept(docs, c, files, f, uid);
  }

  /** Examining one more binding flags it or not, and no other. */
  lemma StepFlagged(docs: map<string, StreamInfo>, c: Caches, files: map<string, string>, done: set<string>, uid: string)
    requires uid in docs && uid !in done
    ensures FlaggedIn(docs, c, files, done + {uid}) ==
              if Flagged(docs[uid], uid, c, files) then FlaggedIn(docs, c, files, done) + {uid}
              else FlaggedIn(docs, c, files, done)
  {
  }

  /** Flagging one more binding rewrites only its own cache entries. */
  lemma RefreshFlagged(docs: map<string, StreamInfo>, c: Caches, files: map<string, string>, f: set<string>, uid: string)
    requires uid in docs
    ensures CachesWith(docs, c, files, f + {uid}) == Refresh(CachesWith(docs, c, files, f), uid, docs[uid], files)
  {
    PathsForStep(docs, f, uid);
    Md5sForStep(docs, files, f, uid);
    UrlsForStep(docs, f, uid);
    MergeUpdate(c.paths, PathsFor(docs, f), uid, ToMap(docs[uid].waterMarks));
    MergeUpdate(c.md5s, Md5sFor(docs, files, f), uid, Fingerprints(docs[uid].waterMarks, files));
    MergeUpdate(c.urls, UrlsFor(docs, f), uid, docs[uid].url);
  }

  /** Flagging one more binding marks only its own status. */
  lemma MarkFlagged(docs: map<string, StreamInfo>, f: set<string>, uid: string)
    requires uid in docs
    ensures StatusesWith(docs, f + {uid}) == WithStatus(StatusesWith(docs, f), uid, Restart)
  {
  }

  lemma MergeUpdate<V>(m: map<string, V>, r: map<string, V>, k: string, v: V)
    ensures (m + r)[k := v] == m + r[k := v]
  {
  }

  // ---------------------------------------------------------------------
  // What passes do over time
  // ---------------------------------------------------------------------

  /** With the store's urls and watermarks and the files unchanged, a second
      pass flags nothing: every binding flagged by the first pass had its
      caches rewritten, and the others were not flagged to begin with. */
  lemma SecondPassQuiet(docs: map<string, StreamInfo>, c: Caches, files: map<string, string>, uid: string)
    requires uid in docs
    ensures var docs' := MarkedStatuses(docs, c, files, docs.Keys);
            !Flagged(docs'[uid], uid, CachesAfter(docs, c, files, docs.Keys), files)
  {
    var a := CachesAfter(docs, c, files, docs.Keys);
    var info := docs[uid];
    var info' := MarkedStatuses(docs, c, files, docs.Keys)[uid];
    assert info'.url == info.url && info'.waterMarks == info.waterMarks;
    var f := FlaggedIn(docs, c, files, docs.Keys);
    if uid in f {
      FlaggedRefreshed(docs, c, files, f, uid);
      CurrentNotFlagged(info, uid, a, files);
    } else {
      UnflaggedKept(docs, c, files, f, uid);
      assert !Flagged(info, uid, c, files);
    }
  }

  /** A detected change is never acted on: the status it writes is not one
      the process manager's tick dispatches on, so the tick leaves the
      binding and its worker exactly as they were. */
  lemma DetectedChangeIgnored(docs: map<string, StreamInfo>, c: Caches, files: map<string, string>,
                              ffmpeg: string, gpu: bool, processes: map<string, Supervisor.Handle>,
                              spawns: map<string, Supervisor.Outcomes>, live: set<nat>, uid: string)
    requires uid in docs && Flagged(docs[uid], uid, c, files)
    ensures var docs' := MarkedStatuses(docs, c, files, docs.Keys);
            docs'[uid].status == Some(Restart) &&
            Supervisor.StatusesAfter(docs', processes, live, docs'.Keys)[uid] == docs'[uid] &&
            Get(Supervisor.ProcessesAfter(ffmpeg, gpu, docs', processes, spawns, docs'.Keys), uid) ==
              Get(processes, uid)
  {
    var docs' := MarkedStatuses(docs, c, files, docs.Keys);
    Supervisor.UndispatchedUntouched(ffmpeg, gpu, docs', processes, spawns, live, uid);
  }
}
