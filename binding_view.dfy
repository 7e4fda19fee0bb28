/** The binding store as stream_controller.py reads and writes it: each entry
    carries the source `url`, the watermarks as an ordered mapping from
    watermark id to image path (`water_mark`), the two playlist locations
    `hls_wm` and `hls_no_wm`, and a `status` string. The controller only ever
    writes a status, through `update_status`, which storage.py does not define:
    its contract here is an assumption (see WithStatus). */
module BindingView {
  import opened Common

  /** A Python dict's keys are unique. */
  predicate UniqueIds(wms: seq<(string, string)>)
  {
    forall i, j :: 0 <= i < j < |wms| ==> wms[i].0 != wms[j].0
  }

  /** An ordered mapping from watermark id to image path, in insertion order. */
  type WatermarkMap = wms: seq<(string, string)> | UniqueIds(wms)

  /** `list(water_mark.values())`: the image paths in insertion order. */
  function Paths(wms: WatermarkMap): (ps: seq<string>)
    ensures |ps| == |wms|
    ensures forall i :: 0 <= i < |wms| ==> ps[i] == wms[i].1
  {
    seq(|wms|, i requires 0 <= i < |wms| => wms[i].1)
  }

  /** One entry of the store as the controller sees it. A missing `water_mark`
      reads as the empty mapping (`info.get("water_mark", {}) or {}`). */
  datatype StreamInfo = StreamInfo(
    url: Option<string>,
    waterMarks: WatermarkMap,
    hlsWm: Option<string>,
    hlsNoWm: Option<string>,
    status: Option<string>)

  /** The assumed effect of `update_status(uid, s)`: the status of that entry
      becomes `s`, nothing else in the document changes, and an unknown uid
      leaves the document as it was. */
  function WithStatus(docs: map<string, StreamInfo>, uid: string, s: string): (r: map<string, StreamInfo>)
    ensures r.Keys == docs.Keys
    ensures uid in docs ==> r[uid] == docs[uid].(status := Some(s))
    ensures forall other :: other in docs && other != uid ==> r[other] == docs[other]
  {
    if uid in docs then docs[uid := docs[uid].(status := Some(s))] else docs
  }

  /** Writing a status twice is the same as writing the second one once. */
  lemma WithStatusOverwrites(docs: map<string, StreamInfo>, uid: string, s: string, t: string)
    ensures WithStatus(WithStatus(docs, uid, s), uid, t) == WithStatus(docs, uid, t)
  {
  }

  /** The shared binding document, reloaded and rewritten in full on every call. */
  class BindingStore {
    var docs: map<string, StreamInfo>

    constructor (docs: map<string, StreamInfo>)
      ensures this.docs == docs
    {
      this.docs := docs;
    }

    /** Assumed contract of `update_status` (not defined in storage.py). */
    method UpdateStatus(uid: string, s: string)
      modifies this
      ensures docs == WithStatus(old(docs), uid, s)
    {
      docs := WithStatus(docs, uid, s);
    }
  }
}
