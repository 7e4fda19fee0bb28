/** How FFmpegProcessManager builds a worker's argument list
    (stream_controller.py): the overlay filter graph of `_build_filter`,
    the encoder and HLS options of `_hls_output_args`, and the assembly of
    the whole command in `_start_ffmpeg`. */
module Command {
  import opened Common
  import opened BindingView
  import opened ArgGrammar

  // ---------------------------------------------------------------------
  // Filter graph labels and chains
  // ---------------------------------------------------------------------

  /** `[k:v]`: the video stream of input k. */
  function StreamLabel(k: nat): string { "[" + NatToString(k) + ":v]" }

  /** `[wm{i}]`: watermark i scaled to the frame size. */
  function ScaledLabel(i: nat): string { "[wm" + NatToString(i) + "]" }

  /** `[v{i}]`: the composite after overlaying watermark i. */
  function OverlayLabel(i: nat): string { "[v" + NatToString(i) + "]" }

  /** The running composite before watermark i is overlaid (the loop's `last`);
      after all n watermarks it is the label that gets mapped to the output. */
  function CompositeLabel(i: nat): string
  {
    if i == 0 then "[0:v]" else OverlayLabel(i - 1)
  }

  /** One filter chain of the graph, in FFmpeg's `[in]...filter[out]` syntax. */
  datatype Chain =
    | Scale(source: string, output: string)
    | Overlay(base: string, top: string, output: string)

  function Inputs(c: Chain): seq<string>
  {
    match c
    case Scale(s, _) => [s]
    case Overlay(b, t, _) => [b, t]
  }

  function Render(c: Chain): string
  {
    match c
    case Scale(s, o) => s + "scale=iw:ih" + o
    case Overlay(b, t, o) => b + t + "overlay=0:0:format=auto" + o
  }

  /** Watermark i, read from input i + 1, scaled into `[wm{i}]`. */
  function ScaleStep(i: nat): Chain { Scale(StreamLabel(i + 1), ScaledLabel(i)) }

  /** `[wm{i}]` overlaid at the origin on the running composite, giving `[v{i}]`. */
  function OverlayStep(i: nat): Chain { Overlay(CompositeLabel(i), ScaledLabel(i), OverlayLabel(i)) }

  /** The chains for n watermarks, in the mapping's insertion order. */
  function Chains(n: nat): (cs: seq<Chain>)
    ensures |cs| == 2 * n
  {
    if n == 0 then [] else Chains(n - 1) + [ScaleStep(n - 1), OverlayStep(n - 1)]
  }

  function RenderAll(cs: seq<Chain>): (r: seq<string>)
    ensures |r| == |cs|
    ensures forall k :: 0 <= k < |cs| ==> r[k] == Render(cs[k])
  {
    seq(|cs|, k requires 0 <= k < |cs| => Render(cs[k]))
  }

  /** The `-filter_complex` argument for n watermarks: the chains joined by `;`. */
  function FilterGraph(n: nat): string
  {
    Join(RenderAll(Chains(n)), ";")
  }

  /** Every piece followed by the separator: what the loop of `_build_filter`
      has accumulated before it strips the trailing `;`. */
  function Terminated(parts: seq<string>, sep: string): string
    decreases |parts|
  {
    if |parts| == 0 then "" else Terminated(parts[..|parts| - 1], sep) + parts[|parts| - 1] + sep
  }

  lemma {:induction false} TerminatedIsJoinThenSep(parts: seq<string>, sep: string)
    requires |parts| > 0
    ensures Terminated(parts, sep) == Join(parts, sep) + sep
    decreases |parts|
  {
    var init := parts[..|parts| - 1];
    if |parts| == 1 {
      assert Terminated(init, sep) == "";
    } else {
      TerminatedIsJoinThenSep(init, sep);
    }
  }

  lemma ChainsGrow(i: nat)
    ensures RenderAll(Chains(i + 1)) == RenderAll(Chains(i)) + [Render(ScaleStep(i)), Render(OverlayStep(i))]
  {
    var a, b := RenderAll(Chains(i + 1)), RenderAll(Chains(i)) + [Render(ScaleStep(i)), Render(OverlayStep(i))];
    assert |a| == |b|;
    forall k | 0 <= k < |a| ensures a[k] == b[k] {
      if k < 2 * i {
        assert Chains(i + 1)[k] == Chains(i)[k];
      }
    }
  }

  lemma TerminatedGrow(parts: seq<string>, x: string, y: string, sep: string)
    ensures Terminated(parts + [x, y], sep) == Terminated(parts, sep) + x + sep + y + sep
  {
    var xs := parts + [x, y];
    assert xs[..|xs| - 1] == parts + [x];
    assert (parts + [x])[..|parts|] == parts;
  }

  /** The text one loop iteration appends is the scale chain and the overlay chain. */
  lemma IterationText(before: string, i: nat, last: string)
    requires last == CompositeLabel(i)
    ensures before + (StreamLabel(i + 1) + "scale=iw:ih" + ScaledLabel(i) + ";")
              + (last + ScaledLabel(i) + "overlay=0:0:format=auto" + OverlayLabel(i) + ";")
            == before + Render(ScaleStep(i)) + ";" + Render(OverlayStep(i)) + ";"
  {
    var s, o := Render(ScaleStep(i)), Render(OverlayStep(i));
    assert s + ";" == StreamLabel(i + 1) + "scale=iw:ih" + ScaledLabel(i) + ";";
    assert o + ";" == last + ScaledLabel(i) + "overlay=0:0:format=auto" + OverlayLabel(i) + ";";
    assert before + (s + ";") + (o + ";") == before + s + ";" + o + ";";
  }

  /** `_build_filter`: one scale chain and one overlay chain per watermark,
      accumulated in a loop; the trailing `;` is stripped at the end. */
  method BuildFilter(wms: WatermarkMap) returns (filters: string, last: string)
    ensures filters == FilterGraph(|wms|)
    ensures last == CompositeLabel(|wms|)
  {
    filters := "";
    last := "[0:v]";
    var i := 0;
    while i < |wms|
      invariant 0 <= i <= |wms|
      invariant filters == Terminated(RenderAll(Chains(i)), ";")
      invariant last == CompositeLabel(i)
    {
      ghost var before := filters;
      filters := filters + (StreamLabel(i + 1) + "scale=iw:ih" + ScaledLabel(i) + ";");
      filters := filters + (last + ScaledLabel(i) + "overlay=0:0:format=auto" + OverlayLabel(i) + ";");
      IterationText(before, i, last);
      ChainsGrow(i);
      TerminatedGrow(RenderAll(Chains(i)), Render(ScaleStep(i)), Render(OverlayStep(i)), ";");
      last := OverlayLabel(i);
      i := i + 1;
    }
    if |filters| > 0 && filters[|filters| - 1] == ';' {
      filters := filters[..|filters| - 1];
    }
    if |wms| > 0 {
      TerminatedIsJoinThenSep(RenderAll(Chains(|wms|)), ";");
      assert filters == FilterGraph(|wms|);
    }
  }

  // ---------------------------------------------------------------------
  // Properties of the filter graph
  // ---------------------------------------------------------------------

  /** Chain 2i scales watermark i and chain 2i + 1 overlays it, in insertion order. */
  lemma {:induction false} ChainsAt(n: nat)
    ensures forall i :: 0 <= i < n ==> Chains(n)[2 * i] == ScaleStep(i) && Chains(n)[2 * i + 1] == OverlayStep(i)
  {
    if n > 0 {
      ChainsAt(n - 1);
      forall i | 0 <= i < n
        ensures Chains(n)[2 * i] == ScaleStep(i) && Chains(n)[2 * i + 1] == OverlayStep(i)
      {
        if i < n - 1 {
          assert Chains(n)[2 * i] == Chains(n - 1)[2 * i];
          assert Chains(n)[2 * i + 1] == Chains(n - 1)[2 * i + 1];
        }
      }
    }
  }

  lemma JoinLast(parts: seq<string>, sep: string)
    requires |parts| > 0 && |parts[|parts| - 1]| > 0
    ensures |Join(parts, sep)| > 0
    ensures Join(parts, sep)[|Join(parts, sep)| - 1] == parts[|parts| - 1][|parts[|parts| - 1]| - 1]
  {
  }

  /** With no watermark `_build_filter` returns `("", "[0:v]")`; with n > 0 it
      returns the final label `[v{n-1}]` and a graph that ends with a label,
      never with `;`. */
  lemma FilterGraphEnds(n: nat)
    ensures n == 0 ==> FilterGraph(n) == "" && CompositeLabel(n) == "[0:v]"
    ensures n > 0 ==> CompositeLabel(n) == "[v" + NatToString(n - 1) + "]"
    ensures n > 0 ==> |FilterGraph(n)| > 0 && FilterGraph(n)[|FilterGraph(n)| - 1] == ']'
  {
    if n > 0 {
      var parts := RenderAll(Chains(n));
      assert parts[|parts| - 1] == Render(OverlayStep(n - 1));
      JoinLast(parts, ";");
    }
  }

  /** `s.rfind(c)` for a character that occurs in s. */
  function LastIndexOf(s: string, c: char): (k: nat)
    requires c in s
    ensures k < |s| && s[k] == c && c !in s[k + 1..]
    decreases |s|
  {
    if s[|s| - 1] == c then |s| - 1 else LastIndexOf(s[..|s| - 1], c)
  }

  /** `s.split(sep)` for a one-character separator. */
  function Split(s: string, sep: char): (parts: seq<string>)
    decreases |s|
  {
    if sep !in s then [s]
    else
      var k := LastIndexOf(s, sep);
      Split(s[..k], sep) + [s[k + 1..]]
  }

  /** Splitting at a separator that no piece contains recovers the pieces. */
  lemma {:induction false} SplitJoin(parts: seq<string>, sep: char)
    requires |parts| > 0
    requires forall k :: 0 <= k < |parts| ==> sep !in parts[k]
    ensures Split(Join(parts, [sep]), sep) == parts
    decreases |parts|
  {
    if |parts| > 1 {
      var init, tail := parts[..|parts| - 1], parts[|parts| - 1];
      var j := Join(init, [sep]);
      var s := Join(parts, [sep]);
      assert s == j + [sep] + tail;
      assert s[|j|] == sep;
      var k := LastIndexOf(s, sep);
      assert s[k + 1..] == s[k + 1..];
      assert k == |j|;
      assert s[..k] == j;
      assert s[k + 1..] == tail;
      SplitJoin(init, sep);
    }
  }

  lemma NotInConcat(c: char, a: string, b: string)
    requires c !in a && c !in b
    ensures c !in a + b
  {
    forall k | 0 <= k < |a + b| ensures (a + b)[k] != c {
      if k < |a| {
        assert (a + b)[k] == a[k];
      } else {
        assert (a + b)[k] == b[k - |a|];
      }
    }
  }

  lemma LabelsHaveNoSemicolon(i: nat)
    ensures ';' !in StreamLabel(i) && ';' !in ScaledLabel(i) && ';' !in OverlayLabel(i) && ';' !in CompositeLabel(i)
  {
    var d := NatToString(i);
    assert ';' !in d;
    NotInConcat(';', "[", d);
    NotInConcat(';', "[" + d, ":v]");
    NotInConcat(';', "[wm", d);
    NotInConcat(';', "[wm" + d, "]");
    NotInConcat(';', "[v", d);
    NotInConcat(';', "[v" + d, "]");
    if i > 0 {
      var e := NatToString(i - 1);
      assert ';' !in e;
      NotInConcat(';', "[v", e);
      NotInConcat(';', "[v" + e, "]");
    }
  }

  lemma StepsHaveNoSemicolon(i: nat)
    ensures ';' !in Render(ScaleStep(i)) && ';' !in Render(OverlayStep(i))
  {
    LabelsHaveNoSemicolon(i);
    LabelsHaveNoSemicolon(i + 1);
    NotInConcat(';', StreamLabel(i + 1), "scale=iw:ih");
    NotInConcat(';', StreamLabel(i + 1) + "scale=iw:ih", ScaledLabel(i));
    NotInConcat(';', CompositeLabel(i), ScaledLabel(i));
    NotInConcat(';', CompositeLabel(i) + ScaledLabel(i), "overlay=0:0:format=auto");
    NotInConcat(';', CompositeLabel(i) + ScaledLabel(i) + "overlay=0:0:format=auto", OverlayLabel(i));
  }

  /** Read back the way FFmpeg separates filter chains (at each `;`), the
      graph for n > 0 watermarks is exactly the 2n chains, in order. */
  lemma FilterGraphReadsBack(n: nat)
    requires n > 0
    ensures Split(FilterGraph(n), ';') == RenderAll(Chains(n))
  {
    var parts := RenderAll(Chains(n));
    forall k | 0 <= k < |parts| ensures ';' !in parts[k] {
      ChainAt(n, k);
      StepsHaveNoSemicolon(k / 2);
    }
    SplitJoin(parts, ';');
  }

  // ---------------------------------------------------------------------
  // The graph is well formed: every label is defined once, before it is used
  // ---------------------------------------------------------------------

  /** Chains 2i and 2i + 1 of the graph belong to watermark i. */
  lemma ChainPair(n: nat, i: nat)
    requires i < n
    ensures Chains(n)[2 * i] == ScaleStep(i) && Chains(n)[2 * i + 1] == OverlayStep(i)
  {
    ChainsAt(n);
  }

  /** Chain k of the graph, by the parity of k. */
  lemma ChainAt(n: nat, k: nat)
    requires k < 2 * n
    ensures Chains(n)[k] == if k % 2 == 0 then ScaleStep(k / 2) else OverlayStep(k / 2)
  {
    ChainPair(n, k / 2);
  }

  /** The second character tells the kinds of label apart. */
  lemma LabelKinds(i: nat)
    ensures |StreamLabel(i)| >= 2 && '0' <= StreamLabel(i)[1] <= '9'
    ensures |ScaledLabel(i)| >= 2 && ScaledLabel(i)[1] == 'w'
    ensures |OverlayLabel(i)| >= 2 && OverlayLabel(i)[1] == 'v'
    ensures |CompositeLabel(i)| >= 2 && CompositeLabel(i)[1] != 'w'
  {
    assert StreamLabel(i)[1] == NatToString(i)[0];
  }

  lemma ScaledLabelInjective(i: nat, j: nat)
    requires ScaledLabel(i) == ScaledLabel(j)
    ensures i == j
  {
    WrappedInjective("[wm", NatToString(i), NatToString(j), "]");
    NatToStringInjective(i, j);
  }

  lemma OverlayLabelInjective(i: nat, j: nat)
    requires OverlayLabel(i) == OverlayLabel(j)
    ensures i == j
  {
    WrappedInjective("[v", NatToString(i), NatToString(j), "]");
    NatToStringInjective(i, j);
  }

  /** `[m:v]` for one of the command's inputs 0..n. */
  predicate IsStreamOf(l: string, n: nat)
  {
    exists m :: 0 <= m <= n && l == StreamLabel(m)
  }

  lemma ScaledDistinct(a: nat, b: nat)
    requires a != b
    ensures ScaledLabel(a) != ScaledLabel(b)
  {
    if ScaledLabel(a) == ScaledLabel(b) {
      ScaledLabelInjective(a, b);
    }
  }

  lemma OverlayDistinct(a: nat, b: nat)
    requires a != b
    ensures OverlayLabel(a) != OverlayLabel(b)
  {
    if OverlayLabel(a) == OverlayLabel(b) {
      OverlayLabelInjective(a, b);
    }
  }

  lemma ScaledNotOverlay(a: nat, b: nat)
    ensures ScaledLabel(a) != OverlayLabel(b)
  {
    LabelKinds(a);
    LabelKinds(b);
  }

  /** The label chain 2i (odd false) or 2i + 1 (odd true) defines. */
  function OutputOf(i: nat, odd: bool): string
  {
    if odd then OverlayLabel(i) else ScaledLabel(i)
  }

  /** Chain k defines the label of watermark k / 2, by the parity of k. */
  lemma ChainOutputAt(n: nat, k: nat)
    requires k < 2 * n
    ensures Chains(n)[k].output == OutputOf(k / 2, k % 2 == 1)
  {
    ChainAt(n, k);
  }

  lemma OutputOfDistinct(a: nat, oa: bool, b: nat, ob: bool)
    requires a != b || oa != ob
    ensures OutputOf(a, oa) != OutputOf(b, ob)
  {
    if !oa && !ob {
      ScaledDistinct(a, b);
    } else if oa && ob {
      OverlayDistinct(a, b);
    } else if !oa {
      ScaledNotOverlay(a, b);
    } else {
      ScaledNotOverlay(b, a);
    }
  }

  lemma OutputsDistinct(n: nat, j: nat, k: nat)
    requires j < k < 2 * n
    ensures Chains(n)[j].output != Chains(n)[k].output
  {
    ChainOutputAt(n, j);
    ChainOutputAt(n, k);
    OutputOfDistinct(j / 2, j % 2 == 1, k / 2, k % 2 == 1);
  }

  lemma InputDefinedEarlier(n: nat, k: nat, l: string)
    requires k < 2 * n && l in Inputs(Chains(n)[k])
    ensures IsStreamOf(l, n) || exists j :: 0 <= j < k && Chains(n)[j].output == l
  {
    ChainAt(n, k);
    if k % 2 == 0 {
      assert 0 <= k / 2 + 1 <= n && l == StreamLabel(k / 2 + 1);
    } else {
      OverlayInputDefined(n, k / 2, l);
    }
  }

  /** The overlay chain of watermark i reads the running composite and the
      scaled watermark, both defined before it. */
  lemma OverlayInputDefined(n: nat, i: nat, l: string)
    requires i < n && (l == CompositeLabel(i) || l == ScaledLabel(i))
    ensures IsStreamOf(l, n) || exists j :: 0 <= j < 2 * i + 1 && Chains(n)[j].output == l
  {
    ChainPair(n, i);
    if l == ScaledLabel(i) {
      assert Chains(n)[2 * i].output == l;
    } else if i == 0 {
      FirstCompositeIsInput();
      assert 0 <= 0 <= n && l == StreamLabel(0);
    } else {
      ChainPair(n, i - 1);
      OverlayFeedsNext(i - 1);
      assert Chains(n)[2 * (i - 1) + 1].output == l;
    }
  }

  /** Before any watermark, the composite is the source video `[0:v]`. */
  lemma FirstCompositeIsInput()
    ensures CompositeLabel(0) == StreamLabel(0)
  {
    assert NatToString(0) == "0";
  }

  lemma ScaleFeedsOverlay(i: nat)
    ensures ScaleStep(i).output in Inputs(OverlayStep(i))
  {
  }

  lemma OverlayFeedsNext(i: nat)
    ensures OverlayStep(i).output in Inputs(OverlayStep(i + 1))
  {
  }

  lemma OutputConsumedLater(n: nat, j: nat)
    requires j + 1 < 2 * n
    ensures ConsumedLater(Chains(n), j)
  {
    var i := j / 2;
    if j == 2 * i {
      ScaledConsumed(n, i);
    } else {
      assert j == 2 * i + 1;
      OverlayConsumed(n, i);
    }
  }

  /** The scaled watermark i is read by the overlay chain right after it. */
  lemma ScaledConsumed(n: nat, i: nat)
    requires i < n
    ensures ConsumedLater(Chains(n), 2 * i)
  {
    ChainPair(n, i);
    ScaleFeedsOverlay(i);
    assert Chains(n)[2 * i].output in Inputs(Chains(n)[2 * i + 1]);
  }

  /** The composite `[v{i}]` is read by the overlay chain of watermark i + 1. */
  lemma OverlayConsumed(n: nat, i: nat)
    requires i + 1 < n
    ensures ConsumedLater(Chains(n), 2 * i + 1)
  {
    ChainPair(n, i);
    ChainPair(n, i + 1);
    OverlayFeedsNext(i);
    assert Chains(n)[2 * i + 1].output in Inputs(Chains(n)[2 * (i + 1) + 1]);
  }

  /** The final label differs from every label a chain of the graph reads. */
  lemma FinalLabelDiffers(n: nat, i: nat)
    requires i < n
    ensures CompositeLabel(n) != StreamLabel(i + 1)
    ensures CompositeLabel(n) != CompositeLabel(i)
    ensures CompositeLabel(n) != ScaledLabel(i)
  {
    LabelKinds(n - 1);
    LabelKinds(i);
    LabelKinds(i + 1);
    var last := OverlayLabel(n - 1);
    assert last[1] == 'v';
    if i == 0 {
      assert CompositeLabel(i)[1] == '0';
    } else if last == OverlayLabel(i - 1) {
      OverlayLabelInjective(n - 1, i - 1);
    }
  }

  lemma FinalLabelUnused(n: nat, k: nat)
    requires k < 2 * n
    ensures CompositeLabel(n) !in Inputs(Chains(n)[k])
  {
    ChainAt(n, k);
    FinalNotRead(n, k / 2);
  }

  /** Neither chain of watermark i reads the final label. */
  lemma FinalNotRead(n: nat, i: nat)
    requires i < n
    ensures CompositeLabel(n) !in Inputs(ScaleStep(i))
    ensures CompositeLabel(n) !in Inputs(OverlayStep(i))
  {
    FinalLabelDiffers(n, i);
    assert Inputs(ScaleStep(i)) == [StreamLabel(i + 1)];
    assert Inputs(OverlayStep(i)) == [CompositeLabel(i), ScaledLabel(i)];
  }

  /** No label is defined by two chains. */
  predicate OutputsUnique(cs: seq<Chain>)
  {
    forall j, k :: 0 <= j < k < |cs| ==> cs[j].output != cs[k].output
  }

  /** Every label a chain reads is an input stream or an earlier chain's output. */
  predicate InputsDefined(cs: seq<Chain>, n: nat)
  {
    forall k, l :: 0 <= k < |cs| && l in Inputs(cs[k]) ==>
      IsStreamOf(l, n) || exists j :: 0 <= j < k && cs[j].output == l
  }

  /** The output of chain `j` is read by a later chain. */
  predicate ConsumedLater(cs: seq<Chain>, j: nat)
    requires j < |cs|
  {
    exists k :: j < k < |cs| && cs[j].output in Inputs(cs[k])
  }

  /** Every output but the last is read by a later chain. */
  predicate OutputsConsumed(cs: seq<Chain>)
  {
    forall j: nat :: j + 1 < |cs| ==> ConsumedLater(cs, j)
  }

  /** `final` is the last chain's output and no chain reads it. */
  predicate LeavesFinal(cs: seq<Chain>, final: string)
  {
    (|cs| > 0 ==> cs[|cs| - 1].output == final) &&
    forall k :: 0 <= k < |cs| ==> final !in Inputs(cs[k])
  }

  lemma ChainsOutputsUnique(n: nat)
    ensures OutputsUnique(Chains(n))
  {
    var cs := Chains(n);
    forall j, k | 0 <= j < k < |cs| ensures cs[j].output != cs[k].output {
      OutputsDistinct(n, j, k);
    }
  }

  lemma ChainsInputsDefined(n: nat)
    ensures InputsDefined(Chains(n), n)
  {
    var cs := Chains(n);
    forall k, l | 0 <= k < |cs| && l in Inputs(cs[k])
      ensures IsStreamOf(l, n) || exists j :: 0 <= j < k && cs[j].output == l
    {
      InputDefinedEarlier(n, k, l);
    }
  }

  lemma ChainsOutputsConsumed(n: nat)
    ensures OutputsConsumed(Chains(n))
  {
    var cs := Chains(n);
    forall j: nat | j + 1 < |cs| ensures ConsumedLater(cs, j) {
      OutputConsumedLater(n, j);
    }
  }

  lemma ChainsLeaveFinal(n: nat)
    ensures LeavesFinal(Chains(n), CompositeLabel(n))
  {
    var cs := Chains(n);
    if n > 0 {
      ChainPair(n, n - 1);
    }
    forall k | 0 <= k < |cs| ensures CompositeLabel(n) !in Inputs(cs[k]) {
      FinalLabelUnused(n, k);
    }
  }

  /** The graph `_build_filter` produces is well formed: no label is defined
      twice, every label a chain reads is an input stream or the output of an
      earlier chain, every intermediate label is read by a later chain, and
      only the final label (the one the command maps to the overlay output)
      is left for the caller. */
  lemma FilterGraphWellFormed(n: nat)
    ensures OutputsUnique(Chains(n))
    ensures InputsDefined(Chains(n), n)
    ensures OutputsConsumed(Chains(n))
    ensures LeavesFinal(Chains(n), CompositeLabel(n))
  {
    ChainsOutputsUnique(n);
    ChainsInputsDefined(n);
    ChainsOutputsConsumed(n);
    ChainsLeaveFinal(n);
  }

  // ---------------------------------------------------------------------
  // Encoder and HLS options
  // ---------------------------------------------------------------------

  /** The video codec settings: NVENC on a GPU, x264 otherwise. */
  function VideoCodecArgs(gpu: bool): seq<string>
  {
    if gpu then ["-c:v", "h264_nvenc", "-preset", "p2", "-cq", "19"]
    else ["-c:v", "libx264", "-preset", "medium", "-crf", "20"]
  }

  /** The rate, bitrate, audio and HLS muxer settings every output shares. */
  const StreamArgs: seq<string> :=
    ["-r", "10", "-b:v", "3000k", "-maxrate", "4000k", "-bufsize", "10000k",
     "-c:a", "aac", "-f", "hls", "-hls_time", "5", "-hls_list_size", "5",
     "-hls_flags", "delete_segments"]

  /** `_hls_output_args(playlist, gpu)`: the codec settings, the shared
      settings, and the playlist the output is written to. */
  function HlsOutputArgs(playlist: string, gpu: bool): seq<string>
  {
    VideoCodecArgs(gpu) + StreamArgs + [playlist]
  }

  function VideoCodecOptions(gpu: bool): seq<(string, string)>
  {
    if gpu then [("-c:v", "h264_nvenc"), ("-preset", "p2"), ("-cq", "19")]
    else [("-c:v", "libx264"), ("-preset", "medium"), ("-crf", "20")]
  }

  const StreamOptions: seq<(string, string)> :=
    [("-r", "10"), ("-b:v", "3000k"), ("-maxrate", "4000k"), ("-bufsize", "10000k"),
     ("-c:a", "aac"), ("-f", "hls"), ("-hls_time", "5"), ("-hls_list_size", "5"),
     ("-hls_flags", "delete_segments")]

  /** The settings an HLS output is encoded with, as (option, value) pairs. */
  function EncoderOptions(gpu: bool): seq<(string, string)>
  {
    VideoCodecOptions(gpu) + StreamOptions
  }

  /** The output arguments always end with the playlist, and everything after
      the three codec settings is the same whatever the playlist and whether
      or not a GPU encodes. */
  lemma HlsOutputArgsShape(p: string, q: string, gpu: bool, other: bool)
    ensures |HlsOutputArgs(p, gpu)| == 25 && HlsOutputArgs(p, gpu)[24] == p
    ensures HlsOutputArgs(p, gpu)[6..24] == HlsOutputArgs(q, other)[6..24]
    ensures HlsOutputArgs(p, gpu)[1] == (if gpu then "h264_nvenc" else "libx264")
  {
    assert HlsOutputArgs(p, gpu)[6..24] == StreamArgs;
    assert HlsOutputArgs(q, other)[6..24] == StreamArgs;
  }

  lemma VideoCodecRead(gpu: bool)
    ensures FileOptionRun(VideoCodecArgs(gpu)) && Pairs(VideoCodecArgs(gpu)) == VideoCodecOptions(gpu)
  {
    var a := VideoCodecArgs(gpu);
    forall j | 0 <= j < 3 ensures IsFileOption(a[2 * j]) {
      assert a[2 * j][0] == '-';
    }
  }

  lemma StreamArgsRead()
    ensures FileOptionRun(StreamArgs) && Pairs(StreamArgs) == StreamOptions
  {
    var a := StreamArgs;
    forall j | 0 <= j < 9 ensures IsFileOption(a[2 * j]) {
      assert a[2 * j][0] == '-';
    }
  }

  /** Read as FFmpeg reads them, the arguments before the playlist are twelve
      output options carrying exactly the encoder settings. */
  lemma HlsOutputArgsRead(p: string, gpu: bool)
    ensures FileOptionRun(HlsOutputArgs(p, gpu)[..24])
    ensures Pairs(HlsOutputArgs(p, gpu)[..24]) == EncoderOptions(gpu)
  {
    assert HlsOutputArgs(p, gpu)[..24] == VideoCodecArgs(gpu) + StreamArgs;
    VideoCodecRead(gpu);
    StreamArgsRead();
    FileOptionRunAppend(VideoCodecArgs(gpu), StreamArgs);
  }

  // ---------------------------------------------------------------------
  // The whole command
  // ---------------------------------------------------------------------

  /** One `-i path` pair per watermark path, in order. */
  function InputArgs(paths: seq<string>): (args: seq<string>)
    ensures |args| == 2 * |paths|
    ensures forall k :: 0 <= k < |paths| ==> args[2 * k] == "-i" && args[2 * k + 1] == paths[k]
    decreases |paths|
  {
    if |paths| == 0 then [] else InputArgs(paths[..|paths| - 1]) + ["-i", paths[|paths| - 1]]
  }

  /** The outputs: with watermarks, the filter graph and the composite written
      to `hls_wm`; in every case the plain video written to `hls_no_wm`. */
  function OutputArgs(n: nat, hlsWm: Option<string>, hlsNoWm: string, gpu: bool): seq<string>
    requires n > 0 ==> hlsWm.Some?
  {
    var plain := ["-map", "0:v", "-map", "0:a?"] + HlsOutputArgs(hlsNoWm, gpu);
    if n > 0 then
      ["-filter_complex", FilterGraph(n), "-map", CompositeLabel(n), "-map", "0:a?"]
      + HlsOutputArgs(hlsWm.value, gpu) + plain
    else plain
  }

  /** The argument list `_start_ffmpeg` hands to the process spawner;
      `hlsWm` is only read when there are watermarks. */
  function CommandLine(ffmpeg: string, url: string, wms: WatermarkMap, hlsWm: Option<string>, hlsNoWm: string, gpu: bool): seq<string>
    requires |wms| > 0 ==> hlsWm.Some?
  {
    [ffmpeg, "-loglevel", "error", "-i", url] + InputArgs(Paths(wms)) + OutputArgs(|wms|, hlsWm, hlsNoWm, gpu)
  }

  lemma InputArgsGrow(paths: seq<string>, i: nat)
    requires i < |paths|
    ensures InputArgs(paths[..i + 1]) == InputArgs(paths[..i]) + ["-i", paths[i]]
  {
    assert paths[..i + 1][..i] == paths[..i];
  }

  /** The accumulation of `cmd` in `_start_ffmpeg` (stream_controller.py:128-145). */
  method AssembleCommand(ffmpeg: string, url: string, wms: WatermarkMap, hlsWm: Option<string>, hlsNoWm: string, gpu: bool)
    returns (cmd: seq<string>)
    requires |wms| > 0 ==> hlsWm.Some?
    ensures cmd == CommandLine(ffmpeg, url, wms, hlsWm, hlsNoWm, gpu)
  {
    var head := [ffmpeg, "-loglevel", "error", "-i", url];
    var paths := Paths(wms);
    cmd := head;
    var i := 0;
    while i < |paths|
      invariant 0 <= i <= |paths|
      invariant cmd == head + InputArgs(paths[..i])
    {
      InputArgsGrow(paths, i);
      cmd := cmd + ["-i", paths[i]];
      i := i + 1;
    }
    assert paths[..i] == paths;
    var plain := ["-map", "0:v", "-map", "0:a?"] + HlsOutputArgs(hlsNoWm, gpu);
    if |paths| > 0 {
      var filterComplex, last := BuildFilter(wms);
      cmd := cmd + (["-filter_complex", filterComplex, "-map", last, "-map", "0:a?"]
                    + HlsOutputArgs(hlsWm.value, gpu) + plain);
    } else {
      cmd := cmd + plain;
    }
  }

  // ---------------------------------------------------------------------
  // The command as FFmpeg reads it
  // ---------------------------------------------------------------------

  /** Input files opened with no options of their own. */
  function InputFiles(paths: seq<string>): (fs: seq<File>)
    ensures |fs| == |paths|
    ensures forall k :: 0 <= k < |paths| ==> fs[k] == File([], paths[k])
  {
    seq(|paths|, k requires 0 <= k < |paths| => File([], paths[k]))
  }

  lemma {:induction false} RunInputArgs(r: Reading, paths: seq<string>)
    requires r.awaiting == None && r.pending == []
    ensures Run(r, InputArgs(paths)) == r.(inputs := r.inputs + InputFiles(paths))
    decreases |paths|
  {
    if |paths| == 0 {
      assert r.inputs + InputFiles(paths) == r.inputs;
    } else {
      var init, p := paths[..|paths| - 1], paths[|paths| - 1];
      RunAppend(r, InputArgs(init), ["-i", p]);
      RunInputArgs(r, init);
      RunInput(r.(inputs := r.inputs + InputFiles(init)), p);
      assert InputFiles(init) + [File([], p)] == InputFiles(paths);
    }
  }

  /** `-map a -map b` followed by the HLS arguments: one output file. */
  lemma RunMappedOutput(r: Reading, a: string, b: string, playlist: string, gpu: bool)
    requires r.awaiting == None && !IsOptionName(playlist)
    ensures Run(r, ["-map", a, "-map", b] + HlsOutputArgs(playlist, gpu)) ==
              r.(outputs := r.outputs + [File(r.pending + [("-map", a), ("-map", b)] + EncoderOptions(gpu), playlist)],
                 pending := [])
  {
    var maps := ["-map", a, "-map", b];
    var hls := HlsOutputArgs(playlist, gpu);
    HlsOutputArgsRead(playlist, gpu);
    assert FileOptionRun(maps) by {
      forall j | 0 <= j < 2 ensures IsFileOption(maps[2 * j]) {
        assert maps[2 * j] == "-map";
      }
    }
    assert Pairs(maps) == [("-map", a), ("-map", b)];
    FileOptionRunAppend(maps, hls[..24]);
    assert hls == hls[..24] + [playlist];
    assert maps + hls == (maps + hls[..24]) + [playlist];
    RunOutput(r, maps + hls[..24], playlist);
    assert r.pending + Pairs(maps + hls[..24]) == r.pending + [("-map", a), ("-map", b)] + EncoderOptions(gpu);
  }

  /** The plain output on its own. */
  lemma ReadPlainOutput(r: Reading, hlsNoWm: string, gpu: bool)
    requires r.awaiting == None && r.pending == [] && !IsOptionName(hlsNoWm)
    ensures Run(r, ["-map", "0:v", "-map", "0:a?"] + HlsOutputArgs(hlsNoWm, gpu)) ==
              r.(outputs := r.outputs + [File([("-map", "0:v"), ("-map", "0:a?")] + EncoderOptions(gpu), hlsNoWm)])
  {
    RunMappedOutput(r, "0:v", "0:a?", hlsNoWm, gpu);
    assert r.pending + [("-map", "0:v"), ("-map", "0:a?")] == [("-map", "0:v"), ("-map", "0:a?")];
  }

  /** The filter graph, the composite output and then the plain output. */
  lemma ReadBothOutputs(r: Reading, graph: string, final: string, hlsWm: string, hlsNoWm: string, gpu: bool)
    requires r.awaiting == None && r.pending == []
    requires !IsOptionName(hlsWm) && !IsOptionName(hlsNoWm)
    ensures Run(r, ["-filter_complex", graph, "-map", final, "-map", "0:a?"] + HlsOutputArgs(hlsWm, gpu)
                   + (["-map", "0:v", "-map", "0:a?"] + HlsOutputArgs(hlsNoWm, gpu))) ==
              r.(globals := r.globals + [("-filter_complex", graph)],
                 outputs := r.outputs
                   + [File([("-map", final), ("-map", "0:a?")] + EncoderOptions(gpu), hlsWm),
                      File([("-map", "0:v"), ("-map", "0:a?")] + EncoderOptions(gpu), hlsNoWm)])
  {
    var g := ["-filter_complex", graph];
    var m := ["-map", final, "-map", "0:a?"] + HlsOutputArgs(hlsWm, gpu);
    var plain := ["-map", "0:v", "-map", "0:a?"] + HlsOutputArgs(hlsNoWm, gpu);
    assert ["-filter_complex", graph, "-map", final, "-map", "0:a?"] + HlsOutputArgs(hlsWm, gpu) + plain == g + m + plain;
    RunAppend(r, g + m, plain);
    RunAppend(r, g, m);
    RunGlobal(r, "-filter_complex", graph);
    var r1 := r.(globals := r.globals + [("-filter_complex", graph)]);
    RunMappedOutput(r1, final, "0:a?", hlsWm, gpu);
    var wmFile := File([("-map", final), ("-map", "0:a?")] + EncoderOptions(gpu), hlsWm);
    assert r1.pending + [("-map", final), ("-map", "0:a?")] == [("-map", final), ("-map", "0:a?")];
    var r2 := r1.(outputs := r.outputs + [wmFile]);
    ReadPlainOutput(r2, hlsNoWm, gpu);
  }

  /** The output part of the command, read from a state with no output yet. */
  lemma ReadOutputArgs(r: Reading, n: nat, hlsWm: Option<string>, hlsNoWm: string, gpu: bool)
    requires r.awaiting == None && r.pending == [] && r.outputs == []
    requires n > 0 ==> hlsWm.Some? && !IsOptionName(hlsWm.value)
    requires !IsOptionName(hlsNoWm)
    ensures Run(r, OutputArgs(n, hlsWm, hlsNoWm, gpu)) ==
              r.(globals := r.globals + (if n > 0 then [("-filter_complex", FilterGraph(n))] else []),
                 outputs := (if n > 0 then [File([("-map", CompositeLabel(n)), ("-map", "0:a?")] + EncoderOptions(gpu), hlsWm.value)] else [])
                   + [File([("-map", "0:v"), ("-map", "0:a?")] + EncoderOptions(gpu), hlsNoWm)])
  {
    var plain := File([("-map", "0:v"), ("-map", "0:a?")] + EncoderOptions(gpu), hlsNoWm);
    if n > 0 {
      var composite := File([("-map", CompositeLabel(n)), ("-map", "0:a?")] + EncoderOptions(gpu), hlsWm.value);
      ReadBothOutputs(r, FilterGraph(n), CompositeLabel(n), hlsWm.value, hlsNoWm, gpu);
      assert r.outputs + [composite, plain] == [composite] + [plain];
    } else {
      ReadPlainOutput(r, hlsNoWm, gpu);
      assert r.outputs + [plain] == [] + [plain];
      assert r.globals + [] == r.globals;
    }
  }

  /** FFmpeg reads the assembled command as intended: the stream is input 0
      and the watermarks are inputs 1..n in the mapping's order; with
      watermarks the filter graph is given once and the composite is written
      to `hls_wm` before the plain video is written to `hls_no_wm`; without,
      only the plain output exists; both outputs carry the same encoder
      settings. Playlists that look like options would be misread, so they
      are excluded. */
  lemma ReadCommandLine(ffmpeg: string, url: string, wms: WatermarkMap, hlsWm: Option<string>, hlsNoWm: string, gpu: bool)
    requires |wms| > 0 ==> hlsWm.Some? && !IsOptionName(hlsWm.value)
    requires !IsOptionName(hlsNoWm)
    ensures Read(CommandLine(ffmpeg, url, wms, hlsWm, hlsNoWm, gpu)) ==
              Reading(
                [("-loglevel", "error")] + (if |wms| > 0 then [("-filter_complex", FilterGraph(|wms|))] else []),
                [File([], url)] + InputFiles(Paths(wms)),
                (if |wms| > 0 then [File([("-map", CompositeLabel(|wms|)), ("-map", "0:a?")] + EncoderOptions(gpu), hlsWm.value)] else [])
                + [File([("-map", "0:v"), ("-map", "0:a?")] + EncoderOptions(gpu), hlsNoWm)],
                [], None)
  {
    var outs := OutputArgs(|wms|, hlsWm, hlsNoWm, gpu);
    var r := Reading([("-loglevel", "error")], [File([], url)] + InputFiles(Paths(wms)), [], [], None);
    ReadInputs(ffmpeg, url, Paths(wms), outs);
    ReadOutputArgs(r, |wms|, hlsWm, hlsNoWm, gpu);
  }

  /** The head of the command: the log level, the stream and the watermarks. */
  lemma ReadInputs(ffmpeg: string, url: string, paths: seq<string>, outs: seq<string>)
    ensures Read([ffmpeg, "-loglevel", "error", "-i", url] + InputArgs(paths) + outs) ==
              Run(Reading([("-loglevel", "error")], [File([], url)] + InputFiles(paths), [], [], None), outs)
  {
    var cmd := [ffmpeg, "-loglevel", "error", "-i", url] + InputArgs(paths) + outs;
    var ins := InputArgs(paths);
    var lv := ["-loglevel", "error"];
    var first := ["-i", url];
    assert cmd[1..] == lv + first + ins + outs;
    RunAppend(Start, lv + first + ins, outs);
    RunAppend(Start, lv + first, ins);
    RunAppend(Start, lv, first);
    RunGlobal(Start, "-loglevel", "error");
    var r1 := Start.(globals := [("-loglevel", "error")]);
    assert Start.globals + [("-loglevel", "error")] == [("-loglevel", "error")];
    assert Run(Start, lv) == r1;
    RunInput(r1, url);
    assert r1.inputs + [File(r1.pending, url)] == [File([], url)];
    var r2 := r1.(inputs := [File([], url)]);
    assert Run(Start, lv + first) == r2;
    RunInputArgs(r2, paths);
    assert [File([], url)] + InputFiles(paths) == r2.inputs + InputFiles(paths);
    assert Run(Start, lv + first + ins) == Reading([("-loglevel", "error")], [File([], url)] + InputFiles(paths), [], [], None);
  }

  /** The plain playlist is always the last argument. */
  lemma CommandLineEnds(ffmpeg: string, url: string, wms: WatermarkMap, hlsWm: Option<string>, hlsNoWm: string, gpu: bool)
    requires |wms| > 0 ==> hlsWm.Some?
    ensures |CommandLine(ffmpeg, url, wms, hlsWm, hlsNoWm, gpu)| > 0
    ensures CommandLine(ffmpeg, url, wms, hlsWm, hlsNoWm, gpu)[|CommandLine(ffmpeg, url, wms, hlsWm, hlsNoWm, gpu)| - 1] == hlsNoWm
  {
    var plain := ["-map", "0:v", "-map", "0:a?"] + HlsOutputArgs(hlsNoWm, gpu);
    assert plain[|plain| - 1] == hlsNoWm;
    var outs := OutputArgs(|wms|, hlsWm, hlsNoWm, gpu);
    assert outs[|outs| - 1] == hlsNoWm;
  }
}
