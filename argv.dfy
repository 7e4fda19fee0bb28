/** How FFmpeg reads its argument list, used as an independent reading of
    the commands FFmpegProcessManager assembles (stream_controller.py:128-145).
    After the program name, FFmpeg's synopsis is
    `[global options] {[input options] -i input} {[output options] output}`:
    every option token takes the next token as its value, options pile up
    until the file they belong to is named, `-i X` names an input file, and a
    token that is not an option names an output file. Every option the
    supervisor passes takes exactly one value, which is all this reading
    covers. */
module ArgGrammar {
  import opened Common

  /** One input or output file with the options that preceded it. */
  datatype File = File(options: seq<(string, string)>, name: string)

  /** The reader's state: what has been read so far, the options waiting for
      their file, and the option (if any) waiting for its value. */
  datatype Reading = Reading(
    globals: seq<(string, string)>,
    inputs: seq<File>,
    outputs: seq<File>,
    pending: seq<(string, string)>,
    awaiting: Option<string>)

  const Start := Reading([], [], [], [], None)

  /** A token FFmpeg takes for an option name rather than a file name. */
  predicate IsOptionName(tok: string)
  {
    |tok| >= 2 && tok[0] == '-'
  }

  /** Options that apply to the whole run rather than to one file. */
  predicate IsGlobal(opt: string)
  {
    opt == "-loglevel" || opt == "-filter_complex"
  }

  /** An option that belongs to the next file named. */
  predicate IsFileOption(tok: string)
  {
    IsOptionName(tok) && tok != "-i" && !IsGlobal(tok)
  }

  /** Reading one token. */
  function Step(r: Reading, tok: string): Reading
  {
    match r.awaiting
    case Some(opt) =>
      if opt == "-i" then r.(inputs := r.inputs + [File(r.pending, tok)], pending := [], awaiting := None)
      else if IsGlobal(opt) then r.(globals := r.globals + [(opt, tok)], awaiting := None)
      else r.(pending := r.pending + [(opt, tok)], awaiting := None)
    case None =>
      if IsOptionName(tok) then r.(awaiting := Some(tok))
      else r.(outputs := r.outputs + [File(r.pending, tok)], pending := [])
  }

  /** Reading a run of tokens, first to last. */
  function Run(r: Reading, toks: seq<string>): Reading
    decreases |toks|
  {
    if |toks| == 0 then r else Run(Step(r, toks[0]), toks[1..])
  }

  /** How FFmpeg reads a whole command line (the program name is skipped). */
  function Read(argv: seq<string>): Reading
    requires |argv| > 0
  {
    Run(Start, argv[1..])
  }

  /** Reading a concatenation is reading one run after the other. */
  lemma {:induction false} RunAppend(r: Reading, a: seq<string>, b: seq<string>)
    ensures Run(r, a + b) == Run(Run(r, a), b)
    decreases |a|
  {
    if |a| > 0 {
      var r1 := Step(r, a[0]);
      assert (a + b)[0] == a[0];
      assert (a + b)[1..] == a[1..] + b;
      assert Run(r, a + b) == Run(r1, a[1..] + b);
      assert Run(r, a) == Run(r1, a[1..]);
      RunAppend(r1, a[1..], b);
    } else {
      assert a + b == b;
    }
  }

  /** Consecutive tokens taken two by two as (option, value) pairs. */
  function Pairs(toks: seq<string>): (ps: seq<(string, string)>)
    requires |toks| % 2 == 0
    ensures |ps| == |toks| / 2
    ensures forall j :: 0 <= j < |ps| ==> ps[j] == (toks[2 * j], toks[2 * j + 1])
  {
    seq(|toks| / 2, j requires 0 <= j < |toks| / 2 => (toks[2 * j], toks[2 * j + 1]))
  }

  /** Every even position holds an option that belongs to a file. */
  predicate FileOptionRun(toks: seq<string>)
  {
    |toks| % 2 == 0 && forall j :: 0 <= j < |toks| / 2 ==> IsFileOption(toks[2 * j])
  }

  lemma PairsOfTail(toks: seq<string>)
    requires |toks| >= 2 && |toks| % 2 == 0
    ensures Pairs(toks) == [(toks[0], toks[1])] + Pairs(toks[2..])
  {
    var a, b := Pairs(toks), [(toks[0], toks[1])] + Pairs(toks[2..]);
    assert |a| == |b|;
    forall j | 0 <= j < |a| ensures a[j] == b[j] {
      if j > 0 {
        assert toks[2..][2 * (j - 1)] == toks[2 * j];
      }
    }
  }

  /** File options are held back, in order, for the next file named. */
  lemma {:induction false} RunFileOptions(r: Reading, toks: seq<string>)
    requires r.awaiting == None && FileOptionRun(toks)
    ensures Run(r, toks) == r.(pending := r.pending + Pairs(toks))
    decreases |toks|
  {
    if |toks| == 0 {
      assert r.pending + Pairs(toks) == r.pending;
    } else {
      assert IsFileOption(toks[2 * 0]);
      var r1 := Step(r, toks[0]);
      var r2 := Step(r1, toks[1]);
      assert r2 == r.(pending := r.pending + [(toks[0], toks[1])]);
      assert Run(r, toks) == Run(r2, toks[2..]) by {
        assert toks[1..][0] == toks[1];
        assert toks[1..][1..] == toks[2..];
      }
      forall j | 0 <= j < |toks[2..]| / 2 ensures IsFileOption(toks[2..][2 * j]) {
        assert toks[2..][2 * j] == toks[2 * (j + 1)];
      }
      RunFileOptions(r2, toks[2..]);
      PairsOfTail(toks);
    }
  }

  /** A run of file options followed by a file name makes one output file. */
  lemma RunOutput(r: Reading, opts: seq<string>, name: string)
    requires r.awaiting == None && FileOptionRun(opts) && !IsOptionName(name)
    ensures Run(r, opts + [name]) ==
              r.(outputs := r.outputs + [File(r.pending + Pairs(opts), name)], pending := [])
  {
    RunAppend(r, opts, [name]);
    RunFileOptions(r, opts);
  }

  /** A global option with its value. */
  lemma RunGlobal(r: Reading, opt: string, value: string)
    requires r.awaiting == None && IsOptionName(opt) && IsGlobal(opt)
    ensures Run(r, [opt, value]) == r.(globals := r.globals + [(opt, value)])
  {
    var r1 := r.(awaiting := Some(opt));
    assert Step(r, opt) == r1;
    assert [opt, value][1..] == [value];
    assert Run(r, [opt, value]) == Run(r1, [value]);
    assert Run(r1, [value]) == Run(Step(r1, value), []);
  }

  /** `-i X`: one input file that takes the pending options. */
  lemma RunInput(r: Reading, name: string)
    requires r.awaiting == None
    ensures Run(r, ["-i", name]) == r.(inputs := r.inputs + [File(r.pending, name)], pending := [])
  {
    var r1 := r.(awaiting := Some("-i"));
    assert Step(r, "-i") == r1;
    assert ["-i", name][1..] == [name];
    assert Run(r, ["-i", name]) == Run(r1, [name]);
    assert Run(r1, [name]) == Run(Step(r1, name), []);
  }

  /** Joining option runs keeps them option runs, and their pairs in order. */
  lemma FileOptionRunAppend(a: seq<string>, b: seq<string>)
    requires FileOptionRun(a) && FileOptionRun(b)
    ensures FileOptionRun(a + b)
    ensures Pairs(a + b) == Pairs(a) + Pairs(b)
  {
    var c := a + b;
    forall j | 0 <= j < |c| / 2 ensures IsFileOption(c[2 * j]) {
      if j < |a| / 2 {
        assert c[2 * j] == a[2 * j];
      } else {
        assert c[2 * j] == b[2 * (j - |a| / 2)];
      }
    }
    var p, q := Pairs(c), Pairs(a) + Pairs(b);
    assert |p| == |q|;
    forall j | 0 <= j < |p| ensures p[j] == q[j] {
      if j >= |a| / 2 {
        assert c[2 * j] == b[2 * (j - |a| / 2)];
        assert c[2 * j + 1] == b[2 * (j - |a| / 2) + 1];
      }
    }
  }
}
