/** FFmpegProcessManager (stream_controller.py:19-174): the registry of
    running workers keyed by stream uid, starting a worker with retries,
    stopping one, choosing the stray FFmpeg processes to terminate, and one
    tick of the reconciliation loop that moves each binding's status.

    The operating system is reached through parameters: the outcomes of the
    successive `subprocess.Popen` attempts for a binding (the pid of the new
    process, or None when Popen raises), the set of pids that have not
    exited (`poll() is None`), and the process table as
    `psutil.process_iter` reports it. */
module Supervisor {
  import opened Common
  import opened BindingView
  import opened Command

  const NeedStart := "need_start"
  const Starting := "starting"
  const Started := "started"
  const NeedStop := "need_stop"
  const Stopping := "stopping"
  const Stopped := "stopped"
  const NeedRestart := "need_restart"
  const Restarting := "restarting"

  /** `max_retries` of `_start_ffmpeg`; no caller passes another value. */
  const MaxRetries: nat := 5

  /** A spawned worker (the Popen object): its pid and the argument list it
      was started with. */
  datatype Handle = Handle(pid: nat, args: seq<string>)

  /** One entry of the process table: pid, name and argument list, the last
      two possibly unreadable (None). */
  datatype ProcInfo = ProcInfo(pid: nat, name: Option<string>, cmdline: Option<seq<string>>)

  /** What Popen does on attempts 1, 2, ...: the pid of the new process, or
      None when it raises. Attempts past the end raise. */
  type Outcomes = seq<Option<nat>>

  function Outcome(outs: Outcomes, attempt: nat): Option<nat>
  {
    if 1 <= attempt <= |outs| then outs[attempt - 1] else None
  }

  // ---------------------------------------------------------------------
  // Choosing stray FFmpeg processes (stream_controller.py:91-114)
  // ---------------------------------------------------------------------

  /** The argument list joined by spaces; empty when it is missing or empty. */
  function CmdlineText(p: ProcInfo): string
  {
    match p.cmdline
    case None => ""
    case Some(args) => Join(args, " ")
  }

  /** A process is terminated when it has a name, the name contains "ffmpeg"
      ignoring case, and no known uid occurs in its command line. */
  predicate IsOrphan(p: ProcInfo, valid: set<string>)
  {
    p.name.Some? && p.name.value != "" &&
    Contains(LowerAscii(p.name.value), "ffmpeg") &&
    !exists uid :: uid in valid && Contains(CmdlineText(p), uid)
  }

  /** The pids of the orphans, in process-table order. */
  function Orphans(procs: seq<ProcInfo>, valid: set<string>): seq<nat>
    decreases |procs|
  {
    if |procs| == 0 then []
    else
      var last := procs[|procs| - 1];
      Orphans(procs[..|procs| - 1], valid) + (if IsOrphan(last, valid) then [last.pid] else [])
  }

  /** `_kill_unknown_ffmpeg`: walks the process table and returns the pids it
      terminates. */
  method KillUnknownFfmpeg(procs: seq<ProcInfo>, valid: set<string>) returns (killed: seq<nat>)
    ensures killed == Orphans(procs, valid)
  {
    killed := [];
    var i := 0;
    while i < |procs|
      invariant 0 <= i <= |procs|
      invariant killed == Orphans(procs[..i], valid)
    {
      assert procs[..i + 1][..i] == procs[..i];
      var p := procs[i];
      if p.name.Some? && p.name.value != "" {
        if Contains(LowerAscii(p.name.value), "ffmpeg") {
          var tracked := exists uid :: uid in valid && Contains(CmdlineText(p), uid);
          if !tracked {
            killed := killed + [p.pid];
          }
        }
      }
      i := i + 1;
    }
    assert procs[..i] == procs;
  }

  /** A pid is terminated exactly when some process with that pid is an orphan. */
  lemma {:induction false} OrphansExactly(procs: seq<ProcInfo>, valid: set<string>, pid: nat)
    ensures pid in Orphans(procs, valid) <==>
              exists k :: 0 <= k < |procs| && procs[k].pid == pid && IsOrphan(procs[k], valid)
    decreases |procs|
  {
    if |procs| > 0 {
      var init := procs[..|procs| - 1];
      OrphansExactly(init, valid, pid);
      if exists k :: 0 <= k < |procs| && procs[k].pid == pid && IsOrphan(procs[k], valid) {
        var k :| 0 <= k < |procs| && procs[k].pid == pid && IsOrphan(procs[k], valid);
        if k < |init| {
          assert init[k] == procs[k];
        }
      }
      if exists k :: 0 <= k < |init| && init[k].pid == pid && IsOrphan(init[k], valid) {
        var k :| 0 <= k < |init| && init[k].pid == pid && IsOrphan(init[k], valid);
        assert procs[k] == init[k];
      }
    }
  }

  /** A process one of whose arguments mentions a known uid is never terminated. */
  lemma TrackedWorkerSpared(p: ProcInfo, valid: set<string>, uid: string, k: nat)
    requires uid in valid && p.cmdline.Some? && k < |p.cmdline.value|
    requires Contains(p.cmdline.value[k], uid)
    ensures !IsOrphan(p, valid)
  {
    JoinContainsPart(p.cmdline.value, " ", k, uid);
  }

  // ---------------------------------------------------------------------
  // Starting a worker (stream_controller.py:119-163)
  // ---------------------------------------------------------------------

  /** The command has no None argument: `url` and `hls_no_wm` are present,
      and so is `hls_wm` when there are watermarks. The command is always
      built, but a None in it makes every Popen attempt raise. */
  predicate Launchable(info: StreamInfo)
  {
    info.url.Some? && info.hlsNoWm.Some? && (|info.waterMarks| > 0 ==> info.hlsWm.Some?)
  }

  function CommandOf(ffmpeg: string, info: StreamInfo, gpu: bool): seq<string>
    requires Launchable(info)
  {
    CommandLine(ffmpeg, info.url.value, info.waterMarks, info.hlsWm, info.hlsNoWm.value, gpu)
  }

  /** The command one attempt of `_start_ffmpeg` builds. */
  method BuildCommand(ffmpeg: string, info: StreamInfo, gpu: bool) returns (cmd: seq<string>)
    requires Launchable(info)
    ensures cmd == CommandOf(ffmpeg, info, gpu)
  {
    cmd := AssembleCommand(ffmpeg, info.url.value, info.waterMarks, info.hlsWm, info.hlsNoWm.value, gpu);
  }

  /** The first attempt in `from..last` on which Popen succeeds, with its pid. */
  function FirstSpawn(outs: Outcomes, from: nat, last: nat): (r: Option<(nat, nat)>)
    ensures r.Some? ==> from <= r.value.1 <= last && Outcome(outs, r.value.1) == Some(r.value.0)
    ensures r.Some? ==> forall a :: from <= a < r.value.1 ==> Outcome(outs, a).None?
    ensures r.None? <==> forall a :: from <= a <= last ==> Outcome(outs, a).None?
    decreases last + 1 - from
  {
    if from > last then None
    else
      match Outcome(outs, from)
      case Some(pid) => Some((pid, from))
      case None => FirstSpawn(outs, from + 1, last)
  }

  /** What `_start_ffmpeg` achieves: the worker running the binding's command
      and the attempt it was spawned on, or None once every attempt failed. */
  function Launch(ffmpeg: string, info: StreamInfo, gpu: bool, outs: Outcomes): (r: Option<(Handle, nat)>)
    ensures r.Some? ==> Launchable(info) && 1 <= r.value.1 <= MaxRetries
    ensures r.Some? ==> r.value.0.args == CommandOf(ffmpeg, info, gpu)
    ensures r.Some? ==> Outcome(outs, r.value.1) == Some(r.value.0.pid)
    ensures r.None? <==> !Launchable(info) || forall a :: 1 <= a <= MaxRetries ==> Outcome(outs, a).None?
  {
    if !Launchable(info) then None
    else
      match FirstSpawn(outs, 1, MaxRetries)
      case Some(p) => Some((Handle(p.0, CommandOf(ffmpeg, info, gpu)), p.1))
      case None => None
  }

  /** The first successful attempt is the one `_start_ffmpeg` keeps. */
  lemma LaunchOn(ffmpeg: string, info: StreamInfo, gpu: bool, outs: Outcomes, a: nat)
    requires Launchable(info) && 1 <= a <= MaxRetries && Outcome(outs, a).Some?
    requires forall b :: 1 <= b < a ==> Outcome(outs, b).None?
    ensures Launch(ffmpeg, info, gpu, outs) == Some((Handle(Outcome(outs, a).value, CommandOf(ffmpeg, info, gpu)), a))
  {
    assert FirstSpawn(outs, 1, MaxRetries).Some?;
  }

  /** The retry loop of `_start_ffmpeg`: each attempt builds the command and
      hands it to Popen; the first success is kept. */
  method SpawnWorker(ffmpeg: string, info: StreamInfo, gpu: bool, outs: Outcomes) returns (r: Option<(Handle, nat)>)
    ensures r == Launch(ffmpeg, info, gpu, outs)
  {
    var attempt := 1;
    while attempt <= MaxRetries
      invariant 1 <= attempt <= MaxRetries + 1
      invariant Launchable(info) ==> forall a :: 1 <= a < attempt ==> Outcome(outs, a).None?
    {
      if Launchable(info) {
        var pid := Outcome(outs, attempt);
        if pid.Some? {
          var cmd := BuildCommand(ffmpeg, info, gpu);
          LaunchOn(ffmpeg, info, gpu, outs, attempt);
          return Some((Handle(pid.value, cmd), attempt as nat));
        }
      }
      attempt := attempt + 1;
    }
    return None;
  }

  function Launched(ffmpeg: string, info: StreamInfo, gpu: bool, outs: Outcomes): Option<Handle>
  {
    match Launch(ffmpeg, info, gpu, outs)
    case Some(p) => Some(p.0)
    case None => None
  }

  /** A worker the supervisor starts survives the sweep when its plain
      playlist's path mentions the binding's uid. Nothing else in the command
      is bound to mention it, so a worker whose paths do not is terminated by
      the next sweep. */
  lemma LaunchedWorkerSpared(ffmpeg: string, info: StreamInfo, gpu: bool, outs: Outcomes, name: string,
                             valid: set<string>, uid: string)
    requires Launched(ffmpeg, info, gpu, outs).Some?
    requires uid in valid && Contains(info.hlsNoWm.value, uid)
    ensures var h := Launched(ffmpeg, info, gpu, outs).value;
            !IsOrphan(ProcInfo(h.pid, Some(name), Some(h.args)), valid)
  {
    var h := Launched(ffmpeg, info, gpu, outs).value;
    CommandOfEnds(ffmpeg, info, gpu);
    TrackedWorkerSpared(ProcInfo(h.pid, Some(name), Some(h.args)), valid, uid, |h.args| - 1);
  }

  /** The command of a binding ends with its plain playlist. */
  lemma CommandOfEnds(ffmpeg: string, info: StreamInfo, gpu: bool)
    requires Launchable(info)
    ensures |CommandOf(ffmpeg, info, gpu)| > 0
    ensures CommandOf(ffmpeg, info, gpu)[|CommandOf(ffmpeg, info, gpu)| - 1] == info.hlsNoWm.value
  {
    CommandLineEnds(ffmpeg, info.url.value, info.waterMarks, info.hlsWm, info.hlsNoWm.value, gpu);
  }

  // ---------------------------------------------------------------------
  // One tick of the reconciliation loop (stream_controller.py:57-80)
  // ---------------------------------------------------------------------

  /** A worker is running when the registry holds one for the uid and it has
      not exited. */
  predicate Running(processes: map<string, Handle>, live: set<nat>, uid: string)
  {
    uid in processes && processes[uid].pid in live
  }

  /** The statuses a tick acts on. */
  predicate Dispatched(s: Option<string>, running: bool)
  {
    s == Some(NeedStart) || s == Some(Restarting) || s == Some(NeedStop) ||
    s == Some(NeedRestart) || (s == Some(Started) && !running)
  }

  /** The status a binding is left with after one tick. A start that fails
      writes `need_restart`, which the loop then overwrites with `started`. */
  function NextStatus(s: Option<string>, running: bool): Option<string>
  {
    if s == Some(NeedStart) || s == Some(Restarting) || s == Some(NeedRestart) then Some(Started)
    else if s == Some(NeedStop) then Some(Stopped)
    else if s == Some(Started) && !running then Some(NeedRestart)
    else s
  }

  /** A tick changes a status exactly when it acts on it, and what it leaves
      behind is never a transient state: only `started`, `stopped` and
      `need_restart` come out of a dispatch. */
  lemma NextStatusSettles(s: Option<string>, running: bool)
    ensures NextStatus(s, running) != s <==> Dispatched(s, running)
    ensures Dispatched(s, running) ==>
              NextStatus(s, running) == Some(Started) || NextStatus(s, running) == Some(Stopped) ||
              NextStatus(s, running) == Some(NeedRestart)
  {
  }

  /** What a binding's registry entry becomes, from its status, the worker
      it had, and the worker a start spawns. */
  function NextProcess(s: Option<string>, current: Option<Handle>, launched: Option<Handle>): Option<Handle>
  {
    if s == Some(NeedStart) || s == Some(Restarting) then (if launched.Some? then launched else current)
    else if s == Some(NeedStop) then None
    else if s == Some(NeedRestart) then launched
    else current
  }

  /** The registry with the uid's entry set, or removed when there is none. */
  function Assign(processes: map<string, Handle>, uid: string, h: Option<Handle>): (r: map<string, Handle>)
    ensures Get(r, uid) == h
    ensures forall u :: u != uid ==> Get(r, u) == Get(processes, u)
  {
    if h.Some? then processes[uid := h.value] else processes - {uid}
  }

  lemma AssignAfterRemove(processes: map<string, Handle>, uid: string, h: Option<Handle>)
    ensures Assign(processes - {uid}, uid, h) == Assign(processes, uid, h)
  {
  }

  /** The store after the bindings in `done` have been dispatched. */
  function StatusesAfter(docs: map<string, StreamInfo>, processes: map<string, Handle>, live: set<nat>,
                         done: set<string>): (r: map<string, StreamInfo>)
    ensures r.Keys == docs.Keys
  {
    map u | u in docs :: if u in done then docs[u].(status := NextStatus(docs[u].status, Running(processes, live, u))) else docs[u]
  }

  /** The registry entry of `u` once the bindings in `done` have been dispatched. */
  function EntryAfter(ffmpeg: string, gpu: bool, docs: map<string, StreamInfo>, processes: map<string, Handle>,
                      spawns: map<string, Outcomes>, done: set<string>, u: string): Option<Handle>
  {
    if u in done && u in docs then
      NextProcess(docs[u].status, Get(processes, u), Launched(ffmpeg, docs[u], gpu, GetOr(spawns, u, [])))
    else Get(processes, u)
  }

  /** The registry once the bindings in `done` have been dispatched. */
  function ProcessesAfter(ffmpeg: string, gpu: bool, docs: map<string, StreamInfo>, processes: map<string, Handle>,
                          spawns: map<string, Outcomes>, done: set<string>): (r: map<string, Handle>)
    ensures forall u :: Get(r, u) == EntryAfter(ffmpeg, gpu, docs, processes, spawns, done, u)
  {
    map u | u in processes.Keys + docs.Keys && EntryAfter(ffmpeg, gpu, docs, processes, spawns, done, u).Some? ::
      EntryAfter(ffmpeg, gpu, docs, processes, spawns, done, u).value
  }

  /** The process manager: the store it reads and writes, the encoder choice,
      and the registry of running workers. */
  class ProcessManager {
    const sm: BindingStore
    const ffmpegPath: string
    const useGpu: bool
    const hasGpu: bool
    var processes: map<string, Handle>

    constructor (sm: BindingStore, ffmpegPath: string, useGpu: bool, hasGpu: bool)
      ensures this.sm == sm && this.ffmpegPath == ffmpegPath
      ensures this.useGpu == useGpu && this.hasGpu == hasGpu
      ensures processes == map[]
    {
      this.sm := sm;
      this.ffmpegPath := ffmpegPath;
      this.useGpu := useGpu;
      this.hasGpu := hasGpu;
      processes := map[];
    }

    /** Both outputs are encoded on the GPU only when it is wanted and present. */
    function Gpu(): bool
    {
      useGpu && hasGpu
    }

    /** `_start_ffmpeg`: up to MaxRetries attempts to build the command and
        spawn it; the first success registers the worker, and when all fail
        the binding is marked `need_restart`. */
    method StartFfmpeg(uid: string, info: StreamInfo, outs: Outcomes) returns (attempts: nat)
      modifies this, sm
      ensures attempts <= MaxRetries
      ensures match Launch(ffmpegPath, info, Gpu(), outs)
              case Some(p) =>
                processes == old(processes)[uid := p.0] && sm.docs == old(sm.docs) && attempts == p.1
              case None =>
                processes == old(processes) && sm.docs == WithStatus(old(sm.docs), uid, NeedRestart) && attempts == MaxRetries
    {
      var launched := SpawnWorker(ffmpegPath, info, Gpu(), outs);
      match launched
      case Some(p) =>
        processes := processes[uid := p.0];
        attempts := p.1;
      case None =>
        sm.UpdateStatus(uid, NeedRestart);
        attempts := MaxRetries;
    }

    /** `_stop_ffmpeg`: takes the uid's worker out of the registry and returns
        the handle it signals; an unknown uid changes nothing. */
    method StopFfmpeg(uid: string) returns (signalled: Option<Handle>)
      modifies this
      ensures processes == old(processes) - {uid}
      ensures signalled == Get(old(processes), uid)
    {
      if uid in processes {
        signalled := Some(processes[uid]);
        processes := processes - {uid};
      } else {
        signalled := None;
      }
    }

    /** `need_start` or `restarting`: mark `starting`, start, mark `started`
        (which also hides the `need_restart` of a failed start). */
    method BeginStream(uid: string, info: StreamInfo, outs: Outcomes)
      modifies this, sm
      ensures sm.docs == WithStatus(old(sm.docs), uid, Started)
      ensures processes == Assign(old(processes), uid,
                                  NextProcess(Some(NeedStart), Get(old(processes), uid), Launched(ffmpegPath, info, Gpu(), outs)))
    {
      sm.UpdateStatus(uid, Starting);
      ghost var d1 := sm.docs;
      var _ := StartFfmpeg(uid, info, outs);
      WithStatusOverwrites(old(sm.docs), uid, Starting, NeedRestart);
      WithStatusOverwrites(d1, uid, NeedRestart, Started);
      WithStatusOverwrites(old(sm.docs), uid, Starting, Started);
      sm.UpdateStatus(uid, Started);
    }

    /** `need_stop`: mark `stopping`, stop, mark `stopped`. */
    method EndStream(uid: string)
      modifies this, sm
      ensures sm.docs == WithStatus(old(sm.docs), uid, Stopped)
      ensures processes == old(processes) - {uid}
    {
      sm.UpdateStatus(uid, Stopping);
      var _ := StopFfmpeg(uid);
      WithStatusOverwrites(old(sm.docs), uid, Stopping, Stopped);
      sm.UpdateStatus(uid, Stopped);
    }

    /** `need_restart`: mark `restarting`, stop, start, mark `started`. */
    method RestartStream(uid: string, info: StreamInfo, outs: Outcomes)
      modifies this, sm
      ensures sm.docs == WithStatus(old(sm.docs), uid, Started)
      ensures processes == Assign(old(processes), uid, Launched(ffmpegPath, info, Gpu(), outs))
    {
      sm.UpdateStatus(uid, Restarting);
      ghost var d1 := sm.docs;
      var _ := StopFfmpeg(uid);
      var _ := StartFfmpeg(uid, info, outs);
      AssignAfterRemove(old(processes), uid, Launched(ffmpegPath, info, Gpu(), outs));
      WithStatusOverwrites(old(sm.docs), uid, Restarting, NeedRestart);
      WithStatusOverwrites(d1, uid, NeedRestart, Started);
      WithStatusOverwrites(old(sm.docs), uid, Restarting, Started);
      sm.UpdateStatus(uid, Started);
    }

    /** The loop body for one binding, from the snapshot `info` read at the
        start of the tick. */
    method Dispatch(uid: string, info: StreamInfo, outs: Outcomes, live: set<nat>)
      modifies this, sm
      ensures sm.docs == if Dispatched(info.status, Running(old(processes), live, uid))
                         then WithStatus(old(sm.docs), uid, NextStatus(info.status, Running(old(processes), live, uid)).value)
                         else old(sm.docs)
      ensures processes == Assign(old(processes), uid,
                                  NextProcess(info.status, Get(old(processes), uid), Launched(ffmpegPath, info, Gpu(), outs)))
    {
      var status := info.status;
      if status == Some(NeedStart) || status == Some(Restarting) {
        BeginStream(uid, info, outs);
      } else if status == Some(NeedStop) {
        EndStream(uid);
      } else if status == Some(NeedRestart) {
        RestartStream(uid, info, outs);
      } else if status == Some(Started) {
        if !(uid in processes && processes[uid].pid in live) {
          sm.UpdateStatus(uid, NeedRestart);
        }
      }
    }

    /** One pass of `_auto_manager_loop`: sweep stray FFmpeg processes, then
        dispatch every binding of the snapshot read at the start of the pass.
        Each binding's step touches only its own status and registry entry,
        so the outcome does not depend on the order of the bindings. */
    method Tick(table: seq<ProcInfo>, spawns: map<string, Outcomes>, live: set<nat>) returns (killed: seq<nat>)
      modifies this, sm
      ensures killed == Orphans(table, old(sm.docs).Keys)
      ensures sm.docs == StatusesAfter(old(sm.docs), old(processes), live, old(sm.docs).Keys)
      ensures processes == ProcessesAfter(ffmpegPath, Gpu(), old(sm.docs), old(processes), spawns, old(sm.docs).Keys)
    {
      var bindings := sm.docs;
      ghost var registry := processes;
      killed := KillUnknownFfmpeg(table, bindings.Keys);
      var todo := bindings.Keys;
      StatusesAfterNone(bindings, registry, live);
      ProcessesAfterNone(ffmpegPath, Gpu(), bindings, registry, spawns);
      assert bindings.Keys - todo == {};
      while todo != {}
        invariant todo <= bindings.Keys
        invariant sm.docs == StatusesAfter(bindings, registry, live, bindings.Keys - todo)
        invariant processes == ProcessesAfter(ffmpegPath, Gpu(), bindings, registry, spawns, bindings.Keys - todo)
        decreases |todo|
      {
        var uid :| uid in todo;
        ghost var done := bindings.Keys - todo;
        ghost var docs1 := sm.docs;
        ghost var procs1 := processes;
        assert Get(procs1, uid) == Get(registry, uid) by {
          assert EntryAfter(ffmpegPath, Gpu(), bindings, registry, spawns, done, uid) == Get(registry, uid);
        }
        assert Running(procs1, live, uid) == Running(registry, live, uid);
        Dispatch(uid, bindings[uid], GetOr(spawns, uid, []), live);
        StepStatuses(bindings, registry, live, done, uid);
        StepProcesses(ffmpegPath, Gpu(), bindings, registry, spawns, done, uid);
        assert bindings.Keys - (todo - {uid}) == done + {uid};
        todo := todo - {uid};
      }
      assert bindings.Keys - todo == bindings.Keys;
    }
  }

  /** Before any binding is dispatched the store is as it was. */
  lemma StatusesAfterNone(docs: map<string, StreamInfo>, processes: map<string, Handle>, live: set<nat>)
    ensures StatusesAfter(docs, processes, live, {}) == docs
  {
  }

  /** Before any binding is dispatched the registry is as it was. */
  lemma ProcessesAfterNone(ffmpeg: string, gpu: bool, docs: map<string, StreamInfo>, processes: map<string, Handle>,
                           spawns: map<string, Outcomes>)
    ensures ProcessesAfter(ffmpeg, gpu, docs, processes, spawns, {}) == processes
  {
    var r := ProcessesAfter(ffmpeg, gpu, docs, processes, spawns, {});
    forall u ensures Get(r, u) == Get(processes, u) {
      assert Get(r, u) == EntryAfter(ffmpeg, gpu, docs, processes, spawns, {}, u);
    }
    RegistryExtensional(r, processes);
  }

  /** Dispatching one more binding updates only its own status. */
  lemma StepStatuses(docs: map<string, StreamInfo>, processes: map<string, Handle>, live: set<nat>,
                     done: set<string>, uid: string)
    requires uid in docs && uid !in done
    ensures var before := StatusesAfter(docs, processes, live, done);
            var s := docs[uid].status;
            var running := Running(processes, live, uid);
            StatusesAfter(docs, processes, live, done + {uid}) ==
              if Dispatched(s, running) then WithStatus(before, uid, NextStatus(s, running).value) else before
  {
  }

  /** Registries that agree on every uid are equal. */
  lemma RegistryExtensional(a: map<string, Handle>, b: map<string, Handle>)
    requires forall u :: Get(a, u) == Get(b, u)
    ensures a == b
  {
    assert a.Keys == b.Keys by {
      forall u ensures u in a <==> u in b {
        assert Get(a, u).Some? <==> Get(b, u).Some?;
      }
    }
    forall u | u in a ensures a[u] == b[u] {
      assert Get(a, u) == Get(b, u);
    }
  }

  /** Dispatching one more binding updates only its own registry entry. */
  lemma StepProcesses(ffmpeg: string, gpu: bool, docs: map<string, StreamInfo>, processes: map<string, Handle>,
                      spawns: map<string, Outcomes>, done: set<string>, uid: string)
    requires uid in docs && uid !in done
    ensures var before := ProcessesAfter(ffmpeg, gpu, docs, processes, spawns, done);
            ProcessesAfter(ffmpeg, gpu, docs, processes, spawns, done + {uid}) ==
              Assign(before, uid, NextProcess(docs[uid].status, Get(processes, uid),
                                              Launched(ffmpeg, docs[uid], gpu, GetOr(spawns, uid, []))))
  {
    var before := ProcessesAfter(ffmpeg, gpu, docs, processes, spawns, done);
    var after := ProcessesAfter(ffmpeg, gpu, docs, processes, spawns, done + {uid});
    var entry := NextProcess(docs[uid].status, Get(processes, uid), Launched(ffmpeg, docs[uid], gpu, GetOr(spawns, uid, [])));
    var target := Assign(before, uid, entry);
    forall u ensures Get(after, u) == Get(target, u) {
      assert Get(after, u) == EntryAfter(ffmpeg, gpu, docs, processes, spawns, done + {uid}, u);
      if u != uid {
        assert Get(target, u) == Get(before, u);
        assert Get(before, u) == EntryAfter(ffmpeg, gpu, docs, processes, spawns, done, u);
      }
    }
    RegistryExtensional(after, target);
  }

  // ---------------------------------------------------------------------
  // What ticks do over time
  // ---------------------------------------------------------------------

  /** A binding whose worker cannot be started flaps: the tick that tries
      reports `started` although nothing runs, and the next tick notices the
      missing worker and asks for a restart, which the tick after that tries
      again. */
  lemma FailedStartFlaps(ffmpeg: string, gpu: bool, docs: map<string, StreamInfo>, processes: map<string, Handle>,
                         spawns: map<string, Outcomes>, live: set<nat>, live': set<nat>, uid: string)
    requires uid in docs
    requires docs[uid].status == Some(NeedRestart) ||
             ((docs[uid].status == Some(NeedStart) || docs[uid].status == Some(Restarting)) && uid !in processes)
    requires Launched(ffmpeg, docs[uid], gpu, GetOr(spawns, uid, [])).None?
    ensures var docs' := StatusesAfter(docs, processes, live, docs.Keys);
            var processes' := ProcessesAfter(ffmpeg, gpu, docs, processes, spawns, docs.Keys);
            docs'[uid].status == Some(Started) && uid !in processes' &&
            StatusesAfter(docs', processes', live', docs'.Keys)[uid].status == Some(NeedRestart)
  {
    var processes' := ProcessesAfter(ffmpeg, gpu, docs, processes, spawns, docs.Keys);
    assert Get(processes', uid) == EntryAfter(ffmpeg, gpu, docs, processes, spawns, docs.Keys, uid);
  }

  /** A binding asked to stop ends `stopped` with no worker registered, and
      later ticks leave it so. */
  lemma StopIsFinal(ffmpeg: string, gpu: bool, docs: map<string, StreamInfo>, processes: map<string, Handle>,
                    spawns: map<string, Outcomes>, live: set<nat>, live': set<nat>, uid: string)
    requires uid in docs && docs[uid].status == Some(NeedStop)
    ensures var docs' := StatusesAfter(docs, processes, live, docs.Keys);
            var processes' := ProcessesAfter(ffmpeg, gpu, docs, processes, spawns, docs.Keys);
            docs'[uid].status == Some(Stopped) && uid !in processes' &&
            StatusesAfter(docs', processes', live', docs'.Keys)[uid] == docs'[uid] &&
            uid !in ProcessesAfter(ffmpeg, gpu, docs', processes', spawns, docs'.Keys)
  {
    var docs' := StatusesAfter(docs, processes, live, docs.Keys);
    var processes' := ProcessesAfter(ffmpeg, gpu, docs, processes, spawns, docs.Keys);
    assert Get(processes', uid) == EntryAfter(ffmpeg, gpu, docs, processes, spawns, docs.Keys, uid);
    var processes'' := ProcessesAfter(ffmpeg, gpu, docs', processes', spawns, docs'.Keys);
    assert Get(processes'', uid) == EntryAfter(ffmpeg, gpu, docs', processes', spawns, docs'.Keys, uid);
  }

  /** A tick leaves alone every binding whose status it does not act on:
      its entry in the store and its worker are as they were. */
  lemma UndispatchedUntouched(ffmpeg: string, gpu: bool, docs: map<string, StreamInfo>, processes: map<string, Handle>,
                              spawns: map<string, Outcomes>, live: set<nat>, uid: string)
    requires uid in docs && !Dispatched(docs[uid].status, Running(processes, live, uid))
    ensures StatusesAfter(docs, processes, live, docs.Keys)[uid] == docs[uid]
    ensures Get(ProcessesAfter(ffmpeg, gpu, docs, processes, spawns, docs.Keys), uid) == Get(processes, uid)
  {
    NextStatusSettles(docs[uid].status, Running(processes, live, uid));
  }
}
