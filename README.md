# ffmpeg_flow: the stream supervisor, modelled in Dafny

ffmpeg_flow pulls a live video stream from a source url. It overlays zero or
more watermark images on the stream and republishes it as HLS playlists, one
FFmpeg worker per stream. Three components make up its core:

- **StorageManager** (`storage.py`): a JSON document that maps each stream uid
  to its binding `{url, water_mark, hls_url}`. Every call reloads the
  document, and every change rewrites it whole.
- **FFmpegProcessManager** (`stream_controller.py`): a reconciliation loop.
  - It sweeps stray FFmpeg processes whose command line names no known uid.
  - It then reads each binding's `status` and starts, stops or restarts the
    binding's worker.
  - A start tries up to five times to spawn the command built from the
    binding's watermark filter graph and HLS settings.
- **StreamController** (`stream_controller.py`): caches every binding's url,
  watermark mapping and watermark file digests. On each monitoring pass it
  marks a binding `restart` when any of the three has changed, and refreshes
  its caches.

The model has seven modules:

- `Common`: Option, decimal rendering, `sub in s`, `sep.join`, ASCII lower-case.
- `BindingView`: the binding document as the controller reads and writes it.
- `ArgGrammar`: FFmpeg's own reading of an argument list. This is an
  independent reference that the assembled command is compared with.
- `Command`: `_build_filter`, `_hls_output_args` and the command assembly.
- `Supervisor`: FFmpegProcessManager.
- `ChangeDetector`: StreamController.
- `Storage`: StorageManager.

The operating system is reached through parameters, not calls:

- **Popen**: what each successive `subprocess.Popen` attempt does for a
  binding, either the new pid or a raise.
- **poll()**: the set of pids that have not exited.
- **psutil**: the process table as `psutil.process_iter` lists it.
- **`_file_md5`**: a map from each existing path to its digest.
- **`uuid4()`**: the uid `set_binding` generates.
- **`check_device`**: whether an NVENC encoder is present (`hasGpu`).

What the model shows about the system:

- **The filter graph is well formed.**
  - Every label it reads is defined earlier, and no label is defined twice.
  - Only the mapped final label is left over.
  - Split at `;`, the graph reads back as its chains.
- **FFmpeg reads the assembled command as intended.**
  - The stream is input 0 and the watermarks are inputs 1..n, in order.
  - The composite goes to `hls_wm` and the plain video to `hls_no_wm`.
  - Both outputs get exactly the encoder settings.
- **The tick's status machine.**
  - A tick changes a status exactly when it acts on it.
  - A stopped binding stays stopped.
  - A binding whose worker cannot be spawned flaps between `started` and
    `need_restart`.
  - A tick's outcome does not depend on the order of the bindings.
- **The change detector.**
  - Right after start-up, or after a pass, with nothing changed, no binding
    is flagged.
  - Reordering the watermarks does not flag a binding.
  - The `restart` status it writes is one the process manager never acts on,
    so a detected change never restarts a worker.

## Model

| member | source | states |
|---|---|---|
| Common.NatToString | stream_controller.py:194-196 | `str(i)` is a non-empty run of decimal digits, one digit exactly for i < 10 |
| Common.NatToStringInjective | stream_controller.py:194-196 | different indices render to different digits, so the labels `[wm{i}]`, `[v{i}]` are distinct per watermark |
| Common.LowerAscii | stream_controller.py:101 | `name.lower()` keeps the length and lower-cases exactly the ASCII capitals |
| Common.JoinContainsPart | stream_controller.py:97-102 | a uid found in one argument is found in the space-joined command line |
| BindingView.Paths | stream_controller.py:123-124 | `list(watermarks.values())`: one path per watermark, in insertion order |
| BindingView.WithStatus | stream_controller.py:61-80 | the assumed effect of `update_status`: only that binding's status changes, and an unknown uid changes nothing |
| BindingView.WithStatusOverwrites | stream_controller.py:61-63 | writing `starting` then `started` is writing `started` once |
| BindingView.BindingStore.UpdateStatus | stream_controller.py:61 | the store becomes WithStatus of the old store |
| BindingView.BindingStore.constructor | stream_controller.py:30 | the store the supervisor and the controller share holds exactly the document it is given |
| ArgGrammar.RunAppend | stream_controller.py:128-145 | FFmpeg's reading of a concatenated argument list is the reading of one part after the other |
| ArgGrammar.RunFileOptions | stream_controller.py:136-139 | a run of file options is held back, in order, for the next file named |
| ArgGrammar.RunOutput | stream_controller.py:143-144 | file options followed by a playlist form one output file carrying those options |
| ArgGrammar.RunGlobal | stream_controller.py:128-135 | `-loglevel` and `-filter_complex` become global settings with their values |
| ArgGrammar.RunInput | stream_controller.py:128-130 | `-i X` opens one input file X |
| ArgGrammar.FileOptionRunAppend | stream_controller.py:210-221 | joining two option runs keeps an option run whose pairs are those of the parts in order |
| Command.BuildFilter | stream_controller.py:189-199 | the loop returns the graph for the n watermarks and the final label `[v{n-1}]`, or `("", "[0:v]")` when there are none |
| Command.FilterGraphEnds | stream_controller.py:197-199 | with no watermark the graph is empty and the label `[0:v]`; otherwise the graph ends with a label, never with `;` |
| Command.FilterGraphReadsBack | stream_controller.py:193-198 | split at `;`, the graph gives back exactly the 2n chains in order, because no chain contains `;` |
| Command.SplitJoin | stream_controller.py:197-198 | joining pieces free of the separator and splitting again gives back the pieces |
| Command.TerminatedIsJoinThenSep | stream_controller.py:193-198 | the accumulated text before stripping is the `;`-join of the chains followed by `;` |
| Command.ChainsAt | stream_controller.py:193-196 | chain 2i scales watermark i from input i+1 into `[wm{i}]`, and chain 2i+1 overlays it on the running composite into `[v{i}]` |
| Command.FilterGraphWellFormed | stream_controller.py:189-199 | no label is defined twice; every label read is an input stream or an earlier chain's output; every intermediate label is read later; the final label is the last output and is read by no chain |
| Command.OutputsDistinct | stream_controller.py:194-196 | two chains never define the same label |
| Command.InputDefinedEarlier | stream_controller.py:194-196 | every label a chain reads is `[m:v]` for an input m, or the output of an earlier chain |
| Command.OutputConsumedLater | stream_controller.py:194-196 | every chain output but the last is read by a later chain |
| Command.FinalLabelUnused | stream_controller.py:196-199 | the returned final label is read by no chain of the graph |
| Command.LabelKinds | stream_controller.py:192-196 | stream, scaled and overlay labels are told apart by their second character |
| Command.ScaledLabelInjective | stream_controller.py:194 | `[wm{i}]` determines i |
| Command.OverlayLabelInjective | stream_controller.py:195-196 | `[v{i}]` determines i |
| Command.HlsOutputArgsShape | stream_controller.py:205-222 | 25 arguments ending with the playlist; NVENC on a GPU and x264 otherwise; everything after the codec settings is the same for every playlist and either encoder |
| Command.HlsOutputArgs | stream_controller.py:205-222 | `_hls_output_args`: the NVENC or x264 settings, then the nine shared rate, bitrate, audio and HLS settings, then the playlist; HlsOutputArgsShape and HlsOutputArgsRead state its shape and how FFmpeg reads it |
| Command.HlsOutputArgsRead | stream_controller.py:205-221 | read as FFmpeg reads them, the arguments before the playlist are twelve output options carrying exactly the encoder settings |
| Command.InputArgs | stream_controller.py:129-130 | one `-i path` pair per watermark path, in order |
| Command.AssembleCommand | stream_controller.py:128-145 | the accumulated `cmd` is the program, the log level, the stream and watermark inputs, then the outputs (the filter graph and composite output only when there are watermarks) |
| Command.ReadCommandLine | stream_controller.py:128-145 | FFmpeg reads the command as: log level `error` (plus the graph when there are watermarks); input 0 the stream and inputs 1..n the watermarks, without options; the composite output mapped from the final label to `hls_wm`; the plain output mapped from `0:v` to `hls_no_wm`; both with the encoder settings and nothing left pending |
| Command.CommandLine | stream_controller.py:128-145 | the argument list `_start_ffmpeg` spawns: program, log level, source url, one input per watermark path, then the outputs; ReadCommandLine states how FFmpeg reads it and CommandLineEnds that it ends with the plain playlist |
| Command.ReadOutputArgs | stream_controller.py:132-145 | the output part reads as one or two output files with their maps and encoder settings |
| Command.CommandLineEnds | stream_controller.py:139-144 | the plain playlist is always the last argument |
| Supervisor.KillUnknownFfmpeg | stream_controller.py:91-105 | the terminated pids are the orphans, in process-table order |
| Supervisor.OrphansExactly | stream_controller.py:96-105 | a pid is terminated iff some process with it has a non-empty name containing "ffmpeg" (ignoring case) and a command line that names no known uid |
| Supervisor.CmdlineText | stream_controller.py:97 | the command line as one string: the arguments joined by spaces, or "" when psutil gives none |
| Supervisor.IsOrphan | stream_controller.py:98-102 | a process is terminated when its name is non-empty, contains "ffmpeg" ignoring ASCII case, and its command line contains no known uid |
| Supervisor.Orphans | stream_controller.py:96-105 | the pids terminated, in process-table order; OrphansExactly states which pids these are and KillUnknownFfmpeg computes them |
| Supervisor.TrackedWorkerSpared | stream_controller.py:97-102 | a process one of whose arguments contains a known uid is never terminated |
| Supervisor.FirstSpawn | stream_controller.py:120-160 | the first successful attempt in the range and its pid; None iff every attempt in it raises |
| Supervisor.Launch | stream_controller.py:119-163 | a worker on attempt 1..5 running exactly the binding's command, on the first attempt Popen succeeds; None iff the command has a None argument (a missing url or playlist) or all five attempts raise |
| Supervisor.LaunchOn | stream_controller.py:147-156 | the first successful attempt is the one kept |
| Supervisor.BuildCommand | stream_controller.py:122-145 | the argument list built from the binding's url, watermarks and playlists |
| Supervisor.SpawnWorker | stream_controller.py:120-160 | the retry loop returns exactly Launch: the first successful attempt's worker, or None after five failures |
| Supervisor.LaunchedWorkerSpared | stream_controller.py:97-144 | a started worker survives the sweep when its plain playlist's path mentions its uid |
| Supervisor.NextStatusSettles | stream_controller.py:57-80 | a tick changes a status exactly when it dispatches on it, and leaves only `started`, `stopped` or `need_restart` behind |
| Supervisor.NextStatus | stream_controller.py:57-80 | the status a tick leaves: `need_start`, `restarting` and `need_restart` become `started`, `need_stop` becomes `stopped`, `started` with a dead worker becomes `need_restart`, anything else is kept; NextStatusSettles and StepStatuses state its properties |
| Supervisor.NextProcess | stream_controller.py:57-80 | the worker a tick leaves registered: the launched one (or the old one when no attempt succeeds) on a start, none on a stop, the launched one or none on a restart, the current one otherwise; StepProcesses and FailedStartFlaps state its properties |
| Supervisor.Assign | stream_controller.py:153-170 | the registry entry for the uid becomes the given one (or is removed); all other entries are unchanged |
| Supervisor.AssignAfterRemove | stream_controller.py:72-73 | setting the uid's registry entry after removing it is the same as setting it directly, so the restart's stop-then-start leaves the launched worker or none |
| Supervisor.ProcessManager.constructor | stream_controller.py:29-34 | the registry starts empty |
| Supervisor.ProcessManager.Gpu | stream_controller.py:136-144 | NVENC is used exactly when the manager was asked for it and a GPU was detected (`use_gpu and has_gpu`) |
| Supervisor.ProcessManager.StartFfmpeg | stream_controller.py:119-163 | on success the worker is registered and the store unchanged; after five failures the registry is unchanged and the binding marked `need_restart` |
| Supervisor.ProcessManager.StopFfmpeg | stream_controller.py:168-174 | the uid's worker leaves the registry and is the one signalled; an unknown uid changes nothing |
| Supervisor.ProcessManager.BeginStream | stream_controller.py:60-63 | the binding ends `started`, and its worker is the new one, or the old one when no attempt succeeds |
| Supervisor.ProcessManager.EndStream | stream_controller.py:65-68 | the binding ends `stopped` with no worker registered |
| Supervisor.ProcessManager.RestartStream | stream_controller.py:70-74 | the binding ends `started`, and its worker is the new one, or none when no attempt succeeds |
| Supervisor.ProcessManager.Dispatch | stream_controller.py:58-80 | one binding's status and registry entry after its step, from its status and whether its worker still runs |
| Supervisor.ProcessManager.Tick | stream_controller.py:52-80 | the orphans of the snapshot's uids are terminated; every binding of the snapshot is dispatched, independently of iteration order |
| Supervisor.StepStatuses | stream_controller.py:57-80 | dispatching one more binding changes only its own status |
| Supervisor.StepProcesses | stream_controller.py:57-80 | dispatching one more binding changes only its own registry entry |
| Supervisor.FailedStartFlaps | stream_controller.py:60-163 | a binding whose worker cannot be spawned reads `started` with no worker after one tick, and `need_restart` after the next |
| Supervisor.StopIsFinal | stream_controller.py:65-68 | a binding asked to stop ends `stopped` with no worker, and the next tick changes neither |
| Supervisor.UndispatchedUntouched | stream_controller.py:57-80 | a binding whose status the tick does not act on keeps its entry and its worker |
| ChangeDetector.ToMapKeys | stream_controller.py:243-244 | `dict(watermarks)` has exactly the listed ids |
| ChangeDetector.ToMapAt | stream_controller.py:243-244 | with unique ids, each id maps to its own path |
| ChangeDetector.ReorderedSameMap | stream_controller.py:285 | the same watermarks in another order give the same mapping |
| ChangeDetector.ReorderedNotFlagged | stream_controller.py:284-292 | listing the same watermarks in another order does not change whether a binding is flagged |
| ChangeDetector.FingerprintsAt | stream_controller.py:245 | each watermark id maps to the digest of its own file, or None when the file is missing |
| ChangeDetector.Fingerprint | stream_controller.py:267-272 | `_file_md5`: the digest of an existing file, None for a missing one; the `files` map stands for the file system and MD5 |
| ChangeDetector.CurrentNotFlagged | stream_controller.py:284-292 | caches that hold exactly the binding's url, mapping and digests do not flag it |
| ChangeDetector.RefreshClearsFlag | stream_controller.py:294-299 | right after its caches are rewritten, with the files unchanged, a binding is not flagged |
| ChangeDetector.UncachedAlwaysFlagged | stream_controller.py:280-285 | a binding with no cached mapping is always flagged |
| ChangeDetector.Flagged | stream_controller.py:284-292 | a binding is flagged when its url or watermark mapping differs from the cache, or some watermark file's digest differs from the cached one; CurrentNotFlagged, UncachedAlwaysFlagged and ReorderedNotFlagged state its properties |
| ChangeDetector.Refresh | stream_controller.py:297-299 | the binding's three cache entries rewritten from its current mapping, digests and url, all other entries kept; RefreshClearsFlag states that it clears the flag |
| ChangeDetector.InitialStep | stream_controller.py:242-246 | going through one more binding at start-up rewrites only its cache entries |
| ChangeDetector.InitialCachesQuiet | stream_controller.py:241-292 | straight after start-up, with the files unchanged, no binding is flagged |
| ChangeDetector.StreamController.constructor | stream_controller.py:228-246 | the caches hold, for every binding, its mapping, its watermark digests and its url |
| ChangeDetector.StreamController.WatermarksDrifted | stream_controller.py:288-292 | the loop with `break` reports a change iff some watermark file's digest differs from the one cached for its id |
| ChangeDetector.StreamController.Examine | stream_controller.py:278-299 | a binding is flagged iff its url or mapping differs from the cached one or a digest drifted; a flagged binding is marked `restart` and its caches rewritten; otherwise nothing changes |
| ChangeDetector.StreamController.MonitorPass | stream_controller.py:277-299 | after one pass, exactly the flagged bindings are marked `restart` and have their caches rewritten; the others keep both |
| ChangeDetector.UnflaggedKept | stream_controller.py:294 | a binding not flagged keeps its cache entries |
| ChangeDetector.FlaggedRefreshed | stream_controller.py:297-299 | a flagged binding's caches hold its current mapping, digests and url |
| ChangeDetector.StepFlagged | stream_controller.py:277-292 | examining one more binding flags it or not, and no other |
| ChangeDetector.RefreshFlagged | stream_controller.py:297-299 | flagging one more binding rewrites only its own cache entries |
| ChangeDetector.MarkFlagged | stream_controller.py:296 | flagging one more binding marks only its own status |
| ChangeDetector.SecondPassQuiet | stream_controller.py:277-299 | with the urls, watermarks and files unchanged, a second pass flags nothing |
| ChangeDetector.DetectedChangeIgnored | stream_controller.py:57-80 | a flagged binding is marked `restart`, which the next tick does not act on: its entry and its worker are left as they were |
| Storage.Load | storage.py:36-41 | a document that is not valid JSON reads as the empty mapping |
| Storage.StoredWatermarks | storage.py:62-63 | a list is stored as given; any other value as a one-element list holding it |
| Storage.HlsUrlInjective | storage.py:66 | distinct uids get distinct playlists in the same directory |
| Storage.Info | storage.py:89-91 | the entry for a known uid, None otherwise |
| Storage.Url | storage.py:93-95 | the stored url, or None for an unknown uid |
| Storage.Watermarks | storage.py:97-99 | the stored list, or the empty list for an unknown uid |
| Storage.HlsUrlOf | storage.py:101-103 | the stored playlist, or None for an unknown uid |
| Storage.StorageManager.GetInfo | storage.py:89-91 | `get_info` reloads the document: the entry of a known uid, None otherwise, and None for every uid when the file is not valid JSON (Info and Load) |
| Storage.StorageManager.GetUrl | storage.py:93-95 | `get_url` on the reloaded document (Url) |
| Storage.StorageManager.GetWatermarks | storage.py:97-99 | `get_watermarks` on the reloaded document (Watermarks) |
| Storage.StorageManager.GetHlsUrl | storage.py:101-103 | `get_hls_url` on the reloaded document (HlsUrlOf) |
| Storage.StorageManager.ListBindings | storage.py:105-106 | `list_bindings`: the whole reloaded document, empty when the file is not valid JSON (Load); SetThenGet and RemoveThenGet state what it returns after each write |
| Storage.SetThenGet | storage.py:53-103 | after `set_binding`, every getter returns exactly what was written |
| Storage.SetLeavesOthers | storage.py:65-73 | `set_binding` leaves every other uid's entry as it was |
| Storage.SetIdempotent | storage.py:53-75 | writing the same binding twice is writing it once |
| Storage.RemoveUndoesSet | storage.py:80-84 | removing a binding just added for a new uid restores the mapping |
| Storage.RemoveThenGet | storage.py:80-103 | after `remove_binding` the getters answer as for an unknown uid, and other entries are unchanged |
| Storage.PlaylistsDistinct | storage.py:66-103 | two bindings written to the same directory never share a playlist |
| Storage.StorageManager.constructor | storage.py:16-31 | a missing file starts as the empty mapping; an existing one is kept |
| Storage.StorageManager.SetBinding | storage.py:53-75 | returns the given uid, or the generated one when none is given; that entry is replaced whole by the url, the stored watermarks and the playlist `{dir}/{uid}.m3u8`, and the rest of the mapping is kept |
| Storage.StorageManager.RemoveBinding | storage.py:80-84 | a known uid leaves the mapping; otherwise the file is untouched |

## Left out

- Threads and timing are not modelled. This covers the `_auto_manager_loop`
  and `monitor_watermarks` threads, `time.sleep`, the intervals and the
  daemon flags. One pass of each loop is modelled; the two loops running at
  once against the same file are not. The lost update between one component's
  read and the other's rewrite is therefore not modelled.
- `log` as shipped (utils/utils.py:12) takes only a level and a message, with
  no `log_path`. So every `log(..., log_path=...)` call in stream_controller.py
  raises TypeError. The model assumes a `log` that accepts `log_path` and
  returns. As written, the consequences would be:
  - `_start_ffmpeg` raises at its first logged success or failure, so it never
    retries;
  - `_kill_unknown_ffmpeg` stops after its first kill;
  - the tick's own error handler (stream_controller.py:85) raises again and
    ends the manager thread;
  - `monitor_watermarks` ends at its first detected change, before
    `update_status`.
- The log output itself, the log directories and `_capture_stderr`
  (stream_controller.py:179-184) only write log lines and change no state.
- A watermark whose path is JSON null is not modelled. `WatermarkMap` holds
  string paths. In the source, such a path reaches Popen as `["-i", None]`,
  so every attempt raises, as for any failed start. The tick then leaves the
  binding `started` with no worker, and the next tick marks it
  `need_restart` (FailedStartFlaps). The digest of a null path in
  `_file_md5` is not modelled either.
- `init_ffmpeg` and `FFMPEG_PATH` are a parameter (`ffmpeg`). `check_device`
  (stream_controller.py:256-265) runs a subprocess; its result is the
  `hasGpu` input.
- The StreamController constructor starts a FFmpegProcessManager
  (stream_controller.py:249-254). The model builds the two separately and
  lets them share one store.
- The `except Exception` around a whole tick is not modelled: a tick that
  raises part way is not modelled.
- psutil's NoSuchProcess and AccessDenied for one process are not modelled.
  A process with an unreadable name or command line is modelled by `None`
  fields.
- `os.kill` raising in `_stop_ffmpeg` is not modelled. The signal is the
  returned handle, and the worker has left the registry before it is sent.
- `update_status` is not defined in storage.py. Its contract (`WithStatus`)
  is an assumption: only the status of a known binding changes.
- The two sides use different schemas, so they are modelled as two record
  types. `Storage.Binding` is what storage.py writes: `water_mark` as a list,
  plus `hls_url`. `BindingView.StreamInfo` is what stream_controller.py reads:
  `water_mark` as a mapping, plus `hls_wm` and `hls_no_wm`, which storage.py
  never writes.
- Supervisor.SpawnWorker: the command is built only on the attempt whose
  Popen succeeds. The source builds it on every attempt, but building has no
  effect, so the result is the same.
- A command whose `url`, `hls_no_wm` or `hls_wm` (with watermarks) is None
  makes Popen raise on every attempt. The model treats it so (`Launchable`).
  The other errors Popen can raise are covered by the `Outcomes` input.
- `if info` in the getters treats an empty entry as missing. A stored entry
  always has its three fields, so the model does not separate them. A
  hand-edited entry that lacks a field (KeyError) is not modelled.
- Storage.Load: only invalid JSON reads as the empty mapping, as `_load`
  catches only `json.JSONDecodeError` (storage.py:38-40). A file that is not
  valid text in the locale encoding (UnicodeDecodeError), and a file deleted
  after the constructor (FileNotFoundError), make `_load` raise; neither is
  modelled.
- `json.load` returning something other than an object is not modelled. The
  lazy directory creation in `_ensure_file`, and the `hls_output_dir`
  creation, are not modelled either.
- Common.LowerAscii: `str.lower()` is modelled on ASCII letters only. Other
  Unicode case mappings are not modelled.
- `_file_md5` reads the files twice during a flagged pass, once to compare
  and once to refresh. The model reads one snapshot of the files for the
  whole pass, so a file that changes between the two reads is not modelled.
- MD5 itself is not modelled. A file's digest is whatever the `files` map
  holds.
