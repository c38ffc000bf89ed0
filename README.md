# Session rotation of the Mapbox Vision recorder, in Dafny

This project models `RotatedBuffersSessionWriter`, the controller that records the camera
and telemetry in five-minute sessions over a ring of storage buffers, and proves what it
guarantees.

The controller is idle or recording. `start()` starts its work handler and opens a
session. A session does four things in order:

- it names a telemetry cache directory after the wall clock;
- it starts the video recorder into the ring's current buffer;
- it starts the engine's telemetry saving and the image saver into that directory;
- it notes the engine's start time and posts one rotation five minutes ahead.

The rotation runs `stopSession()` and then `startSession()`. `stopSession()` stops the
three writers and reads and resets both clip lists of the engine. It then sends exactly one
`onSessionStop` to the listener and only after that rotates the buffer ring. `stop()`
stops the handler, which drops the pending rotation, and closes the session.

Files:

- `optional.dfy`: Kotlin's nullable values.
- `video_combined.dfy`: `videosToCombined`, a pure function.
- `cache_dir.dfy`: how a session's cache directory is named.
- `session_model.dfy`: the controller and the state it drives, as a state machine on
  values. `State` holds:
  - the handler's started flag and its count of pending rotations;
  - the ring's cursor;
  - the recorder and saver targets;
  - the engine's two clip lists;
  - the controller's two fields;
  - the listener's received events;
  - a trace of the calls made on the collaborators.
- `session_lemmas.dfy`: the properties of that state machine.
- `collaborators.dfy`: the collaborators as small classes. Each holds only the state the
  controller drives.
- `session_writer.dfy`: the class `RotatedBuffersSessionWriter`. Its methods make the
  source's calls in the source's order. Each is proved to end in exactly the state that
  the corresponding function of `session_model.dfy` gives. A client method runs the class
  on a ring of three buffers.

The wall-clock milliseconds and the engine's time in seconds are parameters of the calls
that read them. The file system's path resolution and the two clip mappers are given to
the class as functions. `NativeVisionManager.AddClip` and `AddClipPro` stand for the
engine finishing a clip; that is the engine's own activity.

## Model

| member | source | states |
|---|---|---|
| VideoCombining.MapAll | MapboxVision/src/main/java/com/mapbox/vision/session/RotatedBuffersSessionWriter.kt:85-86 | `Array.map`: one output per input, of equal length, the i-th output the mapper applied to the i-th input |
| VideoCombining.NullIfEmpty | MapboxVision/src/main/java/com/mapbox/vision/session/RotatedBuffersSessionWriter.kt:85-86 | `ifEmpty { null }`: absent exactly when the array is empty, otherwise the array itself |
| VideoCombining.VideosToCombined | MapboxVision/src/main/java/com/mapbox/vision/session/RotatedBuffersSessionWriter.kt:83-87 | each array is converted on its own: absent if and only if it is empty, otherwise the same length and order with every element mapped |
| CacheDirs.Decimal | MapboxVision/src/main/java/com/mapbox/vision/session/RotatedBuffersSessionWriter.kt:94 | `Long.toString()` of the time: non-empty, all digits, and starting with `0` only for the time 0, so there is no sign and no leading zero. `DecimalRoundTrip` reads it back |
| CacheDirs.JoinPath | MapboxVision/src/main/java/com/mapbox/vision/session/RotatedBuffersSessionWriter.kt:92-95 | `File(parent, child)`: the parent, then one `/`, then the child, with nothing else in between |
| CacheDirs.DecimalRoundTrip | MapboxVision/src/main/java/com/mapbox/vision/session/RotatedBuffersSessionWriter.kt:94 | the time's decimal string is non-empty, all digits, and reads back as the time |
| CacheDirs.DecimalInjective | MapboxVision/src/main/java/com/mapbox/vision/session/RotatedBuffersSessionWriter.kt:94 | different times give different directory names |
| CacheDirs.CacheDir | MapboxVision/src/main/java/com/mapbox/vision/session/RotatedBuffersSessionWriter.kt:89-96 | the session's cache directory is non-empty and ends with `/` |
| CacheDirs.DistinctTimesDistinctDirs | MapboxVision/src/main/java/com/mapbox/vision/session/RotatedBuffersSessionWriter.kt:89-96 | if path resolution keeps the root's differently named all-digit children apart, sessions started at different milliseconds get different cache directories |
| CacheDirs.AbsolutizeKeepsChildrenApart | MapboxVision/src/main/java/com/mapbox/vision/session/RotatedBuffersSessionWriter.kt:91-95 | a resolver that makes a relative path absolute by prefixing a working directory merges a relative path with its absolute form, yet meets that hypothesis for an absolute root |
| SessionModel.NextSlot | MapboxVision/src/main/java/com/mapbox/vision/session/RotatedBuffersSessionWriter.kt:80 | `rotate()` stays inside the ring and, with more than one slot, always moves |
| SessionModel.StartSession | MapboxVision/src/main/java/com/mapbox/vision/session/RotatedBuffersSessionWriter.kt:48-61 | `startSession()` records into the current buffer and points both savers at one cache directory, which ends with `/`. The start time is core seconds times 1000 and one more rotation is pending. Handler, ring, clips and events are untouched. `StartGuard` gives the exact calls |
| SessionModel.StopSession | MapboxVision/src/main/java/com/mapbox/vision/session/RotatedBuffersSessionWriter.kt:63-81 | `stopSession()` stops all three writers and empties both clip lists. It appends exactly one event, keeping the earlier ones. That event names the current buffer, the session's cache directory and its start time. The ring moves to a valid slot, and to a different one when there is more than one slot. Handler and pending count are untouched |
| SessionModel.Start | MapboxVision/src/main/java/com/mapbox/vision/session/RotatedBuffersSessionWriter.kt:34-39 | after `start()` the handler is started with the ring and the events untouched. From idle, one rotation becomes pending and the recorder records into the current buffer. `StartGuard` shows that a started writer is left unchanged |
| SessionModel.Stop | MapboxVision/src/main/java/com/mapbox/vision/session/RotatedBuffersSessionWriter.kt:41-46 | after `stop()` the handler is not started. From started, nothing is pending, the recorder is stopped and exactly one event is appended. `StopGuard` shows that an idle writer is left unchanged |
| SessionModel.Fire | MapboxVision/src/main/java/com/mapbox/vision/session/RotatedBuffersSessionWriter.kt:57-60 | the posted rotation keeps the handler state and the pending count. It appends exactly one event for the current buffer, keeping the earlier ones. The ring moves to `NextSlot`, recording restarts into the new current buffer, and both clip lists are empty |
| SessionModel.Step | MapboxVision/src/main/java/com/mapbox/vision/session/RotatedBuffersSessionWriter.kt:34-60 | every start, stop, rotation or engine clip keeps the cursor inside the ring |
| SessionModel.Run | MapboxVision/src/main/java/com/mapbox/vision/session/RotatedBuffersSessionWriter.kt:34-60 | any sequence of steps keeps the cursor inside the ring |
| SessionLemmas.StartGuard | MapboxVision/src/main/java/com/mapbox/vision/session/RotatedBuffersSessionWriter.kt:34-39 | `start()` on a started writer changes nothing. On an idle one it starts the handler and opens one session with one pending rotation. That session records into the current buffer and uses the cache directory of `nowMillis` and the start time of core seconds times 1000. Events, clips and cursor are untouched, and the calls are handler start, recorder, telemetry, images, post |
| SessionLemmas.StartTwiceIsStartOnce | MapboxVision/src/main/java/com/mapbox/vision/session/RotatedBuffersSessionWriter.kt:34-39 | two `start()` calls in a row have the effect of one |
| SessionLemmas.StopGuard | MapboxVision/src/main/java/com/mapbox/vision/session/RotatedBuffersSessionWriter.kt:41-46 | `stop()` on an idle writer changes nothing. On a started one it stops the handler first, leaving nothing pending. It then appends exactly one event, which holds the session's clips, the buffer recorded into, the cache directory and the start time. Both clip lists end empty, every writer is stopped and the ring advances once |
| SessionLemmas.StopTwiceIsStopOnce | MapboxVision/src/main/java/com/mapbox/vision/session/RotatedBuffersSessionWriter.kt:41-46 | two `stop()` calls in a row run one stop sequence |
| SessionLemmas.FireRotates | MapboxVision/src/main/java/com/mapbox/vision/session/RotatedBuffersSessionWriter.kt:57-60 | a rotation keeps the writer started with exactly one pending rotation. It appends exactly one event for the ended session and advances the ring once. It records into the new current buffer, with empty clip lists and the new directory and start time |
| SessionLemmas.StepKeepsInv | MapboxVision/src/main/java/com/mapbox/vision/session/RotatedBuffersSessionWriter.kt:34-81 | the invariant holds after every step. Started means one pending rotation and all three writers running, into the current buffer and the session directory. Idle means nothing pending and every writer stopped |
| SessionLemmas.WellOrderedAppend | MapboxVision/src/main/java/com/mapbox/vision/session/RotatedBuffersSessionWriter.kt:63-81 | the ordering rules survive the concatenation of two call sequences that each obey them |
| SessionLemmas.StopCallsWellOrdered | MapboxVision/src/main/java/com/mapbox/vision/session/RotatedBuffersSessionWriter.kt:63-81 | the calls of `stopSession()` obey the rules. Each clip read is followed at once by its reset. The clips are read only after the recorder, the telemetry saving and the image saver were stopped, and the pro clips only right after the standard clips were read and reset. The event follows the resets and is followed at once by the rotation |
| SessionLemmas.StepKeepsOrder | MapboxVision/src/main/java/com/mapbox/vision/session/RotatedBuffersSessionWriter.kt:34-81 | every step keeps the whole call trace obeying those rules, including that the ring rotates only right after an event |
| SessionLemmas.StepKeepsSlotDiscipline | MapboxVision/src/main/java/com/mapbox/vision/session/RotatedBuffersSessionWriter.kt:74-80 | a step that emits an event emits it for the current buffer, the one the session recorded into, and then advances the ring by one. Any other step leaves the ring where it is |
| SessionLemmas.RunKeeps | MapboxVision/src/main/java/com/mapbox/vision/session/RotatedBuffersSessionWriter.kt:34-81 | any run keeps the invariant, the ordering rules and the slot discipline, and only appends events |
| SessionLemmas.SessionsCycleThroughSlots | MapboxVision/src/main/java/com/mapbox/vision/session/RotatedBuffersSessionWriter.kt:74-80 | from a ring at slot 0, the n-th event names slot n mod K, and the session in progress records into slot (number of events) mod K |
| SessionLemmas.ConsecutiveSessionsUseDifferentSlots | MapboxVision/src/main/java/com/mapbox/vision/session/RotatedBuffersSessionWriter.kt:74-80 | with more than one distinct buffer, two consecutive sessions never use the same buffer |
| SessionLemmas.IdleUntilStarted | MapboxVision/src/main/java/com/mapbox/vision/session/RotatedBuffersSessionWriter.kt:41-46 | after `stop()`, until the next `start()`, no rotation runs, no event is emitted and the ring does not move |
| SessionLemmas.EngineOnlyRun | MapboxVision/src/main/java/com/mapbox/vision/session/RotatedBuffersSessionWriter.kt:68-72 | while only the engine acts, the clip lists grow by exactly the clips it produced and nothing else changes |
| SessionLemmas.SessionEventCarriesItsStart | MapboxVision/src/main/java/com/mapbox/vision/session/RotatedBuffersSessionWriter.kt:74-79 | a session opened by `start()` or a rotation and closed by `stop()` or a rotation, with only the engine acting in between, emits exactly one event. The event holds the buffer it recorded into, its opening's cache directory (ending in `/`) and core seconds times 1000, and exactly the clips accumulated up to the close. Both lists are empty afterwards |
| SessionLemmas.PoolOfThreeScenario | MapboxVision/src/main/java/com/mapbox/vision/session/RotatedBuffersSessionWriter.kt:48-81 | ring of three: start, two rotations, stop, start. The events name slots 0, 1, 2, the cache directories of times 0, 5 and 10 minutes, and start times 0, 300000 and 600000. The stop leaves nothing started or pending, and the last start records into slot 0 |
| Collaborators.RotatedBuffers.GetBuffer | MapboxVision/src/main/java/com/mapbox/vision/session/RotatedBuffersSessionWriter.kt:50 | `getBuffer()` returns the current slot's path |
| Collaborators.RotatedBuffers.Rotate | MapboxVision/src/main/java/com/mapbox/vision/session/RotatedBuffersSessionWriter.kt:80 | `rotate()` moves the cursor to the next slot, wrapping after the last |
| Collaborators.VideoRecorder.StartRecording | MapboxVision/src/main/java/com/mapbox/vision/session/RotatedBuffersSessionWriter.kt:50 | the recorder records into the given path |
| Collaborators.VideoRecorder.StopRecording | MapboxVision/src/main/java/com/mapbox/vision/session/RotatedBuffersSessionWriter.kt:64 | the recorder stops |
| Collaborators.NativeVisionManager.StartTelemetrySavingSession | MapboxVision/src/main/java/com/mapbox/vision/session/RotatedBuffersSessionWriter.kt:51 | telemetry is saved into the given directory; clips untouched |
| Collaborators.NativeVisionManager.StopTelemetrySavingSession | MapboxVision/src/main/java/com/mapbox/vision/session/RotatedBuffersSessionWriter.kt:65 | telemetry saving stops; clips untouched |
| Collaborators.NativeVisionManager.GetClips | MapboxVision/src/main/java/com/mapbox/vision/session/RotatedBuffersSessionWriter.kt:68 | returns the accumulated standard clips |
| Collaborators.NativeVisionManager.ResetClips | MapboxVision/src/main/java/com/mapbox/vision/session/RotatedBuffersSessionWriter.kt:69 | empties the standard clips and nothing else |
| Collaborators.NativeVisionManager.GetClipsPro | MapboxVision/src/main/java/com/mapbox/vision/session/RotatedBuffersSessionWriter.kt:71 | returns the accumulated pro clips |
| Collaborators.NativeVisionManager.ResetClipsPro | MapboxVision/src/main/java/com/mapbox/vision/session/RotatedBuffersSessionWriter.kt:72 | empties the pro clips and nothing else |
| Collaborators.TelemetryImageSaver.Start | MapboxVision/src/main/java/com/mapbox/vision/session/RotatedBuffersSessionWriter.kt:52 | images are saved into the given directory |
| Collaborators.TelemetryImageSaver.Stop | MapboxVision/src/main/java/com/mapbox/vision/session/RotatedBuffersSessionWriter.kt:66 | image saving stops |
| Collaborators.WorkThreadHandler.IsStarted | MapboxVision/src/main/java/com/mapbox/vision/session/RotatedBuffersSessionWriter.kt:35 | reports whether the handler is started |
| Collaborators.WorkThreadHandler.Start | MapboxVision/src/main/java/com/mapbox/vision/session/RotatedBuffersSessionWriter.kt:36 | the handler is started; posted actions unchanged |
| Collaborators.WorkThreadHandler.Stop | MapboxVision/src/main/java/com/mapbox/vision/session/RotatedBuffersSessionWriter.kt:43 | the handler is stopped and every posted action is dropped |
| Collaborators.WorkThreadHandler.PostDelayed | MapboxVision/src/main/java/com/mapbox/vision/session/RotatedBuffersSessionWriter.kt:57-60 | exactly one more action is pending |
| Collaborators.WorkThreadHandler.RunPosted | MapboxVision/src/main/java/com/mapbox/vision/session/RotatedBuffersSessionWriter.kt:57-60 | a posted action's delay elapses: it leaves the queue |
| Collaborators.SessionWriterListener.OnSessionStop | MapboxVision/src/main/java/com/mapbox/vision/session/RotatedBuffersSessionWriter.kt:74-79 | the listener has received exactly one more event, with the given arguments |
| SessionWriter.RotatedBuffersSessionWriter.constructor | MapboxVision/src/main/java/com/mapbox/vision/session/RotatedBuffersSessionWriter.kt:17-32 | a fresh stopped handler, empty cache directory, start time 0, and the invariant holding |
| SessionWriter.RotatedBuffersSessionWriter.Start | MapboxVision/src/main/java/com/mapbox/vision/session/RotatedBuffersSessionWriter.kt:34-39 | ends in the state `SessionModel.Start` gives and keeps the invariant |
| SessionWriter.RotatedBuffersSessionWriter.Stop | MapboxVision/src/main/java/com/mapbox/vision/session/RotatedBuffersSessionWriter.kt:41-46 | ends in the state `SessionModel.Stop` gives and keeps the invariant |
| SessionWriter.RotatedBuffersSessionWriter.StartSession | MapboxVision/src/main/java/com/mapbox/vision/session/RotatedBuffersSessionWriter.kt:48-61 | ends in the state `SessionModel.StartSession` gives, with the calls traced in source order |
| SessionWriter.RotatedBuffersSessionWriter.StopSession | MapboxVision/src/main/java/com/mapbox/vision/session/RotatedBuffersSessionWriter.kt:63-81 | ends in the state `SessionModel.StopSession` gives, with the calls traced in source order |
| SessionWriter.RotatedBuffersSessionWriter.Fire | MapboxVision/src/main/java/com/mapbox/vision/session/RotatedBuffersSessionWriter.kt:57-60 | the posted rotation ends in the state `SessionModel.Fire` gives and keeps the invariant |
| SessionWriter.RotatedBuffersSessionWriter.GenerateCacheDirForCurrentTime | MapboxVision/src/main/java/com/mapbox/vision/session/RotatedBuffersSessionWriter.kt:89-97 | `sessionCacheDir` becomes the cache directory of the given time, ending in `/` |
| SessionWriter.PoolOfThreeClient | MapboxVision/src/main/java/com/mapbox/vision/session/RotatedBuffersSessionWriter.kt:48-81 | the class on a ring of three: start, a clip, two rotations, stop, start. The events name buffers 0, 1, 2. Only the first carries the clip; the second and third report it absent. The handler is stopped after `stop()`, and the restart records into buffer 0 |

## Left out

- Threading: `WorkThreadHandler` runs the controller on a worker thread with real timers.
  Here the handler is a started flag plus a count of posted actions, and a rotation is the
  explicit step `Fire`. A `stop()` that races with a running rotation is therefore not
  modelled.
- The engine is native and produces clips on its own threads. Here clips only arrive
  between the controller's calls. A clip that arrived between `getClips()` and
  `resetClips()` would be lost in the source, and this model cannot show that.
- `VideoRecorder`, `NativeVisionManager` and `TelemetryImageSaverImpl`: video encoding,
  telemetry and image writing, and the engine are foreign code. They are modelled only as
  their on/off state and the two clip lists.
- `FileUtils.getAbsoluteDir` and `File(...).absolutePath`: the file system is not modelled.
  Path resolution is the function `absoluteDir`. `JoinPath` joins parent and child with
  `/`, without `java.io.File`'s normalisation.
- `System.currentTimeMillis()` and `getCoreTimeSeconds()`: clocks are parameters. The core
  time is taken as whole seconds, so the float-to-long truncation of `toLong()` is not
  modelled. The wall-clock time is a `nat`, so a negative `currentTimeMillis()`, whose
  `toString()` would start with `-`, is not modelled.
- `TimeUnit.SECONDS.toMillis` saturates at the 64-bit limits. Here the start time is
  unbounded seconds times 1000.
- `mapToTelemetry` and `mapToVisionPro` are foreign per-element mappers, given as
  functions.
- `RotatedBuffers`: its implementation is not part of this model. It is a ring of K ≥ 1
  paths whose `rotate()` moves to the next slot and wraps after the last.
- Errors: the code has no error handling, and the model has no exceptions. An exception
  in `startSession()` during `start()`, or in either call of the rotation, leaves the
  handler started with no rotation posted. Later `start()` calls are then no-ops and no
  rotation runs until `stop()`. An exception in `stopSession()` during `stop()` leaves the
  handler already stopped (the handler is stopped before `stopSession()` is called), with
  no event sent and the ring not rotated. Nothing unwinds a partially started session,
  and a stop does not carry on past a failing writer.
- `start()` and `stop()` run on the caller's thread, not the worker thread. The model
  takes each of them as one atomic step.
- Collaborators' initial state: the class's constructor requires that the recorder, the
  engine's telemetry saving and the image saver are idle when the writer receives them.
  It also assumes the writer is the only thing that drives them afterwards. The Kotlin
  constructor accepts them in any state, and the invariant and every result proved from
  `Init` rest on this assumption.
- Collaborators.WorkThreadHandler.PostDelayed: the model does not record the posted
  action or its delay, only that one more is pending. The delay appears in the trace as
  `PostRotation(SessionLengthMillis)`.
