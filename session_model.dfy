/**
 * The session-rotation controller of RotatedBuffersSessionWriter.kt as a state machine on
 * values.  One `State` holds the controller's own fields and the part of each collaborator
 * it drives: the work handler (started, pending rotations), the buffer ring (cursor), the
 * video recorder, the native engine (telemetry saving, the two clip lists), the telemetry
 * image saver and the listener (the events it has received).  `trace` records the calls
 * the controller makes on its collaborators, in order, so that ordering rules can be stated.
 *
 * The class in session_writer.dfy implements these functions; the lemmas here state what
 * they guarantee.
 */
module SessionModel {
  import opened Optional
  import opened VideoCombining
  import CacheDirs

  /** `SESSION_LENGTH_MILLIS`: five minutes. */
  const SessionLengthMillis: nat := 5 * 60 * 1000

  /** One call the controller makes on a collaborator. */
  datatype Call =
    | HandlerStart | HandlerStop
    | StartRecording(path: string)
    | StartTelemetrySaving(dir: string)
    | StartImageSaving(dir: string)
    | PostRotation(delayMillis: nat)
    | StopRecording | StopTelemetrySaving | StopImageSaving
    | GetClips | ResetClips | GetClipsPro | ResetClipsPro
    | SessionStop(videoPath: string)
    | RotateBuffers

  /** The arguments of one `onSessionStop` call. */
  datatype Event<T, V> = Event(clips: VideoCombined<T, V>, videoPath: string,
                               cachedTelemetryPath: string, coreSessionStartMillis: int)

  /**
   * What the controller is constructed with: the paths of the buffer ring (`getBuffer()`
   * returns `slots[cursor]`), the root cache directory, the file system's resolution of a
   * path to an absolute directory, and the two per-element clip mappers.
   */
  datatype Env<-C, -P, T, V> = Env(slots: seq<string>, rootCacheDir: string,
                                 absoluteDir: string -> string,
                                 toTelemetry: C -> T, toPro: P -> V)

  predicate ValidEnv<C, P, T, V>(env: Env<C, P, T, V>) {
    |env.slots| >= 1
  }

  datatype State<C, P, T, V> = State(
    started: bool,                  // workingHandler.isStarted()
    pending: nat,                   // rotations posted to the handler and not yet run
    cursor: nat,                    // the buffer ring's current slot
    recording: Option<string>,      // the path the video recorder writes, if recording
    telemetryDir: Option<string>,   // the engine's telemetry-saving directory, if saving
    imageDir: Option<string>,       // the image saver's directory, if started
    clips: seq<C>,                  // the engine's accumulated standard clips
    clipsPro: seq<P>,               // the engine's accumulated pro clips
    sessionCacheDir: string,        // field sessionCacheDir
    coreSessionStartMillis: int,    // field coreSessionStartMillis
    events: seq<Event<T, V>>,       // every onSessionStop the listener received
    trace: seq<Call>)

  /**
   * The slot after `cursor` in a ring of `k` slots: the next one, or the first after the
   * last.  (`RotatedBuffers.rotate()`; its implementation is not part of this model.)
   */
  function NextSlot(cursor: nat, k: nat): (next: nat)
    requires cursor < k
    ensures next < k
    ensures k > 1 ==> next != cursor
  {
    if cursor + 1 == k then 0 else cursor + 1
  }

  /** The controller right after construction, over an engine holding `clips` and `clipsPro`. */
  function Init<C, P, T, V>(cursor: nat, clips: seq<C>, clipsPro: seq<P>): State<C, P, T, V>
  {
    State(false, 0, cursor, None, None, None, clips, clipsPro, "", 0, [], [])
  }

  /**
   * The controller's invariant: the buffer cursor is a slot of the ring; when started,
   * exactly one rotation is pending and all three writers are running, the recorder into
   * the current slot and both savers into the session's cache directory; when not
   * started, nothing is pending and every writer is stopped.
   */
  predicate Inv<C, P, T, V>(env: Env<C, P, T, V>, s: State<C, P, T, V>) {
    s.cursor < |env.slots| &&
    (s.started ==>
       s.pending == 1 && s.recording == Some(env.slots[s.cursor]) &&
       s.telemetryDir == Some(s.sessionCacheDir) && s.imageDir == Some(s.sessionCacheDir)) &&
    (!s.started ==>
       s.pending == 0 && s.recording == None && s.telemetryDir == None && s.imageDir == None)
  }

  /**
   * `startSession()`: name the cache directory after the wall clock, start the recorder into
   * the current buffer, start both savers into the directory, take the engine's time (in
   * whole seconds) as the session start, and post one rotation after SESSION_LENGTH_MILLIS.
   */
  function StartSession<C, P, T, V>(env: Env<C, P, T, V>, s: State<C, P, T, V>, nowMillis: nat, coreSeconds: int)
    : (r: State<C, P, T, V>)
    requires s.cursor < |env.slots|
    ensures r.recording == Some(env.slots[s.cursor])
    ensures r.telemetryDir == r.imageDir == Some(r.sessionCacheDir)
    ensures |r.sessionCacheDir| >= 1 && r.sessionCacheDir[|r.sessionCacheDir| - 1] == '/'
    ensures r.coreSessionStartMillis == coreSeconds * 1000
    ensures r.started == s.started && r.pending == s.pending + 1
    ensures r.cursor == s.cursor && r.events == s.events && r.clips == s.clips && r.clipsPro == s.clipsPro
  {
    var dir := CacheDirs.CacheDir(env.rootCacheDir, env.absoluteDir, nowMillis);
    var path := env.slots[s.cursor];
    s.(sessionCacheDir := dir,
       recording := Some(path),
       telemetryDir := Some(dir),
       imageDir := Some(dir),
       coreSessionStartMillis := coreSeconds * 1000,
       pending := s.pending + 1,
       trace := s.trace + [StartRecording(path), StartTelemetrySaving(dir), StartImageSaving(dir),
                           PostRotation(SessionLengthMillis)])
  }

  /** The calls `stopSession()` makes, in order, for a session recorded into `path`. */
  function StopCalls(path: string): seq<Call>
  {
    [StopRecording, StopTelemetrySaving, StopImageSaving, GetClips, ResetClips, GetClipsPro, ResetClipsPro,
     SessionStop(path), RotateBuffers]
  }

  /**
   * `stopSession()`: stop the three writers, read and reset both clip lists, emit one
   * event for the current buffer, then advance the ring.
   */
  function StopSession<C, P, T, V>(env: Env<C, P, T, V>, s: State<C, P, T, V>): (r: State<C, P, T, V>)
    requires s.cursor < |env.slots|
    ensures r.recording == None && r.telemetryDir == None && r.imageDir == None
    ensures r.clips == [] && r.clipsPro == []
    ensures |r.events| == |s.events| + 1 && r.events[..|s.events|] == s.events
    ensures r.events[|s.events|].videoPath == env.slots[s.cursor]
    ensures r.events[|s.events|].cachedTelemetryPath == s.sessionCacheDir
    ensures r.events[|s.events|].coreSessionStartMillis == s.coreSessionStartMillis
    ensures r.cursor < |env.slots| && (|env.slots| > 1 ==> r.cursor != s.cursor)
    ensures r.started == s.started && r.pending == s.pending
  {
    var path := env.slots[s.cursor];
    var event := Event(VideosToCombined(s.clips, s.clipsPro, env.toTelemetry, env.toPro),
                       path, s.sessionCacheDir, s.coreSessionStartMillis);
    s.(recording := None,
       telemetryDir := None,
       imageDir := None,
       clips := [],
       clipsPro := [],
       events := s.events + [event],
       cursor := NextSlot(s.cursor, |env.slots|),
       trace := s.trace + StopCalls(path))
  }

  /** `start()`: a no-op when the handler is started; otherwise start it and open a session. */
  function Start<C, P, T, V>(env: Env<C, P, T, V>, s: State<C, P, T, V>, nowMillis: nat, coreSeconds: int)
    : (r: State<C, P, T, V>)
    requires s.cursor < |env.slots|
    ensures r.started
    ensures !s.started ==> r.pending == s.pending + 1 && r.recording == Some(env.slots[s.cursor])
    ensures r.cursor == s.cursor && r.events == s.events
  {
    if s.started then s
    else StartSession(env, s.(started := true, trace := s.trace + [HandlerStart]), nowMillis, coreSeconds)
  }

  /**
   * `stop()`: a no-op when the handler is not started; otherwise stop the handler, which
   * drops every pending rotation, and then close the session.
   */
  function Stop<C, P, T, V>(env: Env<C, P, T, V>, s: State<C, P, T, V>): (r: State<C, P, T, V>)
    requires s.cursor < |env.slots|
    ensures !r.started
    ensures s.started ==> r.pending == 0 && r.recording == None && |r.events| == |s.events| + 1
  {
    if !s.started then s
    else StopSession(env, s.(started := false, pending := 0, trace := s.trace + [HandlerStop]))
  }

  /** The posted rotation runs: it is consumed, and its body is `stopSession(); startSession()`. */
  function Fire<C, P, T, V>(env: Env<C, P, T, V>, s: State<C, P, T, V>, nowMillis: nat, coreSeconds: int)
    : (r: State<C, P, T, V>)
    requires s.cursor < |env.slots|
    requires s.pending > 0
    ensures r.started == s.started && r.pending == s.pending
    ensures |r.events| == |s.events| + 1 && r.events[..|s.events|] == s.events
    ensures r.events[|s.events|].videoPath == env.slots[s.cursor]
    ensures r.cursor == NextSlot(s.cursor, |env.slots|) && r.recording == Some(env.slots[r.cursor])
    ensures r.clips == [] && r.clipsPro == []
  {
    StartSession(env, StopSession(env, s.(pending := s.pending - 1)), nowMillis, coreSeconds)
  }

  /** What can happen to the controller: its two public calls, the timer, and the engine producing clips. */
  datatype Op<C, P> =
    | StartOp(nowMillis: nat, coreSeconds: int)
    | StopOp
    | FireOp(nowMillis: nat, coreSeconds: int)
    | ClipOp(clip: C)
    | ClipProOp(clipPro: P)

  /** One step; the timer fires only when a rotation is pending (a stopped handler runs nothing). */
  function Step<C, P, T, V>(env: Env<C, P, T, V>, s: State<C, P, T, V>, op: Op<C, P>): (t: State<C, P, T, V>)
    requires s.cursor < |env.slots|
    ensures t.cursor < |env.slots|
  {
    match op
    case StartOp(now, core) => Start(env, s, now, core)
    case StopOp => Stop(env, s)
    case FireOp(now, core) => if s.pending > 0 then Fire(env, s, now, core) else s
    case ClipOp(c) => s.(clips := s.clips + [c])
    case ClipProOp(p) => s.(clipsPro := s.clipsPro + [p])
  }

  /** The state after a sequence of steps. */
  function Run<C, P, T, V>(env: Env<C, P, T, V>, s: State<C, P, T, V>, ops: seq<Op<C, P>>): (r: State<C, P, T, V>)
    requires s.cursor < |env.slots|
    ensures r.cursor < |env.slots|
    decreases |ops|
  {
    if ops == [] then s else Run(env, Step(env, s, ops[0]), ops[1..])
  }
}
