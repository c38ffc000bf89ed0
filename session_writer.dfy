/**
 * `RotatedBuffersSessionWriter`: the session-rotation controller as a class.  Its methods
 * make the collaborators' calls in the source's order and are proved to implement the
 * state machine of session_model.dfy: each ends in exactly the state the corresponding
 * function gives, and start(), stop() and the rotation keep the controller's invariant.
 * The wall clock and the engine's clock are parameters of the calls that read them.
 */
module SessionWriter {
  import opened Optional
  import opened VideoCombining
  import CacheDirs
  import opened SessionModel
  import SessionLemmas
  import opened Collaborators

  class RotatedBuffersSessionWriter<C, P, T, V> {
    const nativeVisionManager: NativeVisionManager<C, P>
    const buffers: RotatedBuffers
    const rootCacheDir: string
    const videoRecorder: VideoRecorder
    const telemetryImageSaver: TelemetryImageSaver
    const sessionWriterListener: SessionWriterListener<T, V>
    const workingHandler: WorkThreadHandler
    /** `FileUtils.getAbsoluteDir(File(...).absolutePath)`, the file system's resolution of a path. */
    const absoluteDir: string -> string
    /** `mapToTelemetry` and `mapToVisionPro`. */
    const toTelemetry: C -> T
    const toPro: P -> V

    var sessionCacheDir: string
    var coreSessionStartMillis: int
    /** The calls made on the collaborators so far, in order. */
    ghost var trace: seq<Call>

    ghost function Config(): Env<C, P, T, V>
    {
      Env(buffers.slots, rootCacheDir, absoluteDir, toTelemetry, toPro)
    }

    /** The controller and its collaborators as one value of the state machine. */
    ghost function Abs(): State<C, P, T, V>
      reads this, workingHandler, buffers, videoRecorder, nativeVisionManager, telemetryImageSaver,
            sessionWriterListener
    {
      State(workingHandler.started, workingHandler.pending, buffers.cursor, videoRecorder.target,
            nativeVisionManager.savingDir, telemetryImageSaver.dir, nativeVisionManager.clips,
            nativeVisionManager.clipsPro, sessionCacheDir, coreSessionStartMillis,
            sessionWriterListener.events, trace)
    }

    ghost predicate Valid()
      reads this, workingHandler, buffers, videoRecorder, nativeVisionManager, telemetryImageSaver,
            sessionWriterListener
    {
      buffers.Valid() && Inv(Config(), Abs())
    }

    /** The writer owns a fresh, stopped handler; its other collaborators are given and idle. */
    constructor (nativeVisionManager: NativeVisionManager<C, P>, buffers: RotatedBuffers, rootCacheDir: string,
                 videoRecorder: VideoRecorder, telemetryImageSaver: TelemetryImageSaver,
                 sessionWriterListener: SessionWriterListener<T, V>,
                 absoluteDir: string -> string, toTelemetry: C -> T, toPro: P -> V)
      requires buffers.Valid()
      requires videoRecorder.target == None && nativeVisionManager.savingDir == None && telemetryImageSaver.dir == None
      ensures Valid() && fresh(workingHandler)
      ensures this.buffers == buffers && this.nativeVisionManager == nativeVisionManager
      ensures this.videoRecorder == videoRecorder && this.telemetryImageSaver == telemetryImageSaver
      ensures this.sessionWriterListener == sessionWriterListener
      ensures Config() == Env(buffers.slots, rootCacheDir, absoluteDir, toTelemetry, toPro)
      ensures Abs() == Init(buffers.cursor, nativeVisionManager.clips, nativeVisionManager.clipsPro)
                         .(events := sessionWriterListener.events)
    {
      this.nativeVisionManager := nativeVisionManager;
      this.buffers := buffers;
      this.rootCacheDir := rootCacheDir;
      this.videoRecorder := videoRecorder;
      this.telemetryImageSaver := telemetryImageSaver;
      this.sessionWriterListener := sessionWriterListener;
      this.absoluteDir := absoluteDir;
      this.toTelemetry := toTelemetry;
      this.toPro := toPro;
      workingHandler := new WorkThreadHandler();
      sessionCacheDir := "";
      coreSessionStartMillis := 0;
      trace := [];
    }

    /** `start()`: opens a session unless the handler is already started. */
    method Start(nowMillis: nat, coreSeconds: int)
      requires Valid()
      modifies this, workingHandler, videoRecorder, nativeVisionManager, telemetryImageSaver
      ensures Valid()
      ensures Abs() == SessionModel.Start(Config(), old(Abs()), nowMillis, coreSeconds)
    {
      ghost var s := Abs();
      var isStarted := workingHandler.IsStarted();
      if !isStarted {
        workingHandler.Start();
        trace := trace + [HandlerStart];
        StartSession(nowMillis, coreSeconds);
      }
      SessionLemmas.StartGuard(Config(), s, nowMillis, coreSeconds);
    }

    /** `stop()`: stops the handler, then closes the session, unless the handler is not started. */
    method Stop()
      requires Valid()
      modifies this, workingHandler, buffers, videoRecorder, nativeVisionManager, telemetryImageSaver,
               sessionWriterListener
      ensures Valid()
      ensures Abs() == SessionModel.Stop(Config(), old(Abs()))
    {
      ghost var s := Abs();
      var isStarted := workingHandler.IsStarted();
      if isStarted {
        workingHandler.Stop();
        trace := trace + [HandlerStop];
        StopSession();
      }
      SessionLemmas.StopGuard(Config(), s);
    }

    /** The posted rotation runs: `stopSession()` then `startSession()`. */
    method Fire(nowMillis: nat, coreSeconds: int)
      requires Valid() && workingHandler.pending > 0
      modifies this, workingHandler, buffers, videoRecorder, nativeVisionManager, telemetryImageSaver,
               sessionWriterListener
      ensures Valid()
      ensures Abs() == SessionModel.Fire(Config(), old(Abs()), nowMillis, coreSeconds)
    {
      ghost var s := Abs();
      workingHandler.RunPosted();
      StopSession();
      StartSession(nowMillis, coreSeconds);
      SessionLemmas.FireRotates(Config(), s, nowMillis, coreSeconds);
    }

    /** `startSession()`. */
    method StartSession(nowMillis: nat, coreSeconds: int)
      requires buffers.Valid()
      modifies this, workingHandler, videoRecorder, nativeVisionManager, telemetryImageSaver
      ensures buffers.Valid()
      ensures Abs() == SessionModel.StartSession(Config(), old(Abs()), nowMillis, coreSeconds)
    {
      GenerateCacheDirForCurrentTime(nowMillis);
      var path := buffers.GetBuffer();
      videoRecorder.StartRecording(path);
      trace := trace + [StartRecording(path)];
      nativeVisionManager.StartTelemetrySavingSession(sessionCacheDir);
      trace := trace + [StartTelemetrySaving(sessionCacheDir)];
      telemetryImageSaver.Start(sessionCacheDir);
      trace := trace + [StartImageSaving(sessionCacheDir)];
      coreSessionStartMillis := coreSeconds * 1000;
      workingHandler.PostDelayed(SessionLengthMillis);
      trace := trace + [PostRotation(SessionLengthMillis)];
    }

    /** `stopSession()`. */
    method StopSession()
      requires buffers.Valid()
      modifies this, buffers, videoRecorder, nativeVisionManager, telemetryImageSaver, sessionWriterListener
      ensures buffers.Valid()
      ensures Abs() == SessionModel.StopSession(Config(), old(Abs()))
    {
      ghost var s := Abs();
      videoRecorder.StopRecording();
      trace := trace + [StopRecording];
      nativeVisionManager.StopTelemetrySavingSession();
      trace := trace + [StopTelemetrySaving];
      telemetryImageSaver.Stop();
      trace := trace + [StopImageSaving];

      var clips := nativeVisionManager.GetClips();
      trace := trace + [GetClips];
      nativeVisionManager.ResetClips();
      trace := trace + [ResetClips];

      var clipsPro := nativeVisionManager.GetClipsPro();
      trace := trace + [GetClipsPro];
      nativeVisionManager.ResetClipsPro();
      trace := trace + [ResetClipsPro];
      assert clips == s.clips && clipsPro == s.clipsPro;

      var videoPath := buffers.GetBuffer();
      sessionWriterListener.OnSessionStop(VideosToCombined(clips, clipsPro, toTelemetry, toPro),
                                          videoPath, sessionCacheDir, coreSessionStartMillis);
      trace := trace + [SessionStop(videoPath)];
      buffers.Rotate();
      trace := trace + [RotateBuffers];
      StopCallsInOrder(s.trace, videoPath);
      ghost var expected := SessionModel.StopSession(Config(), s);
      assert expected.events == sessionWriterListener.events && expected.trace == trace;
      assert expected.cursor == buffers.cursor;
      assert expected.clips == nativeVisionManager.clips && expected.clipsPro == nativeVisionManager.clipsPro;
      assert expected.recording == videoRecorder.target && expected.telemetryDir == nativeVisionManager.savingDir;
      assert expected.imageDir == telemetryImageSaver.dir && expected.sessionCacheDir == sessionCacheDir;
      assert expected.started == workingHandler.started && expected.pending == workingHandler.pending;
    }

    /** `generateCacheDirForCurrentTime()`, with the wall-clock time as a parameter. */
    method GenerateCacheDirForCurrentTime(nowMillis: nat)
      modifies this`sessionCacheDir
      ensures sessionCacheDir == CacheDirs.CacheDir(rootCacheDir, absoluteDir, nowMillis)
      ensures sessionCacheDir[|sessionCacheDir| - 1] == '/'
    {
      sessionCacheDir := absoluteDir(CacheDirs.JoinPath(rootCacheDir, CacheDirs.Decimal(nowMillis))) + "/";
    }
  }

  /** The calls of `stopSession()`, appended one by one, make up `StopCalls`. */
  lemma StopCallsInOrder(t: seq<Call>, path: string)
    ensures t + [StopRecording] + [StopTelemetrySaving] + [StopImageSaving] + [GetClips] + [ResetClips]
              + [GetClipsPro] + [ResetClipsPro] + [SessionStop(path)] + [RotateBuffers]
            == t + StopCalls(path)
  {
  }

  /** A client's path resolution: paths are taken as they are. */
  function ResolveAsIs(path: string): string { path }

  /** A client's clip mapper: clips are numbers and map to themselves. */
  function ClipNumber(clip: int): int { clip }

  /**
   * A client: a ring of three buffers; start, one clip from the engine, two rotations,
   * stop, start.  The three sessions write the three buffers in turn, only the first one
   * carries clips (the other two report them absent), the stop leaves the handler stopped,
   * and the restart records into the first buffer again.
   */
  method PoolOfThreeClient() returns (videoPaths: seq<string>, firstTelemetries: Option<seq<int>>,
                                      secondTelemetries: Option<seq<int>>, thirdTelemetries: Option<seq<int>>,
                                      startedAfterStop: bool,
                                      recordingAfterRestart: Option<string>)
    ensures videoPaths == ["buffer0", "buffer1", "buffer2"]
    ensures firstTelemetries == Some([7]) && secondTelemetries == None && thirdTelemetries == None
    ensures !startedAfterStop
    ensures recordingAfterRestart == Some("buffer0")
  {
    var buffers := new RotatedBuffers(["buffer0", "buffer1", "buffer2"]);
    var engine := new NativeVisionManager<int, int>();
    var recorder := new VideoRecorder();
    var saver := new TelemetryImageSaver();
    var listener := new SessionWriterListener<int, int>();
    var writer := new RotatedBuffersSessionWriter(engine, buffers, "cache", recorder, saver, listener,
                                                  ResolveAsIs, ClipNumber, ClipNumber);
    ghost var cfg := writer.Config();
    ghost var s0 := writer.Abs();
    writer.Start(0, 0);
    ghost var s1 := writer.Abs();
    SessionLemmas.StartGuard(cfg, s0, 0, 0);
    engine.AddClip(7);
    ghost var s2 := writer.Abs();
    writer.Fire(SessionLengthMillis, 300);
    ghost var s3 := writer.Abs();
    SessionLemmas.FireRotates(cfg, s2, SessionLengthMillis, 300);
    writer.Fire(2 * SessionLengthMillis, 600);
    ghost var s4 := writer.Abs();
    writer.Stop();
    ghost var s5 := writer.Abs();
    startedAfterStop := writer.workingHandler.started;
    writer.Start(3 * SessionLengthMillis, 900);
    ghost var s6 := writer.Abs();
    ClientStates(cfg, s0, s1, s2, s3, s4, s5, s6);
    var events := listener.events;
    videoPaths := [events[0].videoPath, events[1].videoPath, events[2].videoPath];
    firstTelemetries := events[0].clips.telemetries;
    secondTelemetries := events[1].clips.telemetries;
    thirdTelemetries := events[2].clips.telemetries;
    recordingAfterRestart := recorder.target;
  }

  /** What the client's sequence of calls does, on the state machine. */
  lemma ClientStates(cfg: Env<int, int, int, int>, s0: State<int, int, int, int>, s1: State<int, int, int, int>,
                     s2: State<int, int, int, int>, s3: State<int, int, int, int>, s4: State<int, int, int, int>,
                     s5: State<int, int, int, int>, s6: State<int, int, int, int>)
    requires cfg == Env(["buffer0", "buffer1", "buffer2"], "cache", ResolveAsIs, ClipNumber, ClipNumber)
    requires s0 == Init(0, [], [])
    requires s1 == Start(cfg, s0, 0, 0)
    requires s2 == s1.(clips := s1.clips + [7])
    requires s2.pending > 0 && s3 == Fire(cfg, s2, SessionLengthMillis, 300)
    requires s3.pending > 0 && s4 == Fire(cfg, s3, 2 * SessionLengthMillis, 600)
    requires s5 == Stop(cfg, s4)
    requires s6 == Start(cfg, s5, 3 * SessionLengthMillis, 900)
    ensures |s6.events| == 3
    ensures s6.events[0].videoPath == "buffer0" && s6.events[1].videoPath == "buffer1"
    ensures s6.events[2].videoPath == "buffer2"
    ensures s6.events[0].clips.telemetries == Some([7]) && s6.events[1].clips.telemetries == None
    ensures s6.events[2].clips.telemetries == None
    ensures !s5.started && s6.recording == Some("buffer0")
  {
    SessionLemmas.StartGuard(cfg, s0, 0, 0);
    SessionLemmas.FireRotates(cfg, s2, SessionLengthMillis, 300);
    SessionLemmas.FireRotates(cfg, s3, 2 * SessionLengthMillis, 600);
    SessionLemmas.StopGuard(cfg, s4);
    SessionLemmas.StartGuard(cfg, s5, 3 * SessionLengthMillis, 900);
    var combined := VideosToCombined([7], [], ClipNumber, ClipNumber);
    assert combined.telemetries.Some? && |combined.telemetries.value| == 1;
    assert combined.telemetries.value[0] == 7;
    assert combined.telemetries.value == [7];
  }
}
