/**
 * What the session-rotation controller guarantees, proved about the state machine of
 * session_model.dfy: the guards of start() and stop(), the effect of one rotation, the
 * order of the calls made on the collaborators, the way sessions cycle through the buffer
 * ring, and what each emitted event carries.
 */
module SessionLemmas {
  import opened Optional
  import opened VideoCombining
  import CacheDirs
  import opened SessionModel

  /** start() on a started writer changes nothing; on an idle one it opens exactly one session. */
  lemma StartGuard<C, P, T, V>(env: Env<C, P, T, V>, s: State<C, P, T, V>, nowMillis: nat, coreSeconds: int)
    requires ValidEnv(env) && Inv(env, s)
    ensures s.started ==> Start(env, s, nowMillis, coreSeconds) == s
    ensures !s.started ==>
              var t := Start(env, s, nowMillis, coreSeconds);
              Inv(env, t) && t.started && t.pending == 1 &&
              t.recording == Some(env.slots[s.cursor]) && t.cursor == s.cursor &&
              t.sessionCacheDir == CacheDirs.CacheDir(env.rootCacheDir, env.absoluteDir, nowMillis) &&
              t.coreSessionStartMillis == coreSeconds * 1000 &&
              t.events == s.events && t.clips == s.clips && t.clipsPro == s.clipsPro &&
              t.trace == s.trace + [HandlerStart, StartRecording(env.slots[s.cursor]),
                                    StartTelemetrySaving(t.sessionCacheDir), StartImageSaving(t.sessionCacheDir),
                                    PostRotation(SessionLengthMillis)]
  {
  }

  /** Calling start() twice in a row opens one session: the second call is a no-op. */
  lemma StartTwiceIsStartOnce<C, P, T, V>(env: Env<C, P, T, V>, s: State<C, P, T, V>,
                                          now1: nat, core1: int, now2: nat, core2: int)
    requires ValidEnv(env) && Inv(env, s)
    ensures var t := Start(env, s, now1, core1);
            t.cursor < |env.slots| && Start(env, t, now2, core2) == t
  {
    StartGuard(env, s, now1, core1);
  }

  /**
   * stop() on an idle writer changes nothing.  On a started one it stops the handler first
   * (dropping the pending rotation), then closes the session: one event for the buffer the
   * session recorded into, carrying its clips, cache directory and start time; both clip
   * lists empty; all writers stopped; the ring advanced by one.
   */
  lemma StopGuard<C, P, T, V>(env: Env<C, P, T, V>, s: State<C, P, T, V>)
    requires ValidEnv(env) && Inv(env, s)
    ensures !s.started ==> Stop(env, s) == s
    ensures s.started ==>
              var t := Stop(env, s);
              Inv(env, t) && !t.started && t.pending == 0 &&
              t.events == s.events + [Event(VideosToCombined(s.clips, s.clipsPro, env.toTelemetry, env.toPro),
                                            s.recording.value, s.sessionCacheDir, s.coreSessionStartMillis)] &&
              t.clips == [] && t.clipsPro == [] &&
              t.cursor == NextSlot(s.cursor, |env.slots|) &&
              t.trace == s.trace + [HandlerStop] + StopCalls(s.recording.value)
  {
  }

  /** Calling stop() twice in a row runs one stop sequence: the second call is a no-op. */
  lemma StopTwiceIsStopOnce<C, P, T, V>(env: Env<C, P, T, V>, s: State<C, P, T, V>)
    requires ValidEnv(env) && Inv(env, s)
    ensures var t := Stop(env, s);
            t.cursor < |env.slots| && Stop(env, t) == t
  {
    StopGuard(env, s);
  }

  /**
   * A rotation keeps the writer started with exactly one rotation pending, emits exactly
   * one event for the session just ended, advances the ring once and starts recording into
   * the new current buffer.
   */
  lemma FireRotates<C, P, T, V>(env: Env<C, P, T, V>, s: State<C, P, T, V>, nowMillis: nat, coreSeconds: int)
    requires ValidEnv(env) && Inv(env, s) && s.pending > 0
    ensures var t := Fire(env, s, nowMillis, coreSeconds);
            Inv(env, t) && t.started && t.pending == 1 &&
            t.events == s.events + [Event(VideosToCombined(s.clips, s.clipsPro, env.toTelemetry, env.toPro),
                                          s.recording.value, s.sessionCacheDir, s.coreSessionStartMillis)] &&
            t.cursor == NextSlot(s.cursor, |env.slots|) &&
            t.recording == Some(env.slots[t.cursor]) &&
            t.clips == [] && t.clipsPro == [] &&
            t.sessionCacheDir == CacheDirs.CacheDir(env.rootCacheDir, env.absoluteDir, nowMillis) &&
            t.coreSessionStartMillis == coreSeconds * 1000
  {
  }

  /** Every step keeps the invariant. */
  lemma StepKeepsInv<C, P, T, V>(env: Env<C, P, T, V>, s: State<C, P, T, V>, op: Op<C, P>)
    requires ValidEnv(env) && Inv(env, s)
    ensures Inv(env, Step(env, s, op))
  {
    match op
    case StartOp(now, core) => StartGuard(env, s, now, core);
    case StopOp => StopGuard(env, s);
    case FireOp(now, core) => if s.pending > 0 { FireRotates(env, s, now, core); }
    case ClipOp(_) =>
    case ClipProOp(_) =>
  }

  // ---------------------------------------------------------------------------------------
  // Order of the calls on the collaborators

  /** Reading a clip list is immediately followed by resetting it. */
  predicate ReadThenReset(t: seq<Call>) {
    (forall i | 0 <= i < |t| && t[i].GetClips? :: i + 1 < |t| && t[i + 1].ResetClips?) &&
    (forall i | 0 <= i < |t| && t[i].GetClipsPro? :: i + 1 < |t| && t[i + 1].ResetClipsPro?)
  }

  /**
   * The clips are read only right after the recorder, the telemetry saving and the image saver
   * were stopped, and the pro clips only right after the standard clips were read and reset.
   */
  predicate WritersStoppedBeforeRead(t: seq<Call>) {
    (forall i | 0 <= i < |t| && t[i].GetClips? ::
       3 <= i && t[i - 3].StopRecording? && t[i - 2].StopTelemetrySaving? && t[i - 1].StopImageSaving?) &&
    (forall i | 0 <= i < |t| && t[i].GetClipsPro? ::
       2 <= i && t[i - 2].GetClips? && t[i - 1].ResetClips?)
  }

  /** The event is emitted right after the pro clips were reset, and is immediately followed by a rotation. */
  predicate EventThenRotate(t: seq<Call>) {
    (forall i | 0 <= i < |t| && t[i].SessionStop? :: 1 <= i && t[i - 1].ResetClipsPro?) &&
    (forall i | 0 <= i < |t| && t[i].SessionStop? :: i + 1 < |t| && t[i + 1].RotateBuffers?)
  }

  /** The ring never rotates except straight after an event. */
  predicate RotateOnlyAfterEvent(t: seq<Call>) {
    forall i | 0 <= i < |t| && t[i].RotateBuffers? :: 1 <= i && t[i - 1].SessionStop?
  }

  /** The ordering rules of the controller's calls on its collaborators. */
  predicate WellOrdered(t: seq<Call>) {
    ReadThenReset(t) && WritersStoppedBeforeRead(t) && EventThenRotate(t) && RotateOnlyAfterEvent(t)
  }

  /** Every rule looks either forward or backward within one block of calls, so blocks compose. */
  lemma WellOrderedAppend(t: seq<Call>, b: seq<Call>)
    requires WellOrdered(t) && WellOrdered(b)
    ensures WellOrdered(t + b)
  {
    var u := t + b;
    assert forall i | 0 <= i < |t| :: u[i] == t[i];
    assert forall j | 0 <= j < |b| :: u[|t| + j] == b[j];
    assert ReadThenReset(u) by {
      forall i | 0 <= i < |u| && u[i].GetClips? ensures i + 1 < |u| && u[i + 1].ResetClips? {
        if i >= |t| { assert u[i] == b[i - |t|]; }
      }
      forall i | 0 <= i < |u| && u[i].GetClipsPro? ensures i + 1 < |u| && u[i + 1].ResetClipsPro? {
        if i >= |t| { assert u[i] == b[i - |t|]; }
      }
    }
    assert WritersStoppedBeforeRead(u) by {
      forall i | 0 <= i < |u| && u[i].GetClips?
        ensures 3 <= i && u[i - 3].StopRecording? && u[i - 2].StopTelemetrySaving? && u[i - 1].StopImageSaving?
      {
        if i >= |t| { assert u[i] == b[i - |t|]; }
      }
      forall i | 0 <= i < |u| && u[i].GetClipsPro? ensures 2 <= i && u[i - 2].GetClips? && u[i - 1].ResetClips? {
        if i >= |t| { assert u[i] == b[i - |t|]; }
      }
    }
    assert EventThenRotate(u) by {
      forall i | 0 <= i < |u| && u[i].SessionStop? ensures 1 <= i && u[i - 1].ResetClipsPro? {
        if i >= |t| { assert u[i] == b[i - |t|]; }
      }
      forall i | 0 <= i < |u| && u[i].SessionStop? ensures i + 1 < |u| && u[i + 1].RotateBuffers? {
        if i >= |t| { assert u[i] == b[i - |t|]; }
      }
    }
    assert RotateOnlyAfterEvent(u) by {
      forall i | 0 <= i < |u| && u[i].RotateBuffers? ensures 1 <= i && u[i - 1].SessionStop? {
        if i >= |t| { assert u[i] == b[i - |t|]; }
      }
    }
  }

  lemma StopCallsWellOrdered(path: string)
    ensures WellOrdered(StopCalls(path))
    ensures WellOrdered([HandlerStop] + StopCalls(path))
  {
    var b := StopCalls(path);
    assert ReadThenReset(b) by {
      forall i | 0 <= i < |b| && b[i].GetClips? ensures i + 1 < |b| && b[i + 1].ResetClips? { assert i == 3; }
      forall i | 0 <= i < |b| && b[i].GetClipsPro? ensures i + 1 < |b| && b[i + 1].ResetClipsPro? { assert i == 5; }
    }
    assert WritersStoppedBeforeRead(b) by {
      forall i | 0 <= i < |b| && b[i].GetClips?
        ensures 3 <= i && b[i - 3].StopRecording? && b[i - 2].StopTelemetrySaving? && b[i - 1].StopImageSaving?
      {
        assert i == 3;
      }
      forall i | 0 <= i < |b| && b[i].GetClipsPro? ensures 2 <= i && b[i - 2].GetClips? && b[i - 1].ResetClips? {
        assert i == 5;
      }
    }
    assert EventThenRotate(b) by {
      forall i | 0 <= i < |b| && b[i].SessionStop? ensures 1 <= i && b[i - 1].ResetClipsPro? { assert i == 7; }
      forall i | 0 <= i < |b| && b[i].SessionStop? ensures i + 1 < |b| && b[i + 1].RotateBuffers? { assert i == 7; }
    }
    assert RotateOnlyAfterEvent(b) by {
      forall i | 0 <= i < |b| && b[i].RotateBuffers? ensures 1 <= i && b[i - 1].SessionStop? { assert i == 8; }
    }
    WellOrderedAppend([HandlerStop], b);
  }

  lemma StartCallsWellOrdered(path: string, dir: string)
    ensures WellOrdered([StartRecording(path), StartTelemetrySaving(dir), StartImageSaving(dir),
                         PostRotation(SessionLengthMillis)])
    ensures WellOrdered([HandlerStart, StartRecording(path), StartTelemetrySaving(dir), StartImageSaving(dir),
                         PostRotation(SessionLengthMillis)])
  {
  }

  /** Every step keeps the call trace well ordered. */
  lemma StepKeepsOrder<C, P, T, V>(env: Env<C, P, T, V>, s: State<C, P, T, V>, op: Op<C, P>)
    requires ValidEnv(env) && Inv(env, s) && WellOrdered(s.trace)
    ensures WellOrdered(Step(env, s, op).trace)
  {
    var path := env.slots[s.cursor];
    match op
    case StartOp(now, core) =>
      if !s.started {
        var dir := CacheDirs.CacheDir(env.rootCacheDir, env.absoluteDir, now);
        StartCallsWellOrdered(path, dir);
        WellOrderedAppend(s.trace, [HandlerStart, StartRecording(path), StartTelemetrySaving(dir),
                                    StartImageSaving(dir), PostRotation(SessionLengthMillis)]);
        assert Step(env, s, op).trace == s.trace + [HandlerStart, StartRecording(path), StartTelemetrySaving(dir),
                                                    StartImageSaving(dir), PostRotation(SessionLengthMillis)];
      }
    case StopOp =>
      if s.started {
        StopCallsWellOrdered(path);
        WellOrderedAppend(s.trace, [HandlerStop] + StopCalls(path));
        assert Step(env, s, op).trace == s.trace + ([HandlerStop] + StopCalls(path));
      }
    case FireOp(now, core) =>
      if s.pending > 0 {
        var next := env.slots[NextSlot(s.cursor, |env.slots|)];
        var dir := CacheDirs.CacheDir(env.rootCacheDir, env.absoluteDir, now);
        var starts := [StartRecording(next), StartTelemetrySaving(dir), StartImageSaving(dir),
                       PostRotation(SessionLengthMillis)];
        StopCallsWellOrdered(path);
        StartCallsWellOrdered(next, dir);
        WellOrderedAppend(s.trace, StopCalls(path));
        WellOrderedAppend(s.trace + StopCalls(path), starts);
        assert Step(env, s, op).trace == s.trace + StopCalls(path) + starts;
      }
    case ClipOp(_) =>
    case ClipProOp(_) =>
  }

  // ---------------------------------------------------------------------------------------
  // Sessions and buffer slots

  /** Advancing a ring of `k` slots: one step from slot `a mod k` is slot `(a + 1) mod k`, a different one when k > 1. */
  lemma ModSucc(a: nat, k: nat)
    requires k >= 1
    ensures (a % k + 1) % k == (a + 1) % k
    ensures k > 1 ==> (a + 1) % k != a % k
  {
    var q, r := a / k, a % k;
    assert a == q * k + r;
    if r + 1 < k {
      assert a + 1 == q * k + (r + 1);
      ModUnique(a + 1, k, q, r + 1);
    } else {
      assert a + 1 == (q + 1) * k + 0;
      ModUnique(a + 1, k, q + 1, 0);
    }
  }

  /** The ring's successor is the remainder of the successor. */
  lemma NextSlotIsSucc(cursor: nat, k: nat)
    requires cursor < k
    ensures NextSlot(cursor, k) == (cursor + 1) % k
  {
    if cursor + 1 == k {
      ModUnique(cursor + 1, k, 1, 0);
    } else {
      ModUnique(cursor + 1, k, 0, cursor + 1);
    }
  }

  lemma MulAtLeast(d: int, k: int)
    requires d >= 1 && k >= 1
    ensures d * k >= k
  {
    assert d * k == (d - 1) * k + k;
  }

  /** Euclidean remainders are unique. */
  lemma ModUnique(x: int, k: int, q: int, r: int)
    requires k > 0 && 0 <= r < k && x == q * k + r
    ensures x % k == r
  {
    var q', r' := x / k, x % k;
    assert x == q' * k + r';
    var d := q - q';
    assert d * k == r' - r;
    if d >= 1 {
      MulAtLeast(d, k);
      assert false;
    } else if d <= -1 {
      MulAtLeast(-d, k);
      assert false;
    }
  }

  /**
   * Sessions counted from event `e0` on, when the ring stood at slot `c0`: the n-th of them
   * was emitted for slot `(c0 + n) mod K`, and the ring now stands at the slot of the next.
   */
  predicate SlotDiscipline<C, P, T, V>(env: Env<C, P, T, V>, s: State<C, P, T, V>, c0: nat, e0: nat)
    requires ValidEnv(env)
  {
    e0 <= |s.events| &&
    s.cursor == (c0 + |s.events| - e0) % |env.slots| &&
    forall i | e0 <= i < |s.events| :: s.events[i].videoPath == env.slots[(c0 + i - e0) % |env.slots|]
  }

  lemma StepKeepsSlotDiscipline<C, P, T, V>(env: Env<C, P, T, V>, s: State<C, P, T, V>, op: Op<C, P>, c0: nat, e0: nat)
    requires ValidEnv(env) && Inv(env, s) && SlotDiscipline(env, s, c0, e0)
    ensures var t := Step(env, s, op);
            SlotDiscipline(env, t, c0, e0) && s.events <= t.events
  {
    var t := Step(env, s, op);
    if |t.events| != |s.events| {
      // The step closed a session: by stop() or by the rotation.
      assert (op.StopOp? && s.started) || (op.FireOp? && s.pending > 0);
      if op.StopOp? { StopGuard(env, s); } else { FireRotates(env, s, op.nowMillis, op.coreSeconds); }
      ModSucc(c0 + |s.events| - e0, |env.slots|);
      NextSlotIsSucc(s.cursor, |env.slots|);
      assert t.events[|s.events|].videoPath == env.slots[s.cursor];
    } else {
      StepKeepsInv(env, s, op);
      assert t.cursor == s.cursor by {
        match op
        case StartOp(now, core) =>
        case StopOp =>
        case FireOp(_, _) =>
        case ClipOp(_) =>
        case ClipProOp(_) =>
      }
    }
  }

  /** Any run keeps the invariant, the ordering rules and the slot discipline, and only appends events. */
  lemma {:induction false} RunKeeps<C, P, T, V>(env: Env<C, P, T, V>, s: State<C, P, T, V>, ops: seq<Op<C, P>>,
                                               c0: nat, e0: nat)
    requires ValidEnv(env) && Inv(env, s) && WellOrdered(s.trace) && SlotDiscipline(env, s, c0, e0)
    ensures var r := Run(env, s, ops);
            Inv(env, r) && WellOrdered(r.trace) && SlotDiscipline(env, r, c0, e0) && s.events <= r.events
    decreases |ops|
  {
    if ops != [] {
      var t := Step(env, s, ops[0]);
      StepKeepsInv(env, s, ops[0]);
      StepKeepsOrder(env, s, ops[0]);
      StepKeepsSlotDiscipline(env, s, ops[0], c0, e0);
      RunKeeps(env, t, ops[1..], c0, e0);
    }
  }

  /**
   * From construction on a ring positioned at slot 0, whatever the sequence of start(),
   * stop(), rotations and engine clips: the n-th emitted session wrote slot `n mod K`, the
   * session in progress writes slot `(number of events) mod K`, and the calls on the
   * collaborators obey the ordering rules.
   */
  lemma SessionsCycleThroughSlots<C, P, T, V>(env: Env<C, P, T, V>, clips: seq<C>, clipsPro: seq<P>,
                                              ops: seq<Op<C, P>>)
    requires ValidEnv(env)
    ensures var r := Run(env, Init(0, clips, clipsPro), ops);
            Inv(env, r) && WellOrdered(r.trace) &&
            (forall i | 0 <= i < |r.events| :: r.events[i].videoPath == env.slots[i % |env.slots|]) &&
            (r.started ==> r.recording == Some(env.slots[|r.events| % |env.slots|]))
  {
    var s: State<C, P, T, V> := Init(0, clips, clipsPro);
    RunKeeps(env, s, ops, 0, 0);
  }

  /**
   * With a ring of more than one distinct slot, two consecutive sessions never write the
   * same buffer: neither two consecutive events nor the last event and the session in progress.
   */
  lemma ConsecutiveSessionsUseDifferentSlots<C, P, T, V>(env: Env<C, P, T, V>, clips: seq<C>, clipsPro: seq<P>,
                                                         ops: seq<Op<C, P>>)
    requires |env.slots| > 1
    requires forall i, j | 0 <= i < j < |env.slots| :: env.slots[i] != env.slots[j]
    ensures var r := Run(env, Init(0, clips, clipsPro), ops);
            (forall i | 0 <= i < |r.events| - 1 :: r.events[i].videoPath != r.events[i + 1].videoPath) &&
            (r.started && r.events != [] ==> r.recording != Some(r.events[|r.events| - 1].videoPath))
  {
    var r := Run(env, Init(0, clips, clipsPro), ops);
    var k := |env.slots|;
    SessionsCycleThroughSlots(env, clips, clipsPro, ops);
    forall i | 0 <= i < |r.events| - 1
      ensures r.events[i].videoPath != r.events[i + 1].videoPath
    {
      ModSucc(i, k);
      var a, b := i % k, (i + 1) % k;
      if a < b { assert env.slots[a] != env.slots[b]; } else { assert env.slots[b] != env.slots[a]; }
    }
    if r.started && r.events != [] {
      var n := |r.events|;
      ModSucc(n - 1, k);
      var a, b := (n - 1) % k, n % k;
      if a < b { assert env.slots[a] != env.slots[b]; } else { assert env.slots[b] != env.slots[a]; }
    }
  }

  /** After stop(), and until the next start(), nothing is emitted and the ring does not move. */
  lemma {:induction false} IdleUntilStarted<C, P, T, V>(env: Env<C, P, T, V>, s: State<C, P, T, V>, ops: seq<Op<C, P>>)
    requires ValidEnv(env) && Inv(env, s) && !s.started
    requires forall i | 0 <= i < |ops| :: !ops[i].StartOp?
    ensures var r := Run(env, s, ops);
            !r.started && r.pending == 0 && r.events == s.events && r.cursor == s.cursor && r.recording == None
    decreases |ops|
  {
    if ops != [] {
      var t := Step(env, s, ops[0]);
      assert !ops[0].StartOp?;
      assert Inv(env, t) && !t.started && t.events == s.events && t.cursor == s.cursor;
      IdleUntilStarted(env, t, ops[1..]);
    }
  }

  // ---------------------------------------------------------------------------------------
  // What an event carries

  /** Steps where only the engine acts: it produces clips, the controller is not called. */
  predicate EngineOnly<C, P>(ops: seq<Op<C, P>>) {
    forall i | 0 <= i < |ops| :: ops[i].ClipOp? || ops[i].ClipProOp?
  }

  function AddedClips<C, P>(ops: seq<Op<C, P>>): seq<C>
  {
    if ops == [] then [] else (if ops[0].ClipOp? then [ops[0].clip] else []) + AddedClips(ops[1..])
  }

  function AddedClipsPro<C, P>(ops: seq<Op<C, P>>): seq<P>
  {
    if ops == [] then [] else (if ops[0].ClipProOp? then [ops[0].clipPro] else []) + AddedClipsPro(ops[1..])
  }

  /** While only the engine acts, the clip lists grow by exactly what it produced and nothing else changes. */
  lemma {:induction false} EngineOnlyRun<C, P, T, V>(env: Env<C, P, T, V>, s: State<C, P, T, V>, ops: seq<Op<C, P>>)
    requires ValidEnv(env) && s.cursor < |env.slots| && EngineOnly(ops)
    ensures Run(env, s, ops) == s.(clips := s.clips + AddedClips(ops), clipsPro := s.clipsPro + AddedClipsPro(ops))
    decreases |ops|
  {
    if ops != [] {
      var t := Step(env, s, ops[0]);
      assert EngineOnly(ops[1..]) by {
        forall i | 0 <= i < |ops[1..]| ensures ops[1..][i].ClipOp? || ops[1..][i].ClipProOp? {
          assert ops[1..][i] == ops[i + 1];
        }
      }
      EngineOnlyRun(env, t, ops[1..]);
      if ops[0].ClipOp? {
        assert t == s.(clips := s.clips + [ops[0].clip]);
        assert s.clips + AddedClips(ops) == t.clips + AddedClips(ops[1..]);
      } else {
        assert t == s.(clipsPro := s.clipsPro + [ops[0].clipPro]);
        assert s.clipsPro + AddedClipsPro(ops) == t.clipsPro + AddedClipsPro(ops[1..]);
      }
    }
  }

  /**
   * One whole session: opened by start() on an idle writer or by a rotation, then only the
   * engine produces clips, then closed by stop() or by the next rotation.  Exactly one
   * event is emitted; it names the buffer the session recorded into, the cache directory
   * and core start time (seconds times 1000) taken when the session was opened, and exactly
   * the clips accumulated up to the close; afterwards both clip lists are empty.
   */
  lemma SessionEventCarriesItsStart<C, P, T, V>(env: Env<C, P, T, V>, s: State<C, P, T, V>,
                                                opening: Op<C, P>, ops: seq<Op<C, P>>, closing: Op<C, P>)
    requires ValidEnv(env) && Inv(env, s)
    requires (opening.StartOp? && !s.started) || (opening.FireOp? && s.started)
    requires EngineOnly(ops)
    requires closing.StopOp? || closing.FireOp?
    ensures var t := Step(env, s, opening);
            var u := Run(env, t, ops);
            var v := Step(env, u, closing);
            var dir := CacheDirs.CacheDir(env.rootCacheDir, env.absoluteDir, opening.nowMillis);
            Inv(env, t) &&
            |v.events| == |t.events| + 1 && v.events[..|t.events|] == t.events &&
            v.events[|t.events|] ==
              Event(VideosToCombined(t.clips + AddedClips(ops), t.clipsPro + AddedClipsPro(ops),
                                     env.toTelemetry, env.toPro),
                    env.slots[t.cursor], dir, opening.coreSeconds * 1000) &&
            dir[|dir| - 1] == '/' &&
            v.clips == [] && v.clipsPro == []
  {
    var t := Step(env, s, opening);
    StepKeepsInv(env, s, opening);
    assert t.started && t.sessionCacheDir == CacheDirs.CacheDir(env.rootCacheDir, env.absoluteDir, opening.nowMillis)
        && t.coreSessionStartMillis == opening.coreSeconds * 1000;
    var u := Run(env, t, ops);
    EngineOnlyRun(env, t, ops);
    assert Inv(env, u) && u.started && u.pending == 1 && u.events == t.events;
    if closing.StopOp? { StopGuard(env, u); } else { FireRotates(env, u, closing.nowMillis, closing.coreSeconds); }
  }

  /**
   * The scenario of a ring of three buffers: start, two rotations, stop, start.  The three
   * sessions write slots 0, 1 and 2, each event names its own slot and the cache
   * directory of its own start, the stop leaves the writer idle, and the final start records
   * into slot 0 again.
   */
  lemma PoolOfThreeScenario<C, P, T, V>(env: Env<C, P, T, V>)
    requires |env.slots| == 3
    ensures var length := SessionLengthMillis;
            var ops: seq<Op<C, P>> := [StartOp(0, 0), FireOp(length, 300), FireOp(2 * length, 600),
                                       StopOp, StartOp(3 * length, 900)];
            var r := Run(env, Init(0, [], []), ops);
            var stopped := Run(env, Init(0, [], []), ops[..4]);
            |r.events| == 3 &&
            r.events[0].videoPath == env.slots[0] &&
            r.events[1].videoPath == env.slots[1] &&
            r.events[2].videoPath == env.slots[2] &&
            r.events[0].cachedTelemetryPath == CacheDirs.CacheDir(env.rootCacheDir, env.absoluteDir, 0) &&
            r.events[1].cachedTelemetryPath == CacheDirs.CacheDir(env.rootCacheDir, env.absoluteDir, length) &&
            r.events[2].cachedTelemetryPath == CacheDirs.CacheDir(env.rootCacheDir, env.absoluteDir, 2 * length) &&
            r.events[0].coreSessionStartMillis == 0 &&
            r.events[1].coreSessionStartMillis == 300000 &&
            r.events[2].coreSessionStartMillis == 600000 &&
            !stopped.started && stopped.pending == 0 &&
            r.started && r.recording == Some(env.slots[0])
  {
    var length := SessionLengthMillis;
    var o0, o1, o2, o3, o4 := StartOp(0, 0), FireOp(length, 300), FireOp(2 * length, 600), StopOp, StartOp(3 * length, 900);
    var ops: seq<Op<C, P>> := [o0, o1, o2, o3, o4];
    var s0: State<C, P, T, V> := Init(0, [], []);
    var s1 := Step(env, s0, o0);
    var s2 := Step(env, s1, o1);
    var s3 := Step(env, s2, o2);
    var s4 := Step(env, s3, o3);
    var s5 := Step(env, s4, o4);
    RunFourThenOne(env, s0, o0, o1, o2, o3, o4);
    assert ops[..4] == [o0, o1, o2, o3];
    PoolOfThreeStates(env, s0, s1, s2, s3, s4, s5);
  }

  /** The five steps of the ring-of-three scenario, one at a time. */
  lemma PoolOfThreeStates<C, P, T, V>(env: Env<C, P, T, V>, s0: State<C, P, T, V>, s1: State<C, P, T, V>,
                                      s2: State<C, P, T, V>, s3: State<C, P, T, V>, s4: State<C, P, T, V>,
                                      s5: State<C, P, T, V>)
    requires |env.slots| == 3 && s0 == Init(0, [], [])
    requires s1 == Step(env, s0, StartOp(0, 0))
    requires s2 == Step(env, s1, FireOp(SessionLengthMillis, 300))
    requires s3 == Step(env, s2, FireOp(2 * SessionLengthMillis, 600))
    requires s4 == Step(env, s3, StopOp)
    requires s5 == Step(env, s4, StartOp(3 * SessionLengthMillis, 900))
    ensures |s5.events| == 3
    ensures s5.events[0].videoPath == env.slots[0] && s5.events[1].videoPath == env.slots[1]
    ensures s5.events[2].videoPath == env.slots[2]
    ensures s5.events[0].cachedTelemetryPath == CacheDirs.CacheDir(env.rootCacheDir, env.absoluteDir, 0)
    ensures s5.events[1].cachedTelemetryPath == CacheDirs.CacheDir(env.rootCacheDir, env.absoluteDir, SessionLengthMillis)
    ensures s5.events[2].cachedTelemetryPath == CacheDirs.CacheDir(env.rootCacheDir, env.absoluteDir, 2 * SessionLengthMillis)
    ensures s5.events[0].coreSessionStartMillis == 0 && s5.events[1].coreSessionStartMillis == 300000
    ensures s5.events[2].coreSessionStartMillis == 600000
    ensures !s4.started && s4.pending == 0 && s5.started && s5.recording == Some(env.slots[0])
  {
    StartGuard(env, s0, 0, 0);
    FireRotates(env, s1, SessionLengthMillis, 300);
    FireRotates(env, s2, 2 * SessionLengthMillis, 600);
    StopGuard(env, s3);
    StartGuard(env, s4, 3 * SessionLengthMillis, 900);
    assert s1.cursor == 0 && s2.cursor == 1 && s3.cursor == 2 && s4.cursor == 0;
  }

  /** Four steps and then a fifth, unfolded one at a time. */
  lemma RunFourThenOne<C, P, T, V>(env: Env<C, P, T, V>, s: State<C, P, T, V>,
                                   o0: Op<C, P>, o1: Op<C, P>, o2: Op<C, P>, o3: Op<C, P>, o4: Op<C, P>)
    requires s.cursor < |env.slots|
    ensures var s4 := Step(env, Step(env, Step(env, Step(env, s, o0), o1), o2), o3);
            Run(env, s, [o0, o1, o2, o3]) == s4 && Run(env, s, [o0, o1, o2, o3, o4]) == Step(env, s4, o4)
  {
    var s1 := Step(env, s, o0);
    var s2 := Step(env, s1, o1);
    var s3 := Step(env, s2, o2);
    var s4 := Step(env, s3, o3);
    RunCons(env, s4, o4, []);
    RunCons(env, s3, o3, [o4]);
    RunCons(env, s2, o2, [o3, o4]);
    RunCons(env, s1, o1, [o2, o3, o4]);
    RunCons(env, s, o0, [o1, o2, o3, o4]);
    assert [o0, o1, o2, o3, o4] == [o0] + [o1, o2, o3, o4];
    RunCons(env, s3, o3, []);
    RunCons(env, s2, o2, [o3]);
    RunCons(env, s1, o1, [o2, o3]);
    RunCons(env, s, o0, [o1, o2, o3]);
    assert [o0, o1, o2, o3] == [o0] + [o1, o2, o3];
  }

  lemma RunCons<C, P, T, V>(env: Env<C, P, T, V>, s: State<C, P, T, V>, op: Op<C, P>, ops: seq<Op<C, P>>)
    requires s.cursor < |env.slots|
    ensures Run(env, s, [op] + ops) == Run(env, Step(env, s, op), ops)
  {
    assert ([op] + ops)[1..] == ops;
  }
}
