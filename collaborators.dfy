/**
 * The collaborators RotatedBuffersSessionWriter drives, reduced to the state it observes
 * and changes.  Their real work (encoding video, writing telemetry and images, the native
 * engine, the worker thread) is not part of this model.
 */
module Collaborators {
  import opened Optional
  import opened VideoCombining
  import opened SessionModel

  /** `RotatedBuffers`: a fixed ring of buffer paths and the cursor of the current one. */
  class RotatedBuffers {
    const slots: seq<string>
    var cursor: nat

    ghost predicate Valid()
      reads this
    {
      |slots| >= 1 && cursor < |slots|
    }

    constructor (slots: seq<string>)
      requires |slots| >= 1
      ensures Valid() && this.slots == slots && cursor == 0
    {
      this.slots := slots;
      cursor := 0;
    }

    /** `getBuffer()`: the current buffer; no side effect. */
    method GetBuffer() returns (path: string)
      requires Valid()
      ensures path == slots[cursor]
    {
      path := slots[cursor];
    }

    /** `rotate()`: the next buffer becomes current, wrapping around after the last. */
    method Rotate()
      requires Valid()
      modifies this
      ensures Valid() && cursor == NextSlot(old(cursor), |slots|)
    {
      cursor := NextSlot(cursor, |slots|);
    }
  }

  /** `VideoRecorder`: the path it records into, if recording. */
  class VideoRecorder {
    var target: Option<string>

    constructor ()
      ensures target == None
    {
      target := None;
    }

    method StartRecording(path: string)
      modifies this
      ensures target == Some(path)
    {
      target := Some(path);
    }

    method StopRecording()
      modifies this
      ensures target == None
    {
      target := None;
    }
  }

  /** `TelemetryImageSaverImpl`: the directory it saves images into, if started. */
  class TelemetryImageSaver {
    var dir: Option<string>

    constructor ()
      ensures dir == None
    {
      dir := None;
    }

    method Start(dir: string)
      modifies this
      ensures this.dir == Some(dir)
    {
      this.dir := Some(dir);
    }

    method Stop()
      modifies this
      ensures dir == None
    {
      dir := None;
    }
  }

  /**
   * `NativeVisionManager`: the directory telemetry is saved into, if saving, and the two
   * clip lists the engine accumulates for the controller to collect.
   */
  class NativeVisionManager<C, P> {
    var savingDir: Option<string>
    var clips: seq<C>
    var clipsPro: seq<P>

    constructor ()
      ensures savingDir == None && clips == [] && clipsPro == []
    {
      savingDir, clips, clipsPro := None, [], [];
    }

    method StartTelemetrySavingSession(dir: string)
      modifies this
      ensures savingDir == Some(dir) && clips == old(clips) && clipsPro == old(clipsPro)
    {
      savingDir := Some(dir);
    }

    method StopTelemetrySavingSession()
      modifies this
      ensures savingDir == None && clips == old(clips) && clipsPro == old(clipsPro)
    {
      savingDir := None;
    }

    method GetClips() returns (cs: seq<C>)
      ensures cs == clips
    {
      cs := clips;
    }

    method ResetClips()
      modifies this
      ensures clips == [] && savingDir == old(savingDir) && clipsPro == old(clipsPro)
    {
      clips := [];
    }

    method GetClipsPro() returns (ps: seq<P>)
      ensures ps == clipsPro
    {
      ps := clipsPro;
    }

    method ResetClipsPro()
      modifies this
      ensures clipsPro == [] && savingDir == old(savingDir) && clips == old(clips)
    {
      clipsPro := [];
    }

    /** The engine reports a finished standard clip (its own activity, not the controller's). */
    method AddClip(c: C)
      modifies this
      ensures clips == old(clips) + [c] && savingDir == old(savingDir) && clipsPro == old(clipsPro)
    {
      clips := clips + [c];
    }

    /** The engine reports a finished pro clip. */
    method AddClipPro(p: P)
      modifies this
      ensures clipsPro == old(clipsPro) + [p] && savingDir == old(savingDir) && clips == old(clips)
    {
      clipsPro := clipsPro + [p];
    }
  }

  /**
   * `WorkThreadHandler`: whether it is started, and how many delayed actions are posted
   * and not yet run.  Stopping it drops every posted action.
   */
  class WorkThreadHandler {
    var started: bool
    var pending: nat

    constructor ()
      ensures !started && pending == 0
    {
      started, pending := false, 0;
    }

    method IsStarted() returns (b: bool)
      ensures b == started
    {
      b := started;
    }

    method Start()
      modifies this
      ensures started && pending == old(pending)
    {
      started := true;
    }

    method Stop()
      modifies this
      ensures !started && pending == 0
    {
      started, pending := false, 0;
    }

    /** `postDelayed(action, delayMillis)`: one more action will run after the delay. */
    method PostDelayed(delayMillis: nat)
      modifies this
      ensures started == old(started) && pending == old(pending) + 1
    {
      pending := pending + 1;
    }

    /** The delay of a posted action elapses: it leaves the queue and runs. */
    method RunPosted()
      requires pending > 0
      modifies this
      ensures started == old(started) && pending == old(pending) - 1
    {
      pending := pending - 1;
    }
  }

  /** `SessionWriterListener`: every `onSessionStop` it has received, in order. */
  class SessionWriterListener<T, V> {
    var events: seq<Event<T, V>>

    constructor ()
      ensures events == []
    {
      events := [];
    }

    method OnSessionStop(clips: VideoCombined<T, V>, videoPath: string, cachedTelemetryPath: string,
                         coreSessionStartMillis: int)
      modifies this
      ensures events == old(events) + [Event(clips, videoPath, cachedTelemetryPath, coreSessionStartMillis)]
    {
      events := events + [Event(clips, videoPath, cachedTelemetryPath, coreSessionStartMillis)];
    }
  }
}
