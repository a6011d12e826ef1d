/** The recording controller of `src/hooks/useAudioRecording.js` as an
    event-driven state machine. The hook's React state and refs form one
    record; each call into the hook and each callback the browser makes
    (a recorder's `dataavailable`, `stop` and `error` events, a timer tick,
    the unmount cleanup) is an event. What the browser answers (whether the
    microphone was granted, which setup call threw and with what message,
    whether the recorder has `pause`) is a parameter of the event. Each
    call runs to completion as one step. */
module AudioRecording {

  import opened Common
  import opened Browser
  import AudioUtils

  datatype Permission = Prompt | Granted | Denied

  datatype RecorderState = Inactive | Recording | Paused

  /** The `MediaRecorder` in `mediaRecorderRef`: its `state`, whether it
      has `pause`/`resume`, the MIME type of the session that created it
      (which its `onstop` tags the blob with), and whether `stop()` has been
      called and its `stop` event is still to come. */
  datatype MediaRecorder = MediaRecorder(
    state: RecorderState,
    pauseSupported: bool,
    mimeType: string,
    stopQueued: bool)

  /** A recorder that will still deliver `dataavailable`/`stop`. */
  predicate Active(m: MediaRecorder) {
    m.state != Inactive || m.stopQueued
  }

  /** The hook's state and the resources its refs hold:
      `streamLive` — the stream in `streamRef` has not been stopped by the
      hook (a stream whose tracks the browser ended still counts);
      `orphanedStreams` — streams acquired earlier, never stopped, and no
      longer referenced by anything;
      `timerArmed` — the one-second interval in `timerRef` is running;
      `framePending` — an animation frame is requested (never set: the
      level loop's first call reads a stale `isRecording` and returns
      before it requests one);
      `contextOpen` — the shared `AudioContext` exists and is not closed;
      `mounted` — the unmount cleanup has not run;
      `blobStamp` — how many blobs `onstop` has built, which tells one blob
      object from another with the same content. */
  datatype Hook = Hook(
    isRecording: bool,
    recordingBlob: Option<Blob>,
    recordingError: Option<string>,
    recordingTime: nat,
    permissionStatus: Permission,
    recorder: Option<MediaRecorder>,
    chunks: seq<Blob>,
    streamLive: bool,
    orphanedStreams: nat,
    timerArmed: bool,
    framePending: bool,
    contextOpen: bool,
    mounted: bool,
    blobStamp: nat)

  const InitialHook: Hook :=
    Hook(false, None, None, 0, Prompt, None, [], false, 0, false, false, false, true, 0)

  /** The setup call inside `startRecording` that threw: `new AudioContext()`,
      the analyser graph, `new MediaRecorder(...)`, or `recorder.start(1000)`. */
  datatype SetupStage = ContextCreation | GraphWiring | RecorderCreation | RecorderStart

  /** How a `startRecording` call ends: every call succeeded (with whether
      the new recorder has `pause`/`resume`), `getUserMedia` rejected, or
      a later setup call
      threw. `message` is the thrown error's `message`, "" when it has none. */
  datatype StartOutcome =
    | Started(pauseSupported: bool)
    | AcquireFailed(message: string)
    | SetupFailed(stage: SetupStage, message: string)

  /** How the permission probe's `getUserMedia` ends. */
  datatype AccessOutcome = AccessGranted | AccessFailed(message: string)

  datatype Event =
    | Start(start: StartOutcome)
    | DataAvailable(chunk: Blob)
    | Tick
    | Stop
    | TracksEnded
    | OnStop
    | OnError(message: string)
    | Pause
    | Resume
    | Cancel
    | Clear
    | RequestPermission(access: AccessOutcome)
    | Unmount

  /** Some candidate is supported, and `MediaRecorder` exists to ask. */
  predicate AnyCandidateSupported(env: Environment) {
    env.mediaRecorder
    && exists i :: 0 <= i < |AudioUtils.Candidates| && env.isTypeSupported(AudioUtils.Candidates[i])
  }

  /** `getBestSupportedMimeType() || 'audio/webm'`: the first supported
      candidate in preference order, else the `audio/webm` default. */
  function SessionMimeType(env: Environment): (m: string)
    ensures m == "audio/webm" || (m in AudioUtils.Candidates && env.isTypeSupported(m))
    ensures AnyCandidateSupported(env) ==>
              exists k :: 0 <= k < |AudioUtils.Candidates| && AudioUtils.Candidates[k] == m
                          && env.isTypeSupported(m)
                          && forall j :: 0 <= j < k ==> !env.isTypeSupported(AudioUtils.Candidates[j])
    ensures !AnyCandidateSupported(env) ==> m == "audio/webm"
  {
    var best := AudioUtils.BestSupportedMimeType(env);
    if best.Some? then best.value else "audio/webm"
  }

  /** `getUserMedia` resolved: `streamRef` now holds the new stream; a stream
      it held before and never stopped is lost. */
  function Acquire(h: Hook): (r: Hook)
    ensures r.streamLive
    ensures r.orphanedStreams == h.orphanedStreams + (if h.streamLive then 1 else 0)
  {
    h.(streamLive := true, orphanedStreams := h.orphanedStreams + (if h.streamLive then 1 else 0))
  }

  /** The `catch` of `startRecording`. */
  function StartFailed(h: Hook, message: string): Hook {
    h.(recordingError := Some(OrElse(message, "Failed to start recording")), permissionStatus := Denied)
  }

  /** `startRecording`. Whatever the outcome, the blob (content and object),
      the mount and the frame flag are untouched. */
  function StartRecording(env: Environment, h: Hook, outcome: StartOutcome): (r: Hook)
    ensures r == h.(isRecording := r.isRecording, recordingError := r.recordingError,
                    recordingTime := r.recordingTime, permissionStatus := r.permissionStatus,
                    recorder := r.recorder, chunks := r.chunks, streamLive := r.streamLive,
                    orphanedStreams := r.orphanedStreams, timerArmed := r.timerArmed,
                    contextOpen := r.contextOpen)
    ensures h.isRecording ==> r == h
    ensures !h.isRecording && outcome.Started? ==>
              r.isRecording && r.chunks == [] && r.recordingError.None? && r.recordingTime == 0
              && r.permissionStatus == Granted && r.timerArmed && r.streamLive && r.contextOpen
              && r.recorder == Some(MediaRecorder(Recording, outcome.pauseSupported, SessionMimeType(env), false))
              && r.recordingBlob == h.recordingBlob
              && r.orphanedStreams == h.orphanedStreams + (if h.streamLive then 1 else 0)
    ensures !h.isRecording && !outcome.Started? ==>
              !r.isRecording && r.timerArmed == h.timerArmed && r.framePending == h.framePending
              && r.recordingError == Some(OrElse(outcome.message, "Failed to start recording"))
              && r.permissionStatus == Denied
              && r.recordingBlob == h.recordingBlob && r.recordingTime == h.recordingTime
    ensures !h.isRecording && outcome.AcquireFailed? ==>
              r.streamLive == h.streamLive && r.recorder == h.recorder && r.chunks == h.chunks
              && r.contextOpen == h.contextOpen && r.orphanedStreams == h.orphanedStreams
    ensures !h.isRecording && outcome.SetupFailed? ==>
              r.streamLive && r.orphanedStreams == h.orphanedStreams + (if h.streamLive then 1 else 0)
    ensures !h.isRecording && outcome.SetupFailed? && outcome.stage != RecorderStart ==>
              r.recorder == h.recorder && r.chunks == h.chunks
    ensures !h.isRecording && outcome.SetupFailed? && outcome.stage == RecorderStart ==>
              r.chunks == [] && r.recorder.Some? && !Active(r.recorder.value)
  {
    if h.isRecording then h
    else
      match outcome
      case AcquireFailed(message) => StartFailed(h, message)
      case SetupFailed(stage, message) => SetupFailure(h, stage, message, SessionMimeType(env))
      case Started(pauseSupported) => Opened(h, pauseSupported, SessionMimeType(env))
  }

  /** A setup call after `getUserMedia` threw: the stream is held, the
      context exists unless its creation was what threw, and a recorder
      exists (inactive, with no chunks) only if `start` was what threw. */
  function SetupFailure(h: Hook, stage: SetupStage, message: string, mime: string): (r: Hook)
    ensures r == h.(recordingError := r.recordingError, permissionStatus := r.permissionStatus,
                    recorder := r.recorder, chunks := r.chunks, streamLive := r.streamLive,
                    orphanedStreams := r.orphanedStreams, contextOpen := r.contextOpen)
    ensures r.orphanedStreams == h.orphanedStreams + (if h.streamLive then 1 else 0)
    ensures r.streamLive && r.isRecording == h.isRecording
    ensures r.timerArmed == h.timerArmed && r.framePending == h.framePending && r.mounted == h.mounted
    ensures r.recordingError == Some(OrElse(message, "Failed to start recording")) && r.permissionStatus == Denied
    ensures r.recordingBlob == h.recordingBlob && r.recordingTime == h.recordingTime
    ensures stage != RecorderStart ==> r.recorder == h.recorder && r.chunks == h.chunks
    ensures stage == RecorderStart ==> r.chunks == [] && r.recorder == Some(MediaRecorder(Inactive, false, mime, false))
    ensures stage != ContextCreation ==> r.contextOpen
  {
    var acquired := Acquire(h);
    var wired := if stage == ContextCreation then acquired else acquired.(contextOpen := true);
    var created :=
      if stage == RecorderStart then
        wired.(recorder := Some(MediaRecorder(Inactive, false, mime, false)), chunks := [])
      else wired;
    StartFailed(created, message)
  }

  /** Every setup call succeeded: a new session. */
  function Opened(h: Hook, pauseSupported: bool, mime: string): (r: Hook)
    ensures r == h.(isRecording := r.isRecording, recordingError := r.recordingError,
                    recordingTime := r.recordingTime, permissionStatus := r.permissionStatus,
                    recorder := r.recorder, chunks := r.chunks, streamLive := r.streamLive,
                    orphanedStreams := r.orphanedStreams, timerArmed := r.timerArmed,
                    contextOpen := r.contextOpen)
    ensures r.orphanedStreams == h.orphanedStreams + (if h.streamLive then 1 else 0)
    ensures r.isRecording && r.chunks == [] && r.recordingError.None? && r.recordingTime == 0
    ensures r.permissionStatus == Granted && r.timerArmed && r.streamLive && r.contextOpen
    ensures r.framePending == h.framePending && r.mounted == h.mounted
    ensures r.recorder == Some(MediaRecorder(Recording, pauseSupported, mime, false))
    ensures r.recordingBlob == h.recordingBlob
  {
    Acquire(h).(
      contextOpen := true,
      recorder := Some(MediaRecorder(Recording, pauseSupported, mime, false)),
      chunks := [],
      isRecording := true,
      recordingError := None,
      recordingTime := 0,
      permissionStatus := Granted,
      timerArmed := true)
  }

  /** `MediaRecorder.stop()`: an active recorder becomes inactive and its
      `stop` event is queued; an inactive one is left as it is. */
  function RecorderStop(m: MediaRecorder): (r: MediaRecorder)
    ensures r.state == Inactive
    ensures m.state != Inactive ==> r.stopQueued
    ensures m.state == Inactive ==> r == m
    ensures r.pauseSupported == m.pauseSupported && r.mimeType == m.mimeType
  {
    if m.state == Inactive then m else m.(state := Inactive, stopQueued := true)
  }

  /** `ondataavailable`: empty chunks are dropped. Delivered only by a
      recorder that is recording, paused, or stopping. */
  function OnDataAvailable(h: Hook, chunk: Blob): (r: Hook)
    ensures (h.recorder.Some? && Active(h.recorder.value) && chunk.Size() > 0) ==>
              r == h.(chunks := h.chunks + [chunk])
    ensures !(h.recorder.Some? && Active(h.recorder.value) && chunk.Size() > 0) ==> r == h
  {
    if h.recorder.Some? && Active(h.recorder.value) && chunk.Size() > 0 then
      h.(chunks := h.chunks + [chunk])
    else h
  }

  /** The interval callback: one more second, whatever the recorder's state. */
  function OnTimerTick(h: Hook): (r: Hook)
    ensures h.timerArmed ==> r == h.(recordingTime := h.recordingTime + 1)
    ensures !h.timerArmed ==> r == h
  {
    if h.timerArmed then h.(recordingTime := h.recordingTime + 1) else h
  }

  /** `stopRecording`. */
  function StopRecording(h: Hook): (r: Hook)
    ensures h.recorder.Some? && h.isRecording ==> r == h.(recorder := Some(RecorderStop(h.recorder.value)))
    ensures !(h.recorder.Some? && h.isRecording) ==> r == h
  {
    if h.recorder.Some? && h.isRecording then h.(recorder := Some(RecorderStop(h.recorder.value)))
    else h
  }

  /** Every track the recorder records has ended (the microphone was
      unplugged or its permission revoked): the browser stops the recorder by
      itself, with no `stop()` call and no `isRecording` guard, and queues
      its `stop` event. An inactive or missing recorder is not affected. */
  function RecorderEnded(h: Hook): (r: Hook)
    ensures h.recorder.Some? ==>
              r == h.(recorder := Some(h.recorder.value.(
                        state := Inactive,
                        stopQueued := h.recorder.value.stopQueued || h.recorder.value.state != Inactive)))
    ensures h.recorder.None? ==> r == h
  {
    match h.recorder
    case None => h
    case Some(m) => h.(recorder := Some(RecorderStop(m)))
  }

  /** `onstop`: the chunks become the blob, tagged with the session's MIME
      type; the stream, timer and animation frame are released and the
      session ends. The audio context stays open. Delivered once for each
      stop, whether `stop()` requested it or the recorder's tracks ended. */
  function OnStopped(h: Hook): (r: Hook)
    ensures h.recorder.Some? && h.recorder.value.stopQueued ==>
              r.recordingBlob == Some(NewBlob(h.chunks, h.recorder.value.mimeType))
              && !r.isRecording && !r.streamLive && !r.timerArmed && !r.framePending
              && r.contextOpen == h.contextOpen
              && r.recorder == Some(h.recorder.value.(stopQueued := false))
              && r.recordingError == h.recordingError && r.recordingTime == h.recordingTime
              && r.chunks == h.chunks && r.permissionStatus == h.permissionStatus
              && r.blobStamp == h.blobStamp + 1
    ensures h.recorder.Some? && h.recorder.value.stopQueued ==>
              r == h.(recordingBlob := r.recordingBlob, streamLive := false, timerArmed := false,
                      framePending := false, isRecording := false, recorder := r.recorder,
                      blobStamp := r.blobStamp)
    ensures !(h.recorder.Some? && h.recorder.value.stopQueued) ==> r == h
  {
    if h.recorder.Some? && h.recorder.value.stopQueued then
      var m := h.recorder.value;
      h.(recordingBlob := Some(NewBlob(h.chunks, m.mimeType)),
         streamLive := false,
         timerArmed := false,
         framePending := false,
         isRecording := false,
         recorder := Some(m.(stopQueued := false)),
         blobStamp := h.blobStamp + 1)
    else h
  }

  /** `onerror`: the error text is set and, unless the recorder is already
      inactive, it is stopped, so the session ends through `onstop`. */
  function OnErrored(h: Hook, message: string): (r: Hook)
    ensures h.recorder.Some? ==>
              r.recordingError == Some("Recording error: " + OrElse(message, "Unknown error"))
              && r.recorder.Some? && r.recorder.value.state == Inactive
              && (h.recorder.value.state != Inactive ==> r.recorder.value.stopQueued)
              && r == h.(recordingError := r.recordingError, recorder := r.recorder)
    ensures h.recorder.Some? ==>
              r.recorder.value
              == h.recorder.value.(state := Inactive,
                                   stopQueued := h.recorder.value.stopQueued || h.recorder.value.state != Inactive)
    ensures h.recorder.None? ==> r == h
  {
    match h.recorder
    case None => h
    case Some(m) =>
      h.(recordingError := Some("Recording error: " + OrElse(message, "Unknown error")),
         recorder := Some(if m.state != Inactive then RecorderStop(m) else m))
  }

  /** The guard of `pauseRecording`: a recorder that is recording, during
      a session, with a `pause` method. */
  predicate CanPause(h: Hook) {
    h.recorder.Some? && h.isRecording && h.recorder.value.state == Recording && h.recorder.value.pauseSupported
  }

  /** The guard of `resumeRecording`: a paused recorder with a `resume` method. */
  predicate CanResume(h: Hook) {
    h.recorder.Some? && h.recorder.value.state == Paused && h.recorder.value.pauseSupported
  }

  /** `pauseRecording`: the timer is not touched. */
  function PauseRecording(h: Hook): (r: Hook)
    ensures CanPause(h) ==> r == h.(recorder := Some(h.recorder.value.(state := Paused)))
    ensures !CanPause(h) ==> r == h
    ensures r.timerArmed == h.timerArmed && r.recordingTime == h.recordingTime
  {
    if CanPause(h) then h.(recorder := Some(h.recorder.value.(state := Paused))) else h
  }

  /** `resumeRecording`: no check of `isRecording`; the timer is not touched. */
  function ResumeRecording(h: Hook): (r: Hook)
    ensures CanResume(h) ==> r == h.(recorder := Some(h.recorder.value.(state := Recording)))
    ensures !CanResume(h) ==> r == h
    ensures r.timerArmed == h.timerArmed && r.recordingTime == h.recordingTime
  {
    if CanResume(h) then h.(recorder := Some(h.recorder.value.(state := Recording))) else h
  }

  /** Pausing and then resuming, with nothing in between, restores the
      exact prior state. */
  lemma PauseResume(h: Hook)
    requires CanPause(h)
    ensures ResumeRecording(PauseRecording(h)) == h
  {
  }

  /** `cancelRecording`: stops the recorder and clears the blob now; the
      blob `onstop` assembles later is set all the same. */
  function CancelRecording(h: Hook): (r: Hook)
    ensures h.recorder.Some? && h.isRecording ==>
              r == h.(recorder := Some(RecorderStop(h.recorder.value)), recordingBlob := None)
    ensures !(h.recorder.Some? && h.isRecording) ==> r == h
  {
    if h.recorder.Some? && h.isRecording then
      h.(recorder := Some(RecorderStop(h.recorder.value)), recordingBlob := None)
    else h
  }

  /** `clearRecording`. */
  function ClearRecording(h: Hook): (r: Hook)
    ensures r == h.(recordingBlob := None)
  {
    h.(recordingBlob := None)
  }

  /** `requestPermission`: the probe's stream is stopped at once, so no
      resource changes hands. */
  function CheckPermission(env: Environment, h: Hook, access: AccessOutcome): (r: Hook)
    ensures r == h.(recordingError := r.recordingError, permissionStatus := r.permissionStatus)
    ensures !AudioUtils.IsAudioRecordingSupported(env) ==>
              r == h.(recordingError := Some("Your browser does not support audio recording"),
                      permissionStatus := Denied)
    ensures AudioUtils.IsAudioRecordingSupported(env) && access.AccessGranted? ==>
              r == h.(recordingError := None, permissionStatus := Granted)
    ensures AudioUtils.IsAudioRecordingSupported(env) && access.AccessFailed? ==>
              r == h.(recordingError := Some(OrElse(access.message, "Failed to access microphone")),
                      permissionStatus := Denied)
  {
    if !AudioUtils.IsAudioRecordingSupported(env) then
      h.(recordingError := Some("Your browser does not support audio recording"), permissionStatus := Denied)
    else
      match access
      case AccessGranted => h.(recordingError := None, permissionStatus := Granted)
      case AccessFailed(message) =>
        h.(recordingError := Some(OrElse(message, "Failed to access microphone")), permissionStatus := Denied)
  }

  /** The unmount cleanup: the current stream, the timer, the frame and the
      context are released; the recorder itself is not stopped. */
  function Unmounted(h: Hook): (r: Hook)
    ensures !r.mounted && !r.streamLive && !r.timerArmed && !r.framePending && !r.contextOpen
    ensures r.orphanedStreams == h.orphanedStreams && r.recorder == h.recorder
    ensures r.isRecording == h.isRecording && r.recordingBlob == h.recordingBlob
  {
    h.(streamLive := false, timerArmed := false, framePending := false, contextOpen := false, mounted := false)
  }

  /** One event. After unmount the hook's state is gone and nothing more
      happens to it. */
  function Step(env: Environment, h: Hook, e: Event): (r: Hook)
    ensures !h.mounted ==> r == h
  {
    if !h.mounted then h
    else
      match e
      case Start(outcome) => StartRecording(env, h, outcome)
      case DataAvailable(chunk) => OnDataAvailable(h, chunk)
      case Tick => OnTimerTick(h)
      case Stop => StopRecording(h)
      case TracksEnded => RecorderEnded(h)
      case OnStop => OnStopped(h)
      case OnError(message) => OnErrored(h, message)
      case Pause => PauseRecording(h)
      case Resume => ResumeRecording(h)
      case Cancel => CancelRecording(h)
      case Clear => ClearRecording(h)
      case RequestPermission(access) => CheckPermission(env, h, access)
      case Unmount => Unmounted(h)
  }

  function Run(env: Environment, h: Hook, events: seq<Event>): Hook
    decreases |events|
  {
    if events == [] then h else Run(env, Step(env, h, events[0]), events[1..])
  }

  lemma RunAppend(env: Environment, h: Hook, a: seq<Event>, b: seq<Event>)
    ensures Run(env, h, a + b) == Run(env, Run(env, h, a), b)
    decreases |a|
  {
    if a == [] {
      assert a + b == b;
    } else {
      assert (a + b)[0] == a[0];
      assert (a + b)[1..] == a[1..] + b;
      RunAppend(env, Step(env, h, a[0]), a[1..], b);
    }
  }

  lemma RunOne(env: Environment, h: Hook, e: Event)
    ensures Run(env, h, [e]) == Step(env, h, e)
  {
    assert [e][1..] == [];
  }

  // ---------------------------------------------------------------------
  // The invariant

  /** What every reachable state satisfies: the session flag agrees with the
      recorder and the timer; a live session holds its stream and context;
      a queued stop belongs to an inactive recorder; only a recorder with
      `pause` is ever paused; no animation frame is ever requested; after
      unmount nothing is held. */
  predicate Inv(h: Hook) {
    && (h.isRecording <==> h.recorder.Some? && Active(h.recorder.value))
    && (h.timerArmed <==> h.isRecording && h.mounted)
    && !h.framePending
    && (h.isRecording && h.mounted ==> h.streamLive && h.contextOpen)
    && (h.recorder.Some? && h.recorder.value.stopQueued ==> h.recorder.value.state == Inactive)
    && (h.recorder.Some? && h.recorder.value.state == Paused ==> h.recorder.value.pauseSupported)
    && (!h.mounted ==> !h.streamLive && !h.timerArmed && !h.framePending && !h.contextOpen)
  }

  lemma InitialInv()
    ensures Inv(InitialHook)
  {
  }

  lemma StartInv(env: Environment, h: Hook, outcome: StartOutcome)
    requires Inv(h) && h.mounted
    ensures Inv(Step(env, h, Start(outcome)))
  {
    var r := StartRecording(env, h, outcome);
    assert Step(env, h, Start(outcome)) == r;
  }

  lemma StopInv(env: Environment, h: Hook)
    requires Inv(h) && h.mounted
    ensures Inv(Step(env, h, Stop)) && Inv(Step(env, h, Cancel))
  {
    assert Step(env, h, Stop) == StopRecording(h);
    assert Step(env, h, Cancel) == CancelRecording(h);
  }

  lemma OnStoppedInv(env: Environment, h: Hook)
    requires Inv(h) && h.mounted
    ensures Inv(Step(env, h, OnStop)) && Inv(Step(env, h, TracksEnded))
  {
    assert Step(env, h, OnStop) == OnStopped(h);
    assert Step(env, h, TracksEnded) == RecorderEnded(h);
  }

  lemma OnErroredInv(env: Environment, h: Hook, message: string)
    requires Inv(h) && h.mounted
    ensures Inv(Step(env, h, OnError(message)))
  {
    assert Step(env, h, OnError(message)) == OnErrored(h, message);
  }

  lemma PauseResumeInv(env: Environment, h: Hook)
    requires Inv(h) && h.mounted
    ensures Inv(Step(env, h, Pause)) && Inv(Step(env, h, Resume))
  {
    assert Step(env, h, Pause) == PauseRecording(h);
    assert Step(env, h, Resume) == ResumeRecording(h);
  }

  lemma DataInv(env: Environment, h: Hook, chunk: Blob)
    requires Inv(h) && h.mounted
    ensures Inv(Step(env, h, DataAvailable(chunk))) && Inv(Step(env, h, Tick))
  {
    assert Step(env, h, DataAvailable(chunk)) == OnDataAvailable(h, chunk);
    assert Step(env, h, Tick) == OnTimerTick(h);
  }

  lemma ClearInv(env: Environment, h: Hook)
    requires Inv(h) && h.mounted
    ensures Inv(Step(env, h, Clear))
  {
    assert Step(env, h, Clear) == ClearRecording(h);
  }

  lemma PermissionInv(env: Environment, h: Hook, access: AccessOutcome)
    requires Inv(h) && h.mounted
    ensures Inv(Step(env, h, RequestPermission(access)))
  {
    assert Step(env, h, RequestPermission(access)) == CheckPermission(env, h, access);
  }

  lemma UnmountInv(env: Environment, h: Hook)
    requires Inv(h) && h.mounted
    ensures Inv(Step(env, h, Unmount))
  {
    assert Step(env, h, Unmount) == Unmounted(h);
  }

  lemma StepInv(env: Environment, h: Hook, e: Event)
    requires Inv(h)
    ensures Inv(Step(env, h, e))
  {
    if h.mounted {
      match e
      case Start(outcome) => StartInv(env, h, outcome);
      case Stop => StopInv(env, h);
      case Cancel => StopInv(env, h);
      case OnStop => OnStoppedInv(env, h);
      case TracksEnded => OnStoppedInv(env, h);
      case OnError(message) => OnErroredInv(env, h, message);
      case Pause => PauseResumeInv(env, h);
      case Resume => PauseResumeInv(env, h);
      case DataAvailable(chunk) => DataInv(env, h, chunk);
      case Tick => DataInv(env, h, Blob([], ""));
      case Clear => ClearInv(env, h);
      case RequestPermission(access) => PermissionInv(env, h, access);
      case Unmount => UnmountInv(env, h);
    }
  }

  lemma {:induction false} RunInv(env: Environment, h: Hook, events: seq<Event>)
    requires Inv(h)
    ensures Inv(Run(env, h, events))
    decreases |events|
  {
    if events != [] {
      StepInv(env, h, events[0]);
      RunInv(env, Step(env, h, events[0]), events[1..]);
    }
  }

  /** Whenever a session ends, its stream, timer and animation frame are
      released; the audio context is left as it was. */
  lemma SessionEndReleases(env: Environment, h: Hook, e: Event)
    requires Inv(h) && h.isRecording
    ensures var r := Step(env, h, e);
            !r.isRecording ==> !r.streamLive && !r.timerArmed && !r.framePending
                               && (h.mounted ==> r.contextOpen)
  {
  }

  /** A session can only end through `onstop` or unmount. */
  lemma SessionEndsOnlyByStopEvent(env: Environment, h: Hook, e: Event)
    requires Inv(h) && h.isRecording && h.mounted
    ensures !Step(env, h, e).isRecording ==> e.OnStop?
  {
  }

  /** `startRecording` does nothing while a session is on. */
  lemma StartWhileRecording(env: Environment, h: Hook, outcome: StartOutcome)
    requires h.isRecording
    ensures Step(env, h, Start(outcome)) == h
  {
  }

  // ---------------------------------------------------------------------
  // Chunks

  /** The chunks of non-zero size, in order. */
  function NonEmpty(chunks: seq<Blob>): (r: seq<Blob>)
    ensures forall i :: 0 <= i < |r| ==> r[i].Size() > 0
    ensures |r| <= |chunks|
  {
    if chunks == [] then []
    else (if chunks[0].Size() > 0 then [chunks[0]] else []) + NonEmpty(chunks[1..])
  }

  function Deliveries(chunks: seq<Blob>): (events: seq<Event>)
    ensures |events| == |chunks|
    ensures forall i :: 0 <= i < |chunks| ==> events[i] == DataAvailable(chunks[i])
  {
    if chunks == [] then [] else [DataAvailable(chunks[0])] + Deliveries(chunks[1..])
  }

  /** What one delivery adds to the chunks: nothing when the chunk is empty. */
  function Kept(chunk: Blob): seq<Blob> {
    if chunk.Size() > 0 then [chunk] else []
  }

  lemma DeliverOne(env: Environment, h: Hook, chunk: Blob)
    requires h.mounted && h.recorder.Some? && Active(h.recorder.value)
    ensures Step(env, h, DataAvailable(chunk)) == h.(chunks := h.chunks + Kept(chunk))
  {
  }

  lemma DeliveriesCons(chunks: seq<Blob>)
    requires chunks != []
    ensures Deliveries(chunks) == [DataAvailable(chunks[0])] + Deliveries(chunks[1..])
    ensures NonEmpty(chunks) == Kept(chunks[0]) + NonEmpty(chunks[1..])
  {
  }

  /** While the recorder is active, delivered chunks are kept in arrival
      order, the empty ones dropped, and nothing else changes. */
  lemma {:induction false} CollectChunks(env: Environment, h: Hook, chunks: seq<Blob>)
    requires h.mounted && h.recorder.Some? && Active(h.recorder.value)
    ensures Run(env, h, Deliveries(chunks)) == h.(chunks := h.chunks + NonEmpty(chunks))
    decreases |chunks|
  {
    if chunks == [] {
      assert h.chunks + NonEmpty(chunks) == h.chunks;
    } else {
      var next := h.(chunks := h.chunks + Kept(chunks[0]));
      DeliveriesCons(chunks);
      DeliverOne(env, h, chunks[0]);
      RunAppend(env, h, [DataAvailable(chunks[0])], Deliveries(chunks[1..]));
      RunOne(env, h, DataAvailable(chunks[0]));
      CollectChunks(env, next, chunks[1..]);
      assert next.chunks + NonEmpty(chunks[1..]) == h.chunks + NonEmpty(chunks);
    }
  }

  /** Opening a session and collecting chunks. */
  lemma SessionOpens(env: Environment, h: Hook, pauseSupported: bool, chunks: seq<Blob>)
    requires Inv(h) && h.mounted && !h.isRecording
    ensures var r := Run(env, h, [Start(Started(pauseSupported))] + Deliveries(chunks));
            r.mounted && r.isRecording && r.contextOpen && r.chunks == NonEmpty(chunks)
            && r.recorder == Some(MediaRecorder(Recording, pauseSupported, SessionMimeType(env), false))
            && r.recordingError.None? && r.permissionStatus == Granted
  {
    var e := Start(Started(pauseSupported));
    var h1 := Step(env, h, e);
    RunOne(env, h, e);
    RunAppend(env, h, [e], Deliveries(chunks));
    CollectChunks(env, h1, chunks);
    assert h1.chunks + NonEmpty(chunks) == NonEmpty(chunks);
  }

  /** Stopping a session: `stop()`, the last chunks, `onstop`. */
  lemma SessionCloses(env: Environment, h: Hook, chunks: seq<Blob>)
    requires h.mounted && h.isRecording && h.recorder.Some? && h.recorder.value.state != Inactive
    ensures var r := Run(env, h, [Stop] + Deliveries(chunks) + [OnStop]);
            r.recordingBlob == Some(NewBlob(h.chunks + NonEmpty(chunks), h.recorder.value.mimeType))
            && !r.isRecording && !r.streamLive && !r.timerArmed && !r.framePending
            && r.contextOpen == h.contextOpen && r.recordingError == h.recordingError
            && r.permissionStatus == h.permissionStatus
  {
    var h1 := Step(env, h, Stop);
    RunOne(env, h, Stop);
    CollectChunks(env, h1, chunks);
    var h2 := Run(env, h1, Deliveries(chunks));
    RunOne(env, h2, OnStop);
    RunAppend(env, h, [Stop], Deliveries(chunks));
    RunAppend(env, h, [Stop] + Deliveries(chunks), [OnStop]);
  }

  /** A whole session: start, chunks, stop, the final chunks, `onstop`. The
      blob holds the non-empty chunks in order, tagged with the session's
      MIME type, and every session resource but the context is released. */
  lemma SessionBlob(env: Environment, h: Hook, pauseSupported: bool,
                    before: seq<Blob>, after: seq<Blob>)
    requires Inv(h) && h.mounted && !h.isRecording
    ensures var r := Run(env, h, [Start(Started(pauseSupported))] + Deliveries(before)
                                 + ([Stop] + Deliveries(after) + [OnStop]));
            r.recordingBlob == Some(NewBlob(NonEmpty(before) + NonEmpty(after), SessionMimeType(env)))
            && !r.isRecording && !r.streamLive && !r.timerArmed && !r.framePending && r.contextOpen
            && r.recordingError.None? && r.permissionStatus == Granted
  {
    var opening := [Start(Started(pauseSupported))] + Deliveries(before);
    var closing := [Stop] + Deliveries(after) + [OnStop];
    SessionOpens(env, h, pauseSupported, before);
    SessionCloses(env, Run(env, h, opening), after);
    RunAppend(env, h, opening, closing);
  }

  // ---------------------------------------------------------------------
  // Behaviours of the code as written

  /** The timer keeps counting while the recorder is paused. */
  lemma TicksWhilePaused(env: Environment, h: Hook)
    requires Inv(h) && h.mounted && h.isRecording
    requires h.recorder.value.state == Recording && h.recorder.value.pauseSupported
    ensures var paused := Step(env, h, Pause);
            paused.recorder.value.state == Paused
            && Step(env, paused, Tick).recordingTime == h.recordingTime + 1
  {
  }

  /** Cancelling clears the blob, but the `onstop` that the cancel's own
      `stop()` queued sets the assembled blob again. */
  lemma CancelThenStopRestoresBlob(env: Environment, h: Hook)
    requires Inv(h) && h.mounted && h.isRecording && h.recorder.value.state != Inactive
    ensures var cancelled := Step(env, h, Cancel);
            cancelled.recordingBlob.None?
            && Step(env, cancelled, OnStop).recordingBlob == Some(NewBlob(h.chunks, h.recorder.value.mimeType))
  {
  }

  /** A recorder error mid-session still ends in a blob, with the error text set. */
  lemma ErrorProducesBlob(env: Environment, h: Hook, message: string)
    requires Inv(h) && h.mounted && h.isRecording && h.recorder.value.state != Inactive
    ensures var r := Run(env, h, [OnError(message), OnStop]);
            r.recordingBlob == Some(NewBlob(h.chunks, h.recorder.value.mimeType))
            && r.recordingError == Some("Recording error: " + OrElse(message, "Unknown error"))
            && !r.isRecording
  {
    var e := Step(env, h, OnError(message));
    assert Run(env, h, [OnError(message), OnStop]) == Run(env, e, [OnStop]);
  }

  /** Tracks ending mid-session, whether recording or paused, end the
      session exactly as "Stop" would: the browser's own `stop` runs the
      same `onstop`, so the chunks become the blob and the stream, timer and
      frame are released. Unlike `stopRecording`, nothing checks the
      session flag first. */
  lemma TracksEndedEndsSession(env: Environment, h: Hook)
    requires Inv(h) && h.mounted && h.isRecording
    ensures var r := Run(env, h, [TracksEnded, OnStop]);
            r.recordingBlob == Some(NewBlob(h.chunks, h.recorder.value.mimeType))
            && !r.isRecording && !r.streamLive && !r.timerArmed && r.contextOpen
            && r.recordingError == h.recordingError && r.recordingTime == h.recordingTime
            && r == Run(env, h, [Stop, OnStop])
  {
    var ended := Step(env, h, TracksEnded);
    assert Run(env, h, [TracksEnded, OnStop]) == Run(env, ended, [OnStop]);
    var stopped := Step(env, h, Stop);
    assert Run(env, h, [Stop, OnStop]) == Run(env, stopped, [OnStop]);
    RunOne(env, ended, OnStop);
    RunOne(env, stopped, OnStop);
  }

  /** "Discard" outside a session changes nothing, so the blob stays. */
  lemma CancelOutsideSession(env: Environment, h: Hook)
    requires !h.isRecording
    ensures Step(env, h, Cancel) == h
  {
  }

  /** A start that fails after the microphone was granted leaves the stream
      running with no session; the next start that reaches the microphone
      loses track of it for good. */
  lemma FailedStartLeaksStream(env: Environment, h: Hook, stage: SetupStage, message: string,
                               pauseSupported: bool)
    requires Inv(h) && h.mounted && !h.isRecording && !h.streamLive
    ensures var failed := Step(env, h, Start(SetupFailed(stage, message)));
            failed.streamLive && !failed.isRecording && Inv(failed)
            && Step(env, failed, Start(Started(pauseSupported))).orphanedStreams
               == h.orphanedStreams + 1
  {
    StepInv(env, h, Start(SetupFailed(stage, message)));
  }

  /** Unmount releases what the refs hold, but not orphaned streams. */
  lemma UnmountReleases(env: Environment, h: Hook)
    requires h.mounted
    ensures var r := Step(env, h, Unmount);
            !r.streamLive && !r.timerArmed && !r.framePending && !r.contextOpen
            && r.orphanedStreams == h.orphanedStreams
  {
  }
}
