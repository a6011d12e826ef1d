/** The recorder component of `src/components/AudioRecorder/AudioRecorder.jsx`:
    the hook plus the component's own state (`isReady`, `isPaused`, the
    preview URL), its handlers, the effect that keeps one object URL for the
    current blob, and what it renders. Object URLs are numbered in the
    order `URL.createObjectURL` hands them out. */
module AudioRecorderComponent {

  import opened Common
  import opened Browser
  import AudioUtils
  import RecordingControls
  import AudioRecording
  import App

  type Hook = AudioRecording.Hook

  /** The preview URL in state, the object URLs created and not yet revoked,
      and the number the next `createObjectURL` returns. */
  datatype Preview = Preview(url: Option<nat>, live: set<nat>, nextUrl: nat)

  datatype Recorder = Recorder(hook: Hook, isReady: bool, isPaused: bool, preview: Preview)

  const InitialRecorder: Recorder :=
    Recorder(AudioRecording.InitialHook, false, false, Preview(None, {}, 0))

  /** Which blob object the hook holds: none, or the one with this stamp. */
  function BlobIdentity(h: Hook): Option<nat> {
    if h.recordingBlob.Some? then Some(h.blobStamp) else None
  }

  /** The body of the `[recordingBlob]` effect. */
  function PreviewEffect(p: Preview, hasBlob: bool): (r: Preview)
    ensures hasBlob ==> r.url == Some(p.nextUrl) && r.nextUrl == p.nextUrl + 1
                        && r.live == (if p.url.Some? then p.live - {p.url.value} else p.live) + {p.nextUrl}
    ensures !hasBlob ==> r.url.None? && r.nextUrl == p.nextUrl
                         && r.live == (if p.url.Some? then p.live - {p.url.value} else p.live)
  {
    var afterRevoke := if p.url.Some? then p.live - {p.url.value} else p.live;
    if hasBlob then Preview(Some(p.nextUrl), afterRevoke + {p.nextUrl}, p.nextUrl + 1)
    else Preview(None, afterRevoke, p.nextUrl)
  }

  /** At most one object URL is alive, and it is the one in state; every URL
      number handed out is below `nextUrl`. */
  predicate PreviewInv(p: Preview) {
    && p.live == (if p.url.Some? then {p.url.value} else {})
    && (p.url.Some? ==> p.url.value < p.nextUrl)
  }

  lemma PreviewEffectInv(p: Preview, hasBlob: bool)
    requires PreviewInv(p)
    ensures PreviewInv(PreviewEffect(p, hasBlob))
    ensures hasBlob ==> PreviewEffect(p, hasBlob).live == {p.nextUrl}
    ensures !hasBlob ==> PreviewEffect(p, hasBlob).live == {}
  {
  }

  /** A hook transition followed by the preview effect, which React runs
      when the blob object changed. */
  function WithHook(c: Recorder, h: Hook): (r: Recorder)
    ensures r.hook == h && r.isReady == c.isReady && r.isPaused == c.isPaused
    ensures BlobIdentity(h) == BlobIdentity(c.hook) ==> r.preview == c.preview
    ensures BlobIdentity(h) != BlobIdentity(c.hook) ==>
              r.preview == PreviewEffect(c.preview, h.recordingBlob.Some?)
  {
    var p := if BlobIdentity(h) != BlobIdentity(c.hook) then PreviewEffect(c.preview, h.recordingBlob.Some?)
             else c.preview;
    Recorder(h, c.isReady, c.isPaused, p)
  }

  /** The mount effect: ask for the microphone only while the status is
      still `'prompt'`, then become ready whatever the answer. The probe does
      not touch the blob, so the preview effect does not run. */
  function Mount(env: Environment, c: Recorder, access: AudioRecording.AccessOutcome): (r: Recorder)
    ensures r.isReady
    ensures c.hook.permissionStatus != AudioRecording.Prompt ==> r.hook == c.hook
    ensures c.hook.permissionStatus == AudioRecording.Prompt ==>
              r.hook == AudioRecording.CheckPermission(env, c.hook, access)
    ensures r.isPaused == c.isPaused && r.preview == c.preview
  {
    var h := if c.hook.permissionStatus == AudioRecording.Prompt
             then AudioRecording.CheckPermission(env, c.hook, access) else c.hook;
    c.(hook := h, isReady := true)
  }

  /** The "Try Again" button of the permission screen. */
  function RetryPermission(env: Environment, c: Recorder, access: AudioRecording.AccessOutcome): (r: Recorder)
    ensures r.hook == AudioRecording.CheckPermission(env, c.hook, access)
    ensures r.isReady == c.isReady && r.isPaused == c.isPaused && r.preview == c.preview
  {
    c.(hook := AudioRecording.CheckPermission(env, c.hook, access))
  }

  /** `handleStartRecording`. */
  function HandleStart(env: Environment, c: Recorder, outcome: AudioRecording.StartOutcome): (r: Recorder)
    ensures !r.isPaused
    ensures r.hook == AudioRecording.Step(env, c.hook, AudioRecording.Start(outcome))
    ensures r == WithHook(c.(isPaused := false), r.hook)
  {
    WithHook(c.(isPaused := false), AudioRecording.Step(env, c.hook, AudioRecording.Start(outcome)))
  }

  /** `handleStopRecording`. */
  function HandleStop(env: Environment, c: Recorder): (r: Recorder)
    ensures !r.isPaused
    ensures r.hook == AudioRecording.Step(env, c.hook, AudioRecording.Stop)
    ensures r == WithHook(c.(isPaused := false), r.hook)
  {
    WithHook(c.(isPaused := false), AudioRecording.Step(env, c.hook, AudioRecording.Stop))
  }

  /** `handlePauseRecording`: the flag is set whether or not the hook's
      guard lets the pause through. */
  function HandlePause(env: Environment, c: Recorder): (r: Recorder)
    ensures r.isPaused
    ensures r.hook == AudioRecording.Step(env, c.hook, AudioRecording.Pause)
    ensures r == WithHook(c.(isPaused := true), r.hook)
  {
    WithHook(c.(isPaused := true), AudioRecording.Step(env, c.hook, AudioRecording.Pause))
  }

  /** `handleResumeRecording`. */
  function HandleResume(env: Environment, c: Recorder): (r: Recorder)
    ensures !r.isPaused
    ensures r.hook == AudioRecording.Step(env, c.hook, AudioRecording.Resume)
    ensures r == WithHook(c.(isPaused := false), r.hook)
  {
    WithHook(c.(isPaused := false), AudioRecording.Step(env, c.hook, AudioRecording.Resume))
  }

  /** `handleCancelRecording` (the "Cancel" and "Discard" buttons). A cancel
      that clears a blob makes the preview effect revoke its URL. */
  function HandleCancel(env: Environment, c: Recorder): (r: Recorder)
    ensures !r.isPaused
    ensures r.hook == AudioRecording.Step(env, c.hook, AudioRecording.Cancel)
    ensures r == WithHook(c.(isPaused := false), r.hook)
    ensures PreviewInv(c.preview) && c.hook.recordingBlob.Some? && r.hook.recordingBlob.None? ==>
              r.preview.url.None? && r.preview.live == {}
  {
    WithHook(c.(isPaused := false), AudioRecording.Step(env, c.hook, AudioRecording.Cancel))
  }

  /** What `handleSaveRecording` hands to `onRecordingComplete`. */
  datatype Completion = Completion(blob: Blob, duration: nat)

  datatype Saved = Saved(recorder: Recorder, completed: Option<Completion>)

  /** `handleSaveRecording` under a parent that keeps the recorder on
      screen: with a blob and a callback, the callback gets the blob and the
      elapsed seconds once, and then the blob is cleared and the preview
      effect runs. The application's own callback hides the recorder
      instead; `SaveInApp` is that case. */
  function HandleSave(env: Environment, c: Recorder, hasCallback: bool): (r: Saved)
    ensures c.hook.recordingBlob.Some? && hasCallback ==>
              r.completed == Some(Completion(c.hook.recordingBlob.value, c.hook.recordingTime))
              && r.recorder.hook == AudioRecording.Step(env, c.hook, AudioRecording.Clear)
              && r.recorder == WithHook(c, r.recorder.hook)
    ensures c.hook.recordingBlob.Some? && hasCallback && c.hook.mounted && PreviewInv(c.preview) ==>
              r.recorder.preview.url.None? && r.recorder.preview.live == {}
    ensures !(c.hook.recordingBlob.Some? && hasCallback) ==> r == Saved(c, None)
  {
    if c.hook.recordingBlob.Some? && hasCallback then
      Saved(WithHook(c, AudioRecording.Step(env, c.hook, AudioRecording.Clear)),
            Some(Completion(c.hook.recordingBlob.value, c.hook.recordingTime)))
    else Saved(c, None)
  }

  /** A callback from the browser into the hook (a recorder event or a
      timer tick), with the preview effect that follows. */
  function Deliver(env: Environment, c: Recorder, e: AudioRecording.Event): (r: Recorder)
    requires e.DataAvailable? || e.Tick? || e.TracksEnded? || e.OnStop? || e.OnError?
    ensures r.hook == AudioRecording.Step(env, c.hook, e)
    ensures r.isPaused == c.isPaused && r.isReady == c.isReady
    ensures r == WithHook(c, r.hook)
  {
    WithHook(c, AudioRecording.Step(env, c.hook, e))
  }

  /** Unmounting: the hook's cleanup runs, and the component's own cleanup
      revokes the preview URL it saw at mount, which was none. */
  function Unmount(env: Environment, c: Recorder): (r: Recorder)
    ensures r.hook == AudioRecording.Step(env, c.hook, AudioRecording.Unmount)
    ensures r.preview == c.preview
  {
    c.(hook := AudioRecording.Step(env, c.hook, AudioRecording.Unmount))
  }

  /** The recorder as it was left when it unmounted, and the application. */
  datatype AppSave = AppSave(recorder: Recorder, app: App.AppState)

  /** "Save Recording" inside the application, whose `onRecordingComplete`
      is `handleRecordingComplete`: it stores the message and hides the
      recorder. React batches those updates with the hook's
      `clearRecording`, so the next render unmounts the component and its
      `[recordingBlob]` effect never runs. Without a blob nothing happens. */
  function SaveInApp(env: Environment, c: Recorder, app: App.AppState, idClock: nat, stampClock: nat): (r: AppSave)
    ensures c.hook.recordingBlob.None? ==> r == AppSave(c, app)
    ensures c.hook.recordingBlob.Some? ==>
              var saved := HandleSave(env, c, true);
              var done := saved.completed.value;
              r.app == App.HandleRecordingComplete(app, done.blob, done.duration, idClock, stampClock)
              && r.recorder.hook == AudioRecording.Step(env, saved.recorder.hook, AudioRecording.Unmount)
              && r.recorder.preview == c.preview
              && !r.app.showRecorder
  {
    var saved := HandleSave(env, c, true);
    if saved.completed.None? then AppSave(c, app)
    else
      var done := saved.completed.value;
      AppSave(Unmount(env, c.(hook := saved.recorder.hook)),
              App.HandleRecordingComplete(app, done.blob, done.duration, idClock, stampClock))
  }

  /** Saving inside the application leaves the saved blob's preview URL
      alive, where a parent that kept the recorder mounted would have had it
      revoked by the preview effect. */
  lemma SaveInAppLeaksPreviewUrl(env: Environment, c: Recorder, app: App.AppState, idClock: nat, stampClock: nat)
    requires c.hook.mounted && PreviewInv(c.preview) && c.preview.url.Some? && c.hook.recordingBlob.Some?
    ensures c.preview.url.value in SaveInApp(env, c, app, idClock, stampClock).recorder.preview.live
    ensures !SaveInApp(env, c, app, idClock, stampClock).recorder.hook.mounted
    ensures c.preview.url.value !in HandleSave(env, c, true).recorder.preview.live
  {
    assert AudioRecording.Step(env, c.hook, AudioRecording.Clear).recordingBlob.None?;
    PreviewEffectInv(c.preview, false);
  }

  // ---------------------------------------------------------------------
  // Rendering

  /** The status line under the title. */
  function StatusLabel(isRecording: bool, isPaused: bool, hasBlob: bool): (s: string)
    ensures isRecording && isPaused ==> s == "Recording paused"
    ensures isRecording && !isPaused ==> s == "Recording in progress"
    ensures !isRecording && hasBlob ==> s == "Recording complete"
    ensures !isRecording && !hasBlob ==> s == "Ready to record"
  {
    if isRecording then (if isPaused then "Recording paused" else "Recording in progress")
    else if hasBlob then "Recording complete"
    else "Ready to record"
  }

  datatype Screen =
    | PermissionScreen
    | UnsupportedScreen
    | MainScreen(
        error: Option<string>,
        status: string,
        time: Option<string>,
        visualizerRecording: bool,
        previewSrc: Option<Option<nat>>,
        buttons: seq<RecordingControls.Button>)

  /** The denied screen first, then the unsupported one, then the recorder. */
  function Render(env: Environment, c: Recorder): (s: Screen)
    ensures s.PermissionScreen? <==> c.hook.permissionStatus == AudioRecording.Denied
    ensures s.UnsupportedScreen? <==>
              c.hook.permissionStatus != AudioRecording.Denied && !AudioUtils.IsAudioRecordingSupported(env)
    ensures s.MainScreen? ==>
              && s.status == StatusLabel(c.hook.isRecording, c.isPaused, c.hook.recordingBlob.Some?)
              && (s.time.Some? <==> c.hook.isRecording || c.hook.recordingTime > 0)
              && (s.time.Some? ==> s.time.value == AudioUtils.FormatAudioTime(c.hook.recordingTime))
              && (s.visualizerRecording <==> c.hook.isRecording && !c.isPaused)
              && (s.previewSrc.Some? <==> c.hook.recordingBlob.Some? && !c.hook.isRecording)
              && (s.previewSrc.Some? ==> s.previewSrc.value == c.preview.url)
              && (s.error.Some? <==> c.hook.recordingError.Some? && c.hook.recordingError.value != "")
              && (s.error.Some? ==> s.error == c.hook.recordingError)
              && s.buttons == RecordingControls.Buttons(c.hook.isRecording, c.isPaused,
                                                        c.hook.recordingBlob.Some?, !c.isReady)
  {
    var h := c.hook;
    if h.permissionStatus == AudioRecording.Denied then PermissionScreen
    else if !AudioUtils.IsAudioRecordingSupported(env) then UnsupportedScreen
    else
      MainScreen(
        if h.recordingError.Some? && h.recordingError.value != "" then h.recordingError else None,
        StatusLabel(h.isRecording, c.isPaused, h.recordingBlob.Some?),
        if h.isRecording || h.recordingTime > 0 then Some(AudioUtils.FormatAudioTime(h.recordingTime)) else None,
        h.isRecording && !c.isPaused,
        if h.recordingBlob.Some? && !h.isRecording then Some(c.preview.url) else None,
        RecordingControls.Buttons(h.isRecording, c.isPaused, h.recordingBlob.Some?, !c.isReady))
  }

  // ---------------------------------------------------------------------
  // Properties

  /** The preview invariant survives every handler and callback. */
  lemma WithHookPreviewInv(c: Recorder, h: Hook)
    requires PreviewInv(c.preview)
    ensures PreviewInv(WithHook(c, h).preview)
  {
    PreviewEffectInv(c.preview, h.recordingBlob.Some?);
  }

  /** Once a new blob object arrives, the URL for the old one is revoked and
      exactly one URL, the new one, is alive. */
  lemma NewBlobGetsFreshUrl(c: Recorder, h: Hook)
    requires PreviewInv(c.preview)
    requires h.recordingBlob.Some? && BlobIdentity(h) != BlobIdentity(c.hook)
    ensures var r := WithHook(c, h);
            r.preview.url == Some(c.preview.nextUrl) && r.preview.live == {c.preview.nextUrl}
            && (c.preview.url.Some? ==> c.preview.url.value !in r.preview.live)
  {
    PreviewEffectInv(c.preview, true);
  }

  /** Unmounting leaves a preview URL alive if there was one. */
  lemma UnmountLeaksPreviewUrl(env: Environment, c: Recorder)
    requires PreviewInv(c.preview) && c.preview.url.Some?
    ensures c.preview.url.value in Unmount(env, c).preview.live
  {
  }

  /** Until the mount effect finishes, the start button is disabled; once it
      has, it is enabled. */
  lemma StartDisabledUntilReady(env: Environment, c: Recorder, access: AudioRecording.AccessOutcome)
    requires !c.hook.isRecording && c.hook.recordingBlob.None? && !c.isReady
    ensures RecordingControls.Button("Start Recording", RecordingControls.OnStart, true)
            in RecordingControls.Buttons(c.hook.isRecording, c.isPaused, c.hook.recordingBlob.Some?, !c.isReady)
    ensures var m := Mount(env, c, access);
            !m.hook.isRecording && m.hook.recordingBlob.None? ==>
              RecordingControls.Button("Start Recording", RecordingControls.OnStart, false)
              in RecordingControls.Buttons(m.hook.isRecording, m.isPaused, m.hook.recordingBlob.Some?, !m.isReady)
  {
  }

  /** "Pause" on a recorder without `pause` still shows "Recording paused",
      while the recorder keeps recording and the level meter stops. */
  lemma PauseLabelWithoutPause(env: Environment, c: Recorder)
    requires c.hook.mounted && c.hook.isRecording && c.hook.recorder.Some?
    requires c.hook.recorder.value.state == AudioRecording.Recording && !c.hook.recorder.value.pauseSupported
    requires c.hook.permissionStatus != AudioRecording.Denied && AudioUtils.IsAudioRecordingSupported(env)
    ensures var r := HandlePause(env, c);
            r.hook == c.hook
            && Render(env, r).status == "Recording paused"
            && !Render(env, r).visualizerRecording
  {
  }

  /** "Discard" after a session keeps the blob: the hook ignores a cancel
      outside a session. */
  lemma DiscardKeepsBlob(env: Environment, c: Recorder)
    requires !c.hook.isRecording
    ensures HandleCancel(env, c).hook.recordingBlob == c.hook.recordingBlob
  {
  }

  /** Saving inside the application stores one message with the blob and
      the elapsed time after the ones already there, and leaves the
      recorder without a blob. */
  lemma SaveStoresMessage(env: Environment, c: Recorder, app: App.AppState, idClock: nat, stampClock: nat)
    requires c.hook.mounted && c.hook.recordingBlob.Some?
    ensures var r := SaveInApp(env, c, app, idClock, stampClock);
            r.recorder.hook.recordingBlob.None?
            && |r.app.messages| == |app.messages| + 1
            && r.app.messages[..|app.messages|] == app.messages
            && r.app.messages[|app.messages|].audioBlob == c.hook.recordingBlob.value
            && r.app.messages[|app.messages|].duration == Some(c.hook.recordingTime as int)
  {
  }

  /** The render precedence: with the permission denied, the denied screen
      shows even on a browser without recording support. */
  lemma DeniedBeforeUnsupported(env: Environment, c: Recorder)
    requires c.hook.permissionStatus == AudioRecording.Denied
    ensures Render(env, c) == PermissionScreen
  {
  }
}
