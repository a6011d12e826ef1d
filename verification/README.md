# Voice timeline: a Dafny model

This project models a small browser application that records voice
messages and shows them on a timeline. The heart of it is the recording
hook `useAudioRecording`. The hook acquires the microphone, picks a MIME
type, runs a `MediaRecorder`, collects its chunks into one Blob and keeps a
one-second timer. The model also covers:

- the recorder component around the hook: the preview URL, the handlers and what it renders;
- the button bar and the level-meter canvas;
- the playback widget;
- the timeline list, with its sorting and its "currently playing" mark;
- the in-memory message store;
- the top-level view;
- the helpers in `audioUtils.js`: data-URL storage encoding, the `M:SS` label, the MIME-type probe, the input level and the waveform.

## How the model is built

- **The hook.** The hook is a pure state machine, `AudioRecording.Step`, over one record (`AudioRecording.Hook`) that holds its React state and what its refs hold.
  - Each command of the hook is an event, and so is each callback the browser makes: `dataavailable`, `stop`, `error`, the recorder stopping by itself when its tracks end, a timer tick, and the unmount cleanup.
  - Each event runs to completion as one step.
  - What the browser answers is a parameter of the event: whether `getUserMedia` resolved, which setup call threw and with what message, and whether the recorder has `pause`.
  - Resources are flags and counters. `streamLive` is the stream in `streamRef`, until the hook stops it; `orphanedStreams` counts streams that were never stopped and are no longer referenced. The others are the timer, the animation frame and the shared `AudioContext`.
- **The browser.** The browser's capabilities are a `Browser.Environment` value: `navigator.mediaDevices`, `window.MediaRecorder` and `MediaRecorder.isTypeSupported`.
- **The clock.** `Date.now()` readings are parameters.
- **Blobs.** A Blob is its bytes and its `type`.
- **Object URLs.** Object URLs are numbered in the order they are handed out.
- **Base64.** The base64 step of `FileReader.readAsDataURL` and `atob` is the standard alphabet with padding, as in section 4 of RFC 4648 (`Base64` module).
- **JavaScript built-ins.** `split`, `indexOf`, `toString`, `padStart`, `Math.floor` and `%` on negative numbers are in the `Text` module.

Behaviours of the code that the model keeps and proves:

- **Three pieces of session state.** The hook tracks only `isRecording`, the blob and the error text; a failed start shows as `isRecording` false with an error.
- **The timer runs while paused.** The elapsed-seconds timer keeps counting during a pause, because pause never touches the interval (`AudioRecording.TicksWhilePaused`).
- **Cancel keeps the blob.** `cancelRecording` clears the blob at once, but the `onstop` that its own `stop()` queued sets the assembled blob again (`AudioRecording.CancelThenStopRestoresBlob`).
- **A recorder error keeps the blob.** The blob is still built through `onstop` (`AudioRecording.ErrorProducesBlob`).
- **Lost tracks end the session like Stop.** When the microphone goes away, the recorder stops by itself and the same `onstop` builds the blob (`AudioRecording.TracksEndedEndsSession`).
- **A failed setup leaks the stream.** A setup failure after the microphone was granted leaves the stream running, and the next successful start orphans it (`AudioRecording.FailedStartLeaksStream`).
- **No level is ever sampled.** The level loop's first call reads the `isRecording` of the render that created it, which is false. It returns before sampling or requesting a frame, so `audioLevel` stays 0 and no animation frame is ever requested (`AudioRecording.StepInv`).
- **The shared `AudioContext`** is created on first start and closed only by the unmount cleanup.
- **Saving leaks the preview URL.** The application's save callback hides the recorder, so the component unmounts before its preview effect can revoke the saved blob's object URL (`AudioRecorderComponent.SaveInAppLeaksPreviewUrl`).
- **A zero duration shows as "0".** A message whose duration is 0, as when a recording is saved before the first tick, renders the bare number 0 where the duration line would be (`Timeline.DurationLine`).

## Model

| member | source | states |
|---|---|---|
| AudioRecording.CheckPermission | src/hooks/useAudioRecording.js:31-51 | without capture support: the "does not support" error and status denied; granted: error cleared and status granted; rejected: the error's message (or the default text) and status denied; nothing else changes |
| AudioRecording.SessionMimeType | src/hooks/useAudioRecording.js:100 | when the recorder exists and some candidate is supported, the session type is the first supported candidate in preference order; otherwise it is `audio/webm` |
| AudioRecording.Acquire | src/hooks/useAudioRecording.js:87-94 | after `getUserMedia` the ref holds a live stream; a live stream it held before becomes one more orphaned stream |
| AudioRecording.StartRecording | src/hooks/useAudioRecording.js:82-166 | a no-op during a session; whatever the outcome, the blob (its content and which object it is), the mount and the frame flag are untouched; on success a recording session with no chunks, time 0, no error, status granted, timer, stream and context held, and a previously held stream orphaned; on any failure no session, status denied and the error text, with the stream kept if it was acquired and a dead recorder left only when `start` threw |
| AudioRecording.SetupFailure | src/hooks/useAudioRecording.js:94-165 | a setup call that throws after the microphone was granted leaves the stream live (orphaning any earlier one), the context open unless creating it threw, and an inactive recorder with no chunks only when `start(1000)` threw; the session, timer, time, blob and mount are untouched |
| AudioRecording.Opened | src/hooks/useAudioRecording.js:94-160 | a successful start records with the session MIME type, clears chunks, error and time, sets status granted, arms the timer and orphans any earlier stream; the blob, the mount and the frame flag are untouched |
| AudioRecording.RecorderStop | src/hooks/useAudioRecording.js:171 | `stop()` leaves the recorder inactive, queues a `stop` event only if it was active, and keeps its type and pause support |
| AudioRecording.OnDataAvailable | src/hooks/useAudioRecording.js:108-112 | a non-empty chunk from a live recorder is appended; any other delivery changes nothing |
| AudioRecording.OnTimerTick | src/hooks/useAudioRecording.js:158-160 | an armed timer adds exactly one second and nothing else |
| AudioRecording.StopRecording | src/hooks/useAudioRecording.js:169-173 | during a session only the recorder is stopped; otherwise nothing changes |
| AudioRecording.RecorderEnded | src/hooks/useAudioRecording.js:115 | when its tracks end, an active recorder becomes inactive with its `stop` event queued, whatever the session flag; an inactive or missing one is unaffected; nothing else changes |
| AudioRecording.TracksEndedEndsSession | src/hooks/useAudioRecording.js:115-137 | tracks ending mid-session, recording or paused, then `onstop` give exactly what Stop then `onstop` gives: the blob of the chunks, the session over and stream and timer released |
| AudioRecording.OnStopped | src/hooks/useAudioRecording.js:115-137 | after a queued stop, requested or raised by the recorder itself, the blob is the chunks tagged with the session type; the session ends; stream, timer and frame are released; every other field (context, error, time, permission, chunks, orphan count, mount) is kept |
| AudioRecording.OnErrored | src/hooks/useAudioRecording.js:140-148 | sets `Recording error: <message or Unknown error>`; the recorder becomes inactive with a stop queued exactly when it was active, and is otherwise unchanged; nothing else changes; with no recorder nothing changes |
| AudioRecording.PauseRecording | src/hooks/useAudioRecording.js:176-183 | only a recording recorder with `pause`, during a session, becomes paused; the timer and time are never touched |
| AudioRecording.ResumeRecording | src/hooks/useAudioRecording.js:186-192 | only a paused recorder with `resume` goes back to recording, with no session check; the timer is never touched |
| AudioRecording.PauseResume | src/hooks/useAudioRecording.js:176-192 | a pause the guard lets through, followed by a resume, restores the exact prior state |
| AudioRecording.CancelRecording | src/hooks/useAudioRecording.js:195-203 | during a session: stop the recorder and clear the blob; otherwise nothing changes |
| AudioRecording.ClearRecording | src/hooks/useAudioRecording.js:206-208 | drops the blob and changes nothing else |
| AudioRecording.Unmounted | src/hooks/useAudioRecording.js:214-232 | the cleanup releases stream, timer, frame and context but neither stops the recorder nor recovers orphaned streams |
| AudioRecording.InitialInv | src/hooks/useAudioRecording.js:10-23 | the initial hook satisfies the invariant |
| AudioRecording.StepInv | src/hooks/useAudioRecording.js:82-232 | every event preserves the invariant: the session flag matches an active recorder and the armed timer; a live session holds its stream and context; only a recorder with `pause` is paused; no animation frame is ever requested; after unmount nothing is held |
| AudioRecording.RunInv | src/hooks/useAudioRecording.js:82-232 | every event sequence from an invariant state ends in an invariant state |
| AudioRecording.SessionEndReleases | src/hooks/useAudioRecording.js:115-137 | whenever a session ends, its stream, timer and frame are released and, while mounted, the context stays open |
| AudioRecording.SessionEndsOnlyByStopEvent | src/hooks/useAudioRecording.js:115-137 | while mounted, a session ends only through the recorder's `stop` event |
| AudioRecording.StartWhileRecording | src/hooks/useAudioRecording.js:83 | starting during a session changes nothing |
| AudioRecording.DeliverOne | src/hooks/useAudioRecording.js:108-112 | one delivery to a live recorder adds the chunk when it is non-empty and nothing otherwise |
| AudioRecording.CollectChunks | src/hooks/useAudioRecording.js:108-112 | a run of deliveries to a live recorder appends exactly the non-empty chunks, in order, and changes nothing else |
| AudioRecording.SessionOpens | src/hooks/useAudioRecording.js:82-160 | a successful start followed by deliveries leaves a session whose chunks are the non-empty deliveries |
| AudioRecording.SessionCloses | src/hooks/useAudioRecording.js:115-173 | stop, further deliveries and `onstop` give a blob of all kept chunks in order, tagged with the session type, and release the session's resources |
| AudioRecording.SessionBlob | src/hooks/useAudioRecording.js:82-173 | a whole session's blob is the non-empty chunks from before and after `stop()`, in arrival order, tagged with the session type; nothing but the context is left held |
| AudioRecording.TicksWhilePaused | src/hooks/useAudioRecording.js:158-183 | a tick while paused still adds a second |
| AudioRecording.CancelThenStopRestoresBlob | src/hooks/useAudioRecording.js:195-203 | after a cancel the blob is empty, but the queued `onstop` sets the assembled blob again |
| AudioRecording.ErrorProducesBlob | src/hooks/useAudioRecording.js:140-148 | a recorder error mid-session still ends in a blob of the chunks, with the error text set |
| AudioRecording.CancelOutsideSession | src/hooks/useAudioRecording.js:195-203 | cancel outside a session changes nothing |
| AudioRecording.FailedStartLeaksStream | src/hooks/useAudioRecording.js:161-165 | a setup failure leaves a live stream with no session; the next successful start orphans it |
| AudioRecording.UnmountReleases | src/hooks/useAudioRecording.js:214-232 | unmount releases what the refs hold and leaves the orphan count unchanged |
| AudioRecorderComponent.PreviewEffect | src/components/AudioRecorder/AudioRecorder.jsx:131-148 | the previous URL is revoked; with a blob exactly one fresh URL is created and stored; without one the stored URL is cleared |
| AudioRecorderComponent.PreviewEffectInv | src/components/AudioRecorder/AudioRecorder.jsx:131-148 | the effect keeps "the only live URL is the stored one"; afterwards exactly the new URL, or none, is live |
| AudioRecorderComponent.WithHook | src/components/AudioRecorder/AudioRecorder.jsx:131-148 | the preview effect runs exactly when the blob object changes |
| AudioRecorderComponent.WithHookPreviewInv | src/components/AudioRecorder/AudioRecorder.jsx:131-148 | every hook transition with its effect keeps at most one live URL, the stored one |
| AudioRecorderComponent.NewBlobGetsFreshUrl | src/components/AudioRecorder/AudioRecorder.jsx:131-140 | a new blob revokes the old URL and leaves only the new one alive |
| AudioRecorderComponent.Mount | src/components/AudioRecorder/AudioRecorder.jsx:112-120 | permission is probed only while the status is `prompt`; the component becomes ready whatever the answer |
| AudioRecorderComponent.RetryPermission | src/components/AudioRecorder/AudioRecorder.jsx:192 | "Try Again" probes permission and changes nothing else |
| AudioRecorderComponent.HandleStart | src/components/AudioRecorder/AudioRecorder.jsx:150-153 | clears the paused flag and starts through the hook; `isReady` is kept and the preview effect runs exactly when the blob object changed |
| AudioRecorderComponent.HandleStop | src/components/AudioRecorder/AudioRecorder.jsx:155-158 | clears the paused flag and stops through the hook; `isReady` is kept and the preview effect runs exactly when the blob object changed |
| AudioRecorderComponent.HandlePause | src/components/AudioRecorder/AudioRecorder.jsx:160-163 | sets the paused flag whatever the hook does; `isReady` is kept and the preview effect runs exactly when the blob object changed |
| AudioRecorderComponent.HandleResume | src/components/AudioRecorder/AudioRecorder.jsx:165-168 | clears the paused flag and resumes through the hook; `isReady` is kept and the preview effect runs exactly when the blob object changed |
| AudioRecorderComponent.HandleCancel | src/components/AudioRecorder/AudioRecorder.jsx:170-173 | clears the paused flag and cancels through the hook; `isReady` is kept and the preview effect runs exactly when the blob object changed, so a cancel that clears a blob leaves no preview URL alive |
| AudioRecorderComponent.HandleSave | src/components/AudioRecorder/AudioRecorder.jsx:175-181 | under a parent that keeps the recorder mounted, with a blob and a callback: the callback gets the blob and elapsed seconds once, then the blob is cleared, `isReady` and `isPaused` are kept and the preview effect revokes the URL, leaving none alive; otherwise nothing happens |
| AudioRecorderComponent.SaveInApp | src/App.jsx:70-77 | saving inside the application stores the completion, hides the recorder and unmounts it right after the blob is cleared, with the preview URL bookkeeping untouched; without a blob nothing happens |
| AudioRecorderComponent.SaveInAppLeaksPreviewUrl | src/components/AudioRecorder/AudioRecorder.jsx:122-148 | the saved blob's preview URL stays alive after a save inside the application, while a parent that kept the recorder mounted would have had it revoked |
| AudioRecorderComponent.Deliver | src/components/AudioRecorder/AudioRecorder.jsx:131-148 | a browser callback changes the hook, never the component's own flags, and the preview effect runs exactly when the blob object changed |
| AudioRecorderComponent.Unmount | src/components/AudioRecorder/AudioRecorder.jsx:122-127 | unmount runs the hook's cleanup and leaves the URL bookkeeping as it was |
| AudioRecorderComponent.UnmountLeaksPreviewUrl | src/components/AudioRecorder/AudioRecorder.jsx:122-127 | a preview URL alive at unmount stays alive, because the cleanup saw the mount-time value |
| AudioRecorderComponent.StatusLabel | src/components/AudioRecorder/AudioRecorder.jsx:222-229 | the four status texts, one for each combination of session, paused flag and blob |
| AudioRecorderComponent.Render | src/components/AudioRecorder/AudioRecorder.jsx:184-264 | denied screen if and only if permission is denied; unsupported screen if and only if not denied and unsupported; otherwise the main screen's status, time, visualizer flag, preview and buttons, each as a function of the state, and the hook's error text exactly when it is non-empty |
| AudioRecorderComponent.DeniedBeforeUnsupported | src/components/AudioRecorder/AudioRecorder.jsx:184-210 | with permission denied, the denied screen shows even without recording support |
| AudioRecorderComponent.StartDisabledUntilReady | src/components/AudioRecorder/AudioRecorder.jsx:255 | the start button is disabled before the mount effect finishes and enabled after |
| AudioRecorderComponent.PauseLabelWithoutPause | src/components/AudioRecorder/AudioRecorder.jsx:160-163 | pressing Pause on a recorder without `pause` shows "Recording paused" and stops the meter, while the hook keeps recording |
| AudioRecorderComponent.DiscardKeepsBlob | src/components/AudioRecorder/AudioRecorder.jsx:170-173 | "Discard" after a session leaves the blob in place |
| AudioRecorderComponent.SaveStoresMessage | src/App.jsx:70-77 | saving inside the application appends one message with the blob and the elapsed seconds after the existing ones, and clears the recorder's blob |
| RecordingControls.Buttons | src/components/AudioRecorder/RecordingControls.jsx:37-109 | the start button appears if and only if there is neither a session nor a blob; only it can be disabled; a session shows Stop, Pause/Resume by the paused flag, Cancel; a blob shows Save, Discard, Record Again |
| RecordingControls.ExactlyOneGroup | src/components/AudioRecorder/RecordingControls.jsx:37-109 | for every combination of flags exactly one of the three groups renders |
| RecordingControls.FlagsOnlyWhereUsed | src/components/AudioRecorder/RecordingControls.jsx:37-109 | the paused flag matters only during a session; the disabled flag only in the start group |
| AudioVisualizer.Zeros | src/components/AudioRecorder/AudioVisualizer.jsx:25 | the initial window is 50 zeros |
| AudioVisualizer.Advance | src/components/AudioRecorder/AudioVisualizer.jsx:41-44 | while recording the window shifts by one and ends with the new level; otherwise it is unchanged; its length stays 50 |
| AudioVisualizer.BarHeight | src/components/AudioRecorder/AudioVisualizer.jsx:53 | a level in [0, 1] gives a bar between 0 and 80% of the canvas height, reaching both ends |
| AudioVisualizer.Bars | src/components/AudioRecorder/AudioVisualizer.jsx:47-62 | one bar per level, at `index * barWidth`, one pixel narrower than its slot, standing on the bottom edge |
| AudioVisualizer.Draw | src/components/AudioRecorder/AudioVisualizer.jsx:36-68 | a draw advances the window only while recording, draws 50 bars from the new window, and requests another frame if and only if recording |
| AudioVisualizer.BarsWithinCanvas | src/components/AudioRecorder/AudioVisualizer.jsx:51-62 | with levels in [0, 1] every bar lies in the lower 80% of the canvas |
| AudioVisualizer.DrawAllIsSuffix | src/components/AudioRecorder/AudioVisualizer.jsx:41-44 | after drawing levels L while recording, the window is the last 50 entries of the old window followed by L |
| AudioVisualizer.RecentLevels | src/components/AudioRecorder/AudioVisualizer.jsx:25-44 | from the initial window, after at least 50 draws the window is exactly the last 50 levels |
| AudioPlayer.TogglePlay | src/components/AudioPlayer/AudioPlayer.jsx:76-89 | with an audio element, only the play flag flips; pausing calls pause then `onPlayEnd`; playing calls `onPlayStart` then play; without one nothing happens |
| AudioPlayer.ToggleTwice | src/components/AudioPlayer/AudioPlayer.jsx:76-89 | two toggles restore the widget and make each of the four calls once, in the order the first toggle implies |
| AudioPlayer.SyncExternal | src/components/AudioPlayer/AudioPlayer.jsx:64-74 | a null prop is ignored; otherwise the widget follows the prop when it has audio, and never calls the parent; a flip changes only the play flag and calls the element's `play()` or `pause()` exactly once |
| AudioPlayer.SyncIdempotent | src/components/AudioPlayer/AudioPlayer.jsx:64-74 | running the sync effect again with the same prop does nothing |
| AudioPlayer.HandleEnded | src/components/AudioPlayer/AudioPlayer.jsx:105-110 | playback end stops, rewinds to `0:00` and calls `onPlayEnd` exactly once |
| AudioPlayer.EndedThenReplay | src/components/AudioPlayer/AudioPlayer.jsx:76-110 | after playback ends, the play button plays from `0:00` again, telling the parent first; the end tells the parent what a pause would |
| AudioPlayer.FormatTime | src/components/AudioPlayer/AudioPlayer.jsx:120-124 | a copy of `formatAudioTime`; for a non-negative time the label reads back as the seconds, with the whole minutes before the colon |
| Timeline.Insert | src/components/Timeline/Timeline.jsx:242-248 | insertion adds exactly one copy of the element (as a multiset) |
| Timeline.SortMessages | src/components/Timeline/Timeline.jsx:242-248 | the sorted list is a permutation of the messages |
| Timeline.SortMessagesSorted | src/components/Timeline/Timeline.jsx:242-248 | newest-first gives non-increasing timestamps; oldest-first gives non-decreasing |
| Timeline.SortStable | src/components/Timeline/Timeline.jsx:242-248 | messages with equal timestamps keep their relative order |
| Timeline.FormatDuration | src/components/Timeline/Timeline.jsx:219-223 | a copy of `formatAudioTime`; for a non-negative duration the label reads back as the seconds, with the whole minutes before the colon |
| Timeline.HandleDelete | src/components/Timeline/Timeline.jsx:225-231 | the playing mark is cleared if and only if it named the deleted id; the list loses exactly the messages with that id, keeping every other one, duplicates included, in order |
| Timeline.DeleteLeavesNoPlayingCard | src/components/Timeline/Timeline.jsx:225-231 | after a delete the playing mark never names the deleted id; a mark on another message is kept, and that message's card is still shown playing |
| Timeline.HandlePlayStart | src/components/Timeline/Timeline.jsx:233-235 | marks the given id as playing and keeps the sort order |
| Timeline.HandlePlayEnd | src/components/Timeline/Timeline.jsx:237-239 | clears the playing mark and keeps the sort order |
| Timeline.SetSortOrder | src/components/Timeline/Timeline.jsx:256-266 | sets the order and keeps the playing mark |
| Timeline.DurationLine | src/components/Timeline/Timeline.jsx:303-307 | a missing duration shows nothing; a zero duration shows the bare number 0; any other shows the `M:SS` line, which reads back as the duration when positive |
| Timeline.CardOf | src/components/Timeline/Timeline.jsx:291-313 | a card shows the title or `Voice Message` when it is empty, the duration slot, and is playing if and only if its id is marked |
| Timeline.CardsOf | src/components/Timeline/Timeline.jsx:282-321 | one card per message, in list order |
| Timeline.Render | src/components/Timeline/Timeline.jsx:254-324 | sort buttons and cards if and only if there are messages, with the cards following the sorted list; the empty state otherwise |
| Timeline.AtMostOnePlaying | src/components/Timeline/Timeline.jsx:312 | every card marked playing carries the one marked id; no card is marked when nothing plays |
| Timeline.PlayStartStopsOthers | src/components/Timeline/Timeline.jsx:308-313 | after play starts on one id, the players follow their props: only the card with that id plays |
| Timeline.ToggleMarksCard | src/components/Timeline/Timeline.jsx:308-313 | toggling a stopped player calls `onPlayStart` first, which marks its card as playing |
| VoiceMessages.Merge | src/context/VoiceMessagesContext.jsx:35 | each field the update carries replaces the message's field; the others are kept |
| VoiceMessages.AddMessage | src/context/VoiceMessagesContext.jsx:11-22 | appends one message with the first clock reading as id and the second as timestamp, title `''` and duration null by default; earlier messages are unchanged |
| VoiceMessages.DeleteMessage | src/context/VoiceMessagesContext.jsx:25-29 | keeps, in order, exactly the messages with another id; the length drops by the number carrying the id |
| VoiceMessages.DeleteIdempotent | src/context/VoiceMessagesContext.jsx:25-29 | deleting twice is deleting once |
| VoiceMessages.DeleteAbsent | src/context/VoiceMessagesContext.jsx:25-29 | deleting an id no message carries changes nothing |
| VoiceMessages.UpdateMessage | src/context/VoiceMessagesContext.jsx:32-38 | the same length; messages with the id are merged with the update, the others are untouched |
| VoiceMessages.UpdateEmpty | src/context/VoiceMessagesContext.jsx:32-38 | an update with no fields changes nothing |
| VoiceMessages.GetAllMessages | src/context/VoiceMessagesContext.jsx:41-43 | the copy equals the list element by element |
| VoiceMessages.GetMessageById | src/context/VoiceMessagesContext.jsx:46-48 | none if and only if no message has the id; otherwise the first message with it |
| VoiceMessages.FirstMatchInTail | src/context/VoiceMessagesContext.jsx:46-48 | a first match behind a non-matching head is the first match of the whole list |
| VoiceMessages.AddThenGet | src/context/VoiceMessagesContext.jsx:11-48 | a message added under a fresh id is found by that id |
| VoiceMessages.DeleteThenGet | src/context/VoiceMessagesContext.jsx:25-48 | after deleting an id, looking it up finds nothing |
| VoiceMessages.UpdateThenGet | src/context/VoiceMessagesContext.jsx:32-48 | after an update that keeps ids, the lookup finds the merged record of the first match |
| App.DefaultTitle | src/App.jsx:72 | the typed title, or `Voice Message <n>` with n one more than the messages so far |
| App.HandleRecordingComplete | src/App.jsx:70-77 | appends one message with the blob, the duration and the title rule; closes the recorder and clears the title |
| App.UntitledSavesNumbered | src/App.jsx:70-77 | two untitled saves into an empty store are titled `Voice Message 1` and `Voice Message 2` |
| App.OpenRecorder | src/App.jsx:103-109 | shows the recorder and keeps the title and messages |
| App.CloseRecorder | src/App.jsx:98 | hides the recorder and keeps the typed title |
| App.OpenCloseRestores | src/App.jsx:98-109 | opening and then cancelling the recorder restores the state |
| App.EditTitle | src/App.jsx:89-95 | the input replaces the title and nothing else |
| App.MainSection | src/App.jsx:87-111 | the recorder section shows if and only if it is open |
| AudioUtils.BlobToBase64 | src/utils/audioUtils.js:6-16 | the data URL starts with `data:` |
| AudioUtils.Atob | src/utils/audioUtils.js:26 | a decoded binary string has only character codes below 256 |
| AudioUtils.CharCodes | src/utils/audioUtils.js:28-32 | one byte per character, each the character code modulo 256 |
| AudioUtils.ParseDataUrl | src/utils/audioUtils.js:23-35 | an error if and only if `atob` rejects the payload; otherwise a blob of the decoded length with the type between `:` and `;base64,` |
| AudioUtils.Base64ToBlob | src/utils/audioUtils.js:23-35 | the copy loop yields one byte per decoded character with that code; it agrees with the functional definition |
| AudioUtils.DataUrlParts | src/utils/audioUtils.js:24-26 | splitting a blob's data URL recovers its type and its base64 text |
| AudioUtils.AtobEncode | src/utils/audioUtils.js:26-32 | decoding a base64 text and taking codes gives back the encoded bytes |
| AudioUtils.DataUrlRoundTrip | src/utils/audioUtils.js:6-35 | reading back the data URL of a blob whose type has no `:` and no `;base64,` gives the same blob |
| AudioUtils.FormatAudioTime | src/utils/audioUtils.js:42-46 | for non-negative seconds the label reads back as the seconds, with the minutes before the colon and two digits of seconds after it |
| AudioUtils.FilterSupported | src/utils/audioUtils.js:115 | keeps exactly the supported types, in candidate order |
| AudioUtils.FilterHead | src/utils/audioUtils.js:115-124 | the filtered list is empty if and only if nothing is supported; its head is the first supported candidate |
| AudioUtils.SupportedMimeTypes | src/utils/audioUtils.js:101-116 | empty without `MediaRecorder`; otherwise exactly the supported candidates, in order |
| AudioUtils.BestSupportedMimeType | src/utils/audioUtils.js:122-125 | null if and only if there is no recorder or no candidate is supported; otherwise the first supported candidate |
| AudioUtils.SumBounds | src/utils/audioUtils.js:139-142 | the bin sum is at most 255 per bin; it is 0 only for all-zero bins and maximal only for all-255 bins |
| AudioUtils.GetAudioLevel | src/utils/audioUtils.js:132-146 | 0 without an analyser; otherwise the mean bin over 255, in [0, 1], 0 exactly for silence and 1 exactly for full scale |
| AudioUtils.MeanBounds | src/utils/audioUtils.js:144-145 | the normalised mean of values in [0, 255] lies in [0, 1], reaching the ends only at the extremes |
| AudioUtils.AbsSumBound | src/utils/audioUtils.js:64-66 | the magnitude sum of samples in [-1, 1] is at most their number |
| AudioUtils.BlockInRange | src/utils/audioUtils.js:57-65 | with a width at most the sample count every block is non-empty and lies inside the samples |
| AudioUtils.BlockSum | src/utils/audioUtils.js:64-66 | the inner loop sums the magnitudes of exactly one block |
| AudioUtils.GenerateWaveformData | src/utils/audioUtils.js:55-76 | one point per unit of width, point i being the height times block i's mean magnitude |
| AudioUtils.WaveformPointBounds | src/utils/audioUtils.js:55-76 | with samples in [-1, 1] and a non-negative height every point lies in [0, height] |
| Base64.Encode | src/utils/audioUtils.js:14 | the encoding has four characters per started triple, all from the base64 alphabet |
| Base64.Decode | src/utils/audioUtils.js:26 | a decodable text has a length that is a multiple of four |
| Base64.DecodeEncode | src/utils/audioUtils.js:14-26 | decoding an encoding gives back the bytes |
| Browser.NewBlob | src/hooks/useAudioRecording.js:116 | the blob carries the given type and is empty if and only if every part is |
| Text.Split | src/utils/audioUtils.js:24-25 | at least one piece; the whole string when the separator is absent |
| Text.SplitJoin | src/utils/audioUtils.js:24-25 | joining the pieces of a split with the separator gives the string back |
| Text.SplitPiecesFree | src/utils/audioUtils.js:24-25 | no piece of a split contains the separator |
| Text.SplitTwo | src/utils/audioUtils.js:24-25 | splitting `a + sep + b` where neither side contains a non-self-overlapping separator gives `[a, b]` |
| Text.IndexOf | src/utils/audioUtils.js:24 | the first occurrence of the separator, or none if and only if it does not occur |
| Text.NatToStringValue | src/utils/audioUtils.js:45 | the decimal text of a number reads back as that number |
| Text.PadStart2 | src/utils/audioUtils.js:45 | strings of two or more characters are kept; shorter ones are left-padded with `0` to two |
| Text.TruncRem | src/utils/audioUtils.js:44 | the remainder takes the sign of the dividend and lies strictly between minus the divisor and the divisor |
| Text.FloorDiv | src/utils/audioUtils.js:43 | the quotient is the floor: `b*q <= a < b*q + b` |
| Text.ClockRoundTrip | src/utils/audioUtils.js:42-46 | minutes, a colon and two-digit seconds read back as the number of seconds |

## Left out

- The `audioLevel` state and `getAudioLevel` sampling of the level loop (`useAudioRecording.js` lines 69-78) are left out. The loop's first, direct call fails its stale `isRecording` check at line 70, so it never samples, never calls `setAudioLevel` and never requests a frame: `audioLevel` stays 0. The model keeps the frame flag, which the invariant proves is never set.
- The analyser graph's contents, `fftSize` and the constraints passed to `getUserMedia` are left out: they do not change any modelled state.
- Interleavings inside an `await` are not modelled. Each call runs to completion as one step.
- Start outcomes are not tied to the browser's capabilities. Any outcome, success included, is accepted for any `Browser.Environment`, although without `MediaRecorder` the constructor always throws, and without `mediaDevices` the `getUserMedia` call does. This admits more runs than the browser allows, so every property proved for all runs still holds.
- After unmount, every event leaves the hook as it is, because the hook's state is gone.
- Ended tracks are not tracked separately. A stream whose tracks the browser ended counts as live until the hook stops it, so `orphanedStreams` counts streams the hook never stopped, not microphones still capturing.
- `console.error` logging is left out.
- The preview `<audio>` element, the canvas resize handler (`AudioVisualizer.jsx` lines 82-105), `devicePixelRatio` and all styling are left out.
- The player's progress bar, `timeupdate`, `loadedmetadata` and seek arithmetic (`AudioPlayer.jsx` lines 91-118) are left out: they are floating-point media arithmetic. So are its per-render object URL and the URL's cleanup.
- `formatDate` and `formatTime` in the timeline are left out: they depend on the locale.
- `createAudioBufferFromBlob` is left out: it is a host decoder call. `generateWaveformData` takes the first channel's samples directly.
- `testAudioRecording.js` is a diagnostic script and `Button.jsx` is presentation; neither is part of this model.
- The `useVoiceMessages` error for use outside the provider is left out.
- Time values are whole seconds: the hook only ever counts whole seconds. A NaN or fractional duration passed to the formatters is not modelled.
- The store's messages keep `duration` as an optional integer, so a `NaN` duration is not modelled.
- Blob `type` normalisation (lowercasing, and dropping non-ASCII types) is not modelled; the type is kept as given.
- AudioUtils.Atob: a strict base64 decoder stands in for `atob`. It does not strip ASCII whitespace and does not accept missing padding, which browsers forgive.
- AudioUtils.GetAudioLevel: requires a non-empty bin array when an analyser is given. An empty array gives NaN in the source, and an analyser always has at least 16 bins.
- AudioUtils.GenerateWaveformData: requires a width no larger than the sample count. A wider request gives blocks of size 0 and NaN points in the source.
- AudioUtils.GenerateWaveformData: the default arguments `width = 100` and `height = 50` are not modelled. Callers always pass both.
- AudioUtils.DataUrlRoundTrip: requires a type with no `:` and no `;base64,`. Other types do not survive the split in the source either.
