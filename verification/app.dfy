/** The top-level view of `src/App.jsx`: whether the recorder section is
    open, the title being typed, and the hand-off of a finished recording
    into the message store. */
module App {

  import opened Common
  import opened Browser
  import Text
  import VoiceMessages

  datatype AppState = AppState(
    showRecorder: bool,
    recordingTitle: string,
    messages: seq<VoiceMessages.Message>)

  const InitialApp: AppState := AppState(false, "", [])

  /** The title a saved recording gets: the typed title, or
      `Voice Message <n>` where n is one more than the messages so far. */
  function DefaultTitle(recordingTitle: string, count: nat): (t: string)
    ensures recordingTitle != "" ==> t == recordingTitle
    ensures recordingTitle == "" ==> t == "Voice Message " + Text.NatToString(count + 1)
  {
    OrElse(recordingTitle, "Voice Message " + Text.NatToString(count + 1))
  }

  /** `handleRecordingComplete(blob, duration)`: store the message, close the
      recorder, clear the title. The clock readings stand for `Date.now()`. */
  function HandleRecordingComplete(app: AppState, blob: Blob, duration: int,
                                   idClock: nat, stampClock: nat): (r: AppState)
    ensures |r.messages| == |app.messages| + 1
    ensures r.messages[..|app.messages|] == app.messages
    ensures var m := r.messages[|app.messages|];
            m.audioBlob == blob && m.duration == Some(duration) && m.timestamp == stampClock
            && (app.recordingTitle != "" ==> m.title == app.recordingTitle)
            && (app.recordingTitle == "" ==>
                  m.title == "Voice Message " + Text.NatToString(|app.messages| + 1))
    ensures !r.showRecorder && r.recordingTitle == ""
  {
    var title := DefaultTitle(app.recordingTitle, |app.messages|);
    var added := VoiceMessages.AddMessage(app.messages, blob, Some(title), Some(Some(duration)),
                                          idClock, stampClock);
    AppState(false, "", added.messages)
  }

  /** "Record New Message". */
  function OpenRecorder(app: AppState): (r: AppState)
    ensures r.showRecorder
    ensures r.recordingTitle == app.recordingTitle && r.messages == app.messages
  {
    app.(showRecorder := true)
  }

  /** "Cancel" under the recorder; the typed title is kept. */
  function CloseRecorder(app: AppState): (r: AppState)
    ensures !r.showRecorder
    ensures r.recordingTitle == app.recordingTitle && r.messages == app.messages
  {
    app.(showRecorder := false)
  }

  /** The title input's `onChange`. */
  function EditTitle(app: AppState, text: string): (r: AppState)
    ensures r.recordingTitle == text
    ensures r.showRecorder == app.showRecorder && r.messages == app.messages
  {
    app.(recordingTitle := text)
  }

  /** What the main area shows: the recorder section or the button that opens it. */
  datatype Section = RecorderSection | RecordNewButton

  function MainSection(app: AppState): (s: Section)
    ensures s == RecorderSection <==> app.showRecorder
  {
    if app.showRecorder then RecorderSection else RecordNewButton
  }

  /** Opening then closing the recorder leaves the state as it was before,
      whenever it was closed. */
  lemma OpenCloseRestores(app: AppState)
    requires !app.showRecorder
    ensures CloseRecorder(OpenRecorder(app)) == app
  {
  }

  /** Untitled saves are numbered by position: the n-th message saved without
      a title into an empty store is called `Voice Message n`. */
  lemma UntitledSavesNumbered(app: AppState, blob1: Blob, blob2: Blob, d1: int, d2: int,
                              c1: nat, c2: nat, c3: nat, c4: nat)
    requires app.messages == [] && app.recordingTitle == ""
    ensures var a1 := HandleRecordingComplete(app, blob1, d1, c1, c2);
            var a2 := HandleRecordingComplete(a1, blob2, d2, c3, c4);
            a2.messages[0].title == "Voice Message 1" && a2.messages[1].title == "Voice Message 2"
  {
    var a1 := HandleRecordingComplete(app, blob1, d1, c1, c2);
    var a2 := HandleRecordingComplete(a1, blob2, d2, c3, c4);
    assert a2.messages[..1] == a1.messages;
    assert Text.NatToString(1) == "1";
    assert Text.NatToString(2) == "2";
  }
}
