/** The button bar of `src/components/AudioRecorder/RecordingControls.jsx`:
    which buttons are rendered for the flags `isRecording`, `isPaused`,
    `hasRecording` and `disabled`, in order, and which callback each runs. */
module RecordingControls {

  datatype Handler = OnStart | OnStop | OnPause | OnResume | OnCancel | OnSave

  datatype Button = Button(caption: string, handler: Handler, disabled: bool)

  /** The three conditional groups, by the condition that guards each. */
  predicate StartGroupShown(isRecording: bool, hasRecording: bool) {
    !isRecording && !hasRecording
  }

  predicate RecordingGroupShown(isRecording: bool) {
    isRecording
  }

  predicate ReviewGroupShown(isRecording: bool, hasRecording: bool) {
    hasRecording && !isRecording
  }

  /** Only the start button takes the `disabled` prop. */
  function StartGroup(disabled: bool): seq<Button> {
    [Button("Start Recording", OnStart, disabled)]
  }

  function RecordingGroup(isPaused: bool): seq<Button> {
    [Button("Stop", OnStop, false),
     if isPaused then Button("Resume", OnResume, false) else Button("Pause", OnPause, false),
     Button("Cancel", OnCancel, false)]
  }

  const ReviewGroup: seq<Button> :=
    [Button("Save Recording", OnSave, false),
     Button("Discard", OnCancel, false),
     Button("Record Again", OnStart, false)]

  /** The rendered buttons, left to right. */
  function Buttons(isRecording: bool, isPaused: bool, hasRecording: bool, disabled: bool): (r: seq<Button>)
    ensures Button("Start Recording", OnStart, disabled) in r <==> !isRecording && !hasRecording
    ensures forall i :: 0 <= i < |r| && r[i].disabled ==> r[i].caption == "Start Recording" && disabled
    ensures isRecording ==>
              |r| == 3 && r[0].handler == OnStop && r[2].handler == OnCancel
              && (r[1].handler == OnResume <==> isPaused)
              && (r[1].handler == OnPause <==> !isPaused)
    ensures hasRecording && !isRecording ==>
              |r| == 3 && r[0].handler == OnSave && r[1].handler == OnCancel && r[2].handler == OnStart
              && r[0].caption == "Save Recording" && r[1].caption == "Discard" && r[2].caption == "Record Again"
    ensures !isRecording && !hasRecording ==> |r| == 1 && r[0].handler == OnStart
  {
    (if StartGroupShown(isRecording, hasRecording) then StartGroup(disabled) else [])
    + (if RecordingGroupShown(isRecording) then RecordingGroup(isPaused) else [])
    + (if ReviewGroupShown(isRecording, hasRecording) then ReviewGroup else [])
  }

  /** For every combination of flags exactly one of the three groups is
      rendered. */
  lemma ExactlyOneGroup(isRecording: bool, hasRecording: bool)
    ensures StartGroupShown(isRecording, hasRecording) || RecordingGroupShown(isRecording)
            || ReviewGroupShown(isRecording, hasRecording)
    ensures !(StartGroupShown(isRecording, hasRecording) && RecordingGroupShown(isRecording))
    ensures !(StartGroupShown(isRecording, hasRecording) && ReviewGroupShown(isRecording, hasRecording))
    ensures !(RecordingGroupShown(isRecording) && ReviewGroupShown(isRecording, hasRecording))
    ensures Buttons(isRecording, false, hasRecording, false) ==
            (if StartGroupShown(isRecording, hasRecording) then StartGroup(false)
             else if RecordingGroupShown(isRecording) then RecordingGroup(false)
             else ReviewGroup)
  {
  }

  /** `isPaused` and `disabled` matter only in the group that uses them:
      without a session, pausing changes nothing; outside the start group,
      `disabled` changes nothing. */
  lemma FlagsOnlyWhereUsed(isRecording: bool, isPaused: bool, hasRecording: bool, disabled: bool)
    ensures !isRecording ==> Buttons(isRecording, isPaused, hasRecording, disabled) ==
                             Buttons(isRecording, !isPaused, hasRecording, disabled)
    ensures (isRecording || hasRecording) ==> Buttons(isRecording, isPaused, hasRecording, disabled) ==
                                              Buttons(isRecording, isPaused, hasRecording, !disabled)
  {
  }
}
