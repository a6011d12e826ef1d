/** The playback widget of `src/components/AudioPlayer/AudioPlayer.jsx`:
    its own play flag, the toggle button, the effect that follows an
    external `isPlaying` prop, the end-of-media handler and its time label.
    Calls out of the widget (the `<audio>` element's `play`/`pause` and the
    parent's callbacks) are returned as a list of effects, in call order. */
module AudioPlayer {

  import opened Common
  import opened Text
  import AudioUtils

  /** `hasAudio` is whether the `<audio>` element is mounted, which it is
      exactly when the widget was given a blob. */
  datatype Player = Player(isPlaying: bool, progress: real, currentTime: string, hasAudio: bool)

  datatype Effect = CallPlayStart | CallPlayEnd | AudioPlay | AudioPause

  datatype Reaction = Reaction(player: Player, effects: seq<Effect>)

  function InitialPlayer(hasAudio: bool): Player {
    Player(false, 0.0, "0:00", hasAudio)
  }

  /** `togglePlay`. */
  function TogglePlay(p: Player): (r: Reaction)
    ensures !p.hasAudio ==> r == Reaction(p, [])
    ensures p.hasAudio ==> r.player.isPlaying == !p.isPlaying
    ensures p.hasAudio ==> r.player == p.(isPlaying := !p.isPlaying)
    ensures p.hasAudio && p.isPlaying ==> r.effects == [AudioPause, CallPlayEnd]
    ensures p.hasAudio && !p.isPlaying ==>
              r.effects == [CallPlayStart, AudioPlay]
    ensures r.player.progress == p.progress && r.player.currentTime == p.currentTime
  {
    if !p.hasAudio then Reaction(p, [])
    else if p.isPlaying then Reaction(p.(isPlaying := false), [AudioPause, CallPlayEnd])
    else Reaction(p.(isPlaying := true), [CallPlayStart, AudioPlay])
  }

  /** The effect on `[externalIsPlaying, isPlaying]`: a null prop is ignored;
      otherwise the widget starts or stops to match the prop. The parent's
      callbacks are not called. */
  function SyncExternal(p: Player, external: Option<bool>): (r: Reaction)
    ensures CallPlayStart !in r.effects && CallPlayEnd !in r.effects
    ensures external.None? ==> r == Reaction(p, [])
    ensures external.Some? && p.hasAudio ==> r.player.isPlaying == external.value
    ensures r.player.isPlaying != p.isPlaying ==>
              p.hasAudio && external == Some(r.player.isPlaying)
    ensures r.player.isPlaying == p.isPlaying ==> r == Reaction(p, [])
    ensures r.player.isPlaying != p.isPlaying ==>
              r == Reaction(p.(isPlaying := r.player.isPlaying),
                            if r.player.isPlaying then [AudioPlay] else [AudioPause])
  {
    match external
    case None => Reaction(p, [])
    case Some(want) =>
      if want && !p.isPlaying && p.hasAudio then Reaction(p.(isPlaying := true), [AudioPlay])
      else if !want && p.isPlaying && p.hasAudio then Reaction(p.(isPlaying := false), [AudioPause])
      else Reaction(p, [])
  }

  /** Syncing twice with the same prop does nothing the second time. */
  lemma SyncIdempotent(p: Player, external: Option<bool>)
    ensures var once := SyncExternal(p, external).player;
            SyncExternal(once, external) == Reaction(once, [])
  {
  }

  /** `handleEnded`: back to the start, stopped, and the parent told. */
  function HandleEnded(p: Player): (r: Reaction)
    ensures !r.player.isPlaying && r.player.progress == 0.0 && r.player.currentTime == "0:00"
    ensures r.player.hasAudio == p.hasAudio
    ensures r.effects == [CallPlayEnd]
  {
    Reaction(p.(isPlaying := false, progress := 0.0, currentTime := "0:00"), [CallPlayEnd])
  }

  /** `formatTime`: the same expression as `formatAudioTime`, for whole seconds. */
  function FormatTime(seconds: int): (r: string)
    ensures seconds >= 0 ==> ParseClock(r) == Some(seconds)
    ensures seconds >= 0 ==> IsDecimal(r[..|r| - 3]) && DigitsValue(r[..|r| - 3]) == seconds / 60
  {
    AudioUtils.FormatAudioTime(seconds)
  }

  /** Toggling twice returns the widget to where it was, having paused and
      played the element once each and told the parent once that playback
      started and once that it ended, in the order the first toggle implies. */
  lemma ToggleTwice(p: Player)
    requires p.hasAudio
    ensures var first := TogglePlay(p);
            var second := TogglePlay(first.player);
            second.player == p
            && first.effects + second.effects ==
               (if p.isPlaying then [AudioPause, CallPlayEnd, CallPlayStart, AudioPlay]
                else [CallPlayStart, AudioPlay, AudioPause, CallPlayEnd])
  {
  }

  /** After playback ends, the play button starts the same audio again from
      the beginning: the parent is told first, then the element plays. A
      natural end and a pause leave the parent told the same thing. */
  lemma EndedThenReplay(p: Player)
    requires p.hasAudio && p.isPlaying
    ensures var ended := HandleEnded(p);
            var again := TogglePlay(ended.player);
            again.player.isPlaying && again.player.progress == 0.0 && again.player.currentTime == "0:00"
            && again.effects == [CallPlayStart, AudioPlay]
            && CallPlayEnd in TogglePlay(p).effects && ended.effects == [CallPlayEnd]
  {
  }
}
