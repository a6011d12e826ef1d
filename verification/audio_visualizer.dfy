/** The level meter of `src/components/AudioRecorder/AudioVisualizer.jsx`:
    a window of the last 50 levels, advanced on each draw while recording,
    drawn as one bar per level. Canvas sizing and styling are not modelled. */
module AudioVisualizer {

  const WindowSize: nat := 50

  /** `Array(50).fill(0)`. */
  function Zeros(n: nat): (w: seq<real>)
    ensures |w| == n && forall i :: 0 <= i < n ==> w[i] == 0.0
  {
    if n == 0 then [] else Zeros(n - 1) + [0.0]
  }

  const InitialWindow: seq<real> := Zeros(WindowSize)

  /** The `shift()` then `push(level)` on the window, done only while recording. */
  function Advance(window: seq<real>, level: real, isRecording: bool): (r: seq<real>)
    requires |window| == WindowSize
    ensures |r| == WindowSize
    ensures isRecording ==> r[WindowSize - 1] == level
                            && forall i :: 0 <= i < WindowSize - 1 ==> r[i] == window[i + 1]
    ensures !isRecording ==> r == window
  {
    if isRecording then window[1..] + [level] else window
  }

  /** One bar of the canvas: left edge, top, width and height. */
  datatype Bar = Bar(x: real, y: real, width: real, height: real)

  /** `level * height * 0.8`. */
  function BarHeight(level: real, height: real): (h: real)
    ensures 0.0 <= level <= 1.0 && 0.0 <= height ==> 0.0 <= h <= 0.8 * height
    ensures level == 1.0 ==> h == 0.8 * height
    ensures level == 0.0 ==> h == 0.0
  {
    BarLevelBound(level, height);
    level * height * 0.8
  }

  lemma BarLevelBound(level: real, height: real)
    ensures 0.0 <= level <= 1.0 && 0.0 <= height ==> 0.0 <= level * height * 0.8 <= 0.8 * height
  {
    if 0.0 <= level <= 1.0 && 0.0 <= height {
      assert 0.0 <= level * height;
      assert level * height <= 1.0 * height;
    }
  }

  function Bars(window: seq<real>, canvasWidth: real, canvasHeight: real): (bars: seq<Bar>)
    requires |window| == WindowSize
    ensures |bars| == WindowSize
    ensures forall i :: 0 <= i < WindowSize ==>
              var barWidth := canvasWidth / WindowSize as real;
              bars[i] == Bar(i as real * barWidth, canvasHeight - BarHeight(window[i], canvasHeight),
                             barWidth - 1.0, BarHeight(window[i], canvasHeight))
  {
    var barWidth := canvasWidth / WindowSize as real;
    seq(WindowSize, i requires 0 <= i < WindowSize =>
      Bar(i as real * barWidth, canvasHeight - BarHeight(window[i], canvasHeight),
          barWidth - 1.0, BarHeight(window[i], canvasHeight)))
  }

  /** What one `drawVisualizer` call leaves: the window, the bars drawn and
      whether another animation frame was requested. */
  datatype Frame = Frame(window: seq<real>, bars: seq<Bar>, requestNext: bool)

  function Draw(window: seq<real>, level: real, isRecording: bool,
                canvasWidth: real, canvasHeight: real): (f: Frame)
    requires |window| == WindowSize
    ensures |f.window| == WindowSize && |f.bars| == WindowSize
    ensures f.requestNext <==> isRecording
    ensures f.window == Advance(window, level, isRecording)
    ensures forall i :: 0 <= i < WindowSize ==> f.bars[i].height == BarHeight(f.window[i], canvasHeight)
  {
    var w := Advance(window, level, isRecording);
    Frame(w, Bars(w, canvasWidth, canvasHeight), isRecording)
  }

  /** Every bar of a frame lies in the lower 80% of the canvas when the
      levels are in [0, 1]. */
  lemma BarsWithinCanvas(window: seq<real>, level: real, isRecording: bool,
                         canvasWidth: real, canvasHeight: real)
    requires |window| == WindowSize && 0.0 <= canvasHeight
    requires forall i :: 0 <= i < WindowSize ==> 0.0 <= window[i] <= 1.0
    requires 0.0 <= level <= 1.0
    ensures var f := Draw(window, level, isRecording, canvasWidth, canvasHeight);
            forall i :: 0 <= i < WindowSize ==>
              0.0 <= f.bars[i].height <= 0.8 * canvasHeight
              && 0.2 * canvasHeight <= f.bars[i].y <= canvasHeight
  {
    var f := Draw(window, level, isRecording, canvasWidth, canvasHeight);
    forall i | 0 <= i < WindowSize
      ensures 0.0 <= f.window[i] <= 1.0
    {
      if isRecording && i < WindowSize - 1 {
        assert f.window[i] == window[i + 1];
      }
    }
  }

  /** The window after a run of draws while recording. */
  function DrawAll(window: seq<real>, levels: seq<real>): (r: seq<real>)
    requires |window| == WindowSize
    ensures |r| == WindowSize
    decreases |levels|
  {
    if levels == [] then window
    else DrawAll(Advance(window, levels[0], true), levels[1..])
  }

  /** After drawing levels `L` while recording, the window holds the last 50
      entries of the old window followed by `L`. */
  lemma {:induction false} DrawAllIsSuffix(window: seq<real>, levels: seq<real>)
    requires |window| == WindowSize
    ensures DrawAll(window, levels) == (window + levels)[|levels|..]
    decreases |levels|
  {
    if levels != [] {
      var next := Advance(window, levels[0], true);
      DrawAllIsSuffix(next, levels[1..]);
      assert next + levels[1..] == (window + levels)[1..];
      assert (next + levels[1..])[|levels[1..]|..] == (window + levels)[|levels|..];
    }
  }

  /** Starting from the initial window, once at least 50 levels are drawn the
      window is exactly the last 50 of them. */
  lemma RecentLevels(levels: seq<real>)
    requires |levels| >= WindowSize
    ensures DrawAll(InitialWindow, levels) == levels[|levels| - WindowSize..]
  {
    DrawAllIsSuffix(InitialWindow, levels);
    assert (InitialWindow + levels)[|levels|..] == levels[|levels| - WindowSize..];
  }
}
