/**
  web_ui/src/components/recorder/waveform-canvas.ts: what one `render` of the
  waveform canvas draws for a recorder state and a canvas rectangle, as a
  value (a placeholder or a list of bars, plus the optional cursor line), and
  the click-to-seek handler.
 */
module WaveformCanvas {
  import opened Wrappers
  import opened RecorderCore

  const FIXED_BAR_WIDTH: real := 2.0
  const FIXED_GAP: real := 1.0
  const FIXED_BAR_AND_GAP_WIDTH: real := FIXED_BAR_WIDTH + FIXED_GAP
  const MIN_BAR_HEIGHT: real := 2.0
  /** Bars use at most 80% of the canvas height. */
  const HEIGHT_FRACTION: real := 0.8

  /** The fill styles: "#10b981", "#ef4444", "#3b82f6", "#6b7280". */
  datatype Color = Green | Red | Blue | Gray

  /** One `fillRect(x, y, barWidth, barHeight)` with its fill style. */
  datatype Bar = Bar(x: real, y: real, width: real, height: real, color: Color)

  /**
    The picture one render leaves on the cleared canvas: the dotted placeholder
    line or the bars, and the x of the cursor line when one is drawn.
   */
  datatype Frame =
    | Placeholder(cursorX: Option<real>)
    | Waveform(bars: seq<Bar>, cursorX: Option<real>)

  datatype Layout = Layout(barsToRender: nat, barAndGapWidth: real, barWidth: real)

  /** `Math.floor(width / 3)`. */
  function MaxBars(width: real): (n: nat)
    requires width >= 0.0
    ensures n as real * FIXED_BAR_AND_GAP_WIDTH <= width < (n + 1) as real * FIXED_BAR_AND_GAP_WIDTH
  {
    (width / FIXED_BAR_AND_GAP_WIDTH).Floor
  }

  /** Fixed 2+1 bars that fit while recording; otherwise one bar per sample filling the width. */
  function BarLayout(status: Status, len: nat, width: real): Layout
    requires width >= 0.0 && len > 0
  {
    if status == RecordingStarted then
      Layout(if len < MaxBars(width) then len else MaxBars(width), FIXED_BAR_AND_GAP_WIDTH, FIXED_BAR_WIDTH)
    else
      Layout(len, width / len as real, width / len as real)
  }

  /** `data.slice(-k)`: the last `k` elements; `slice(-0)` is `slice(0)`, the whole array. */
  function Window(data: seq<real>, k: nat): (r: seq<real>)
    requires k <= |data|
    ensures k > 0 ==> |r| == k
    ensures |r| >= k
    ensures forall i :: 0 <= i < k ==> r[i] == data[|data| - k + i]
  {
    if k == 0 then data else data[|data| - k..]
  }

  /** `totalTime > 0 ? Math.floor(cursorTime / totalTime * barsToRender) : 0`. */
  function PlayedBars(cursorTime: real, totalTime: real, barsToRender: nat): int {
    if totalTime > 0.0 then (cursorTime / totalTime * barsToRender as real).Floor else 0
  }

  /** The fill style of bar `i`. */
  function BarColor(status: Status, i: nat, playedBars: int): Color {
    if status == PlaybackStarted && i < playedBars then Green
    else if status == RecordingStarted then Red
    else if status == RecordingStopped || status == PlaybackPaused then Blue
    else Gray
  }

  /** `Math.max(2, amplitude * (height * 0.8))`. */
  function BarHeight(amplitude: real, height: real): (h: real)
    ensures h >= MIN_BAR_HEIGHT
    ensures h == MIN_BAR_HEIGHT || h == amplitude * (height * HEIGHT_FRACTION)
  {
    var scaled := amplitude * (height * HEIGHT_FRACTION);
    if scaled > MIN_BAR_HEIGHT then scaled else MIN_BAR_HEIGHT
  }

  function DrawBar(i: nat, amplitude: real, layout: Layout, height: real, status: Status, playedBars: int): Bar {
    var barHeight := BarHeight(amplitude, height);
    Bar(i as real * layout.barAndGapWidth, (height - barHeight) / 2.0, layout.barWidth, barHeight,
        BarColor(status, i, playedBars))
  }

  /** The x of the cursor line: `cursorTime / totalTime × width`. */
  function CursorX(s: RecorderState, width: real): real
    requires s.totalTime > 0.0
  {
    s.cursorTime / s.totalTime * width
  }

  /** `renderPlaceholder`: the cursor line only outside RecordingStarted and with a positive total time. */
  function RenderPlaceholder(s: RecorderState, width: real): Frame {
    Placeholder(if s.status != RecordingStarted && s.totalTime > 0.0 then Some(CursorX(s, width)) else None)
  }

  /** `renderWaveform`; `render` calls it only when there is at least one sample. */
  function RenderWaveform(s: RecorderState, width: real, height: real): Frame
    requires width >= 0.0 && |s.waveformData| > 0
  {
    var layout := BarLayout(s.status, |s.waveformData|, width);
    var adjusted := Window(s.waveformData, layout.barsToRender);
    var playedBars := PlayedBars(s.cursorTime, s.totalTime, layout.barsToRender);
    Waveform(
      seq(layout.barsToRender, i requires 0 <= i < layout.barsToRender =>
        DrawBar(i, adjusted[i], layout, height, s.status, playedBars)),
      if s.totalTime > 0.0 then Some(CursorX(s, width)) else None)
  }

  /** `render` on a canvas whose rectangle is `width` × `height`. */
  function Render(s: RecorderState, width: real, height: real): Frame
    requires width >= 0.0
  {
    if |s.waveformData| == 0 then RenderPlaceholder(s, width) else RenderWaveform(s, width, height)
  }

  /**
    The placeholder is drawn exactly when there are no samples, so the
    per-sample stride `width / length` is never computed for zero samples.
   */
  lemma RenderPlaceholderIffEmpty(s: RecorderState, width: real, height: real)
    requires width >= 0.0
    ensures Render(s, width, height).Placeholder? <==> s.waveformData == []
  {
  }

  /** The cursor line of either picture, and where it is drawn. */
  lemma RenderCursor(s: RecorderState, width: real, height: real)
    requires width >= 0.0
    ensures var f := Render(s, width, height);
      && (f.Placeholder? ==> (f.cursorX.Some? <==> s.status != RecordingStarted && s.totalTime > 0.0))
      && (f.Waveform? ==> (f.cursorX.Some? <==> s.totalTime > 0.0))
      && (f.cursorX.Some? ==> f.cursorX.value * s.totalTime == s.cursorTime * width)
  {
    var f := Render(s, width, height);
    if f.cursorX.Some? {
      assert s.totalTime > 0.0;
      assert f.cursorX.value == s.cursorTime / s.totalTime * width;
    }
  }

  /**
    While recording, at most `⌊width/3⌋` bars of width 2 are drawn, 3 apart
    from x = 0, so every bar ends at or before the right edge.
   */
  lemma RecordingBarsFit(s: RecorderState, width: real, height: real)
    requires width >= 0.0 && |s.waveformData| > 0 && s.status == RecordingStarted
    ensures var bars := Render(s, width, height).bars;
      && |bars| == (if |s.waveformData| < MaxBars(width) then |s.waveformData| else MaxBars(width))
      && forall i :: 0 <= i < |bars| ==>
           bars[i].x == i as real * FIXED_BAR_AND_GAP_WIDTH && bars[i].width == FIXED_BAR_WIDTH
           && bars[i].x + bars[i].width <= width
  {
    var bars := Render(s, width, height).bars;
    forall i | 0 <= i < |bars|
      ensures bars[i].x + bars[i].width <= width
    {
      assert (i + 1) as real <= MaxBars(width) as real;
      assert bars[i].x == i as real * FIXED_BAR_AND_GAP_WIDTH;
    }
  }

  /**
    Outside recording every sample gets a bar of width `width / length`, side
    by side, and the bars together span exactly the canvas width.
   */
  lemma PlaybackBarsFill(s: RecorderState, width: real, height: real)
    requires width >= 0.0 && |s.waveformData| > 0 && s.status != RecordingStarted
    ensures var bars := Render(s, width, height).bars;
      && |bars| == |s.waveformData|
      && (forall i :: 0 <= i < |bars| ==> bars[i].x == i as real * (width / |bars| as real) && bars[i].width == width / |bars| as real)
      && bars[|bars| - 1].x + bars[|bars| - 1].width == width
  {
    var bars := Render(s, width, height).bars;
    var n := |bars| as real;
    assert bars[|bars| - 1].x + bars[|bars| - 1].width == (n - 1.0) * (width / n) + width / n;
  }

  /** Bar `i` shows sample `length − barsToRender + i`: the newest samples, oldest first, none under 2 high. */
  lemma BarsShowNewestSamples(s: RecorderState, width: real, height: real)
    requires width >= 0.0 && |s.waveformData| > 0
    ensures var bars := Render(s, width, height).bars;
      var n := |s.waveformData|;
      && |bars| <= n
      && forall i :: 0 <= i < |bars| ==>
           bars[i].height == BarHeight(s.waveformData[n - |bars| + i], height)
           && bars[i].height >= MIN_BAR_HEIGHT
           && bars[i].y == (height - bars[i].height) / 2.0
  {
  }

  /** With the cursor inside the recording, the played bars are between none and all of them. */
  lemma PlayedBarsInRange(cursorTime: real, totalTime: real, barsToRender: nat)
    requires 0.0 <= cursorTime <= totalTime
    ensures 0 <= PlayedBars(cursorTime, totalTime, barsToRender) <= barsToRender
  {
    if totalTime > 0.0 {
      var ratio := cursorTime / totalTime;
      assert 0.0 <= ratio <= 1.0;
      assert ratio * barsToRender as real <= barsToRender as real;
    }
  }

  /**
    The colour rule: green only for played bars during playback, red for every
    bar while recording, blue for a stopped or paused recording, gray otherwise
    (Idle, and playback bars not yet played).
   */
  lemma ColorRule(status: Status, i: nat, playedBars: int)
    ensures BarColor(status, i, playedBars) == Green <==> status == PlaybackStarted && i < playedBars
    ensures BarColor(status, i, playedBars) == Red <==> status == RecordingStarted
    ensures BarColor(status, i, playedBars) == Blue <==> status == RecordingStopped || status == PlaybackPaused
    ensures BarColor(status, i, playedBars) == Gray <==>
      status == Idle || (status == PlaybackStarted && i >= playedBars)
  {
  }

  /** The position `handleClick` passes on: the click's offset over the canvas width, unclamped. */
  function ClickRatio(clientX: real, left: real, width: real): real
    requires width > 0.0
  {
    (clientX - left) / width
  }

  /** The ratio is a valid seek position exactly for clicks within the canvas's horizontal extent. */
  lemma ClickInsideCanvas(clientX: real, left: real, width: real)
    requires width > 0.0
    ensures left <= clientX <= left + width <==> 0.0 <= ClickRatio(clientX, left, width) <= 1.0
  {
    var x, p := clientX - left, ClickRatio(clientX, left, width);
    assert p * width == x;
    if 0.0 <= p <= 1.0 {
      assert p * width <= 1.0 * width;
    }
    assert (1.0 - p) * width == width - x;
  }

  /**
    `handleClick`: without a seek handler nothing happens; otherwise the ratio
    goes to `seekToPosition`, which throws, changing nothing, for a click
    outside the canvas, and otherwise moves the cursor and the element and
    offers the new state to every subscriber.
   */
  method HandleClick(core: AudioRecorderCore?, clientX: real, left: real, width: real)
    returns (outcome: Option<Result<(), SeekError>>)
    requires width > 0.0
    requires core != null ==> core.Valid()
    modifies core
    ensures core == null ==> outcome.None?
    ensures core != null ==>
      && core.Valid()
      && outcome.Some?
      && (outcome.value.Ok? <==> left <= clientX <= left + width)
      && core.state == if outcome.value.Ok?
                       then old(core.state).(cursorTime := ClickRatio(clientX, left, width) * old(core.state).totalTime,
                                             serial := old(core.nextSerial))
                       else old(core.state)
    ensures core != null && outcome.value.Ok? ==>
      var time := ClickRatio(clientX, left, width) * old(core.state).totalTime;
      && core.audioElement == (if old(core.audioElement).Some? then Some(old(core.audioElement).value.(currentTime := time)) else None)
      && core.subscribers == Broadcast(old(core.subscribers), core.state).subscribers
      && core.outbox == old(core.outbox) + Broadcast(old(core.subscribers), core.state).notices
      && core.Published()
      && core.playbackFramePending == old(core.playbackFramePending)
    ensures core != null && outcome.value.Err? ==> core.HubKept() && core.PlaybackKept()
    ensures core != null ==> core.CaptureKept()
  {
    if core == null {
      return None;
    }
    var x := clientX - left;
    ClickInsideCanvas(clientX, left, width);
    var r := core.SeekToPosition(x / width);
    return Some(r);
  }
}
