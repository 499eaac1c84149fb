/**
  web_ui/src/components/recorder/components.tsx: which controls
  `RecorderControls` shows for a status, the selectors it subscribes with
  (status, recording time, the `[current, total]` playback time with its
  comparator, the blob), and the rewind action.
 */
module RecorderControls {
  import opened Wrappers
  import opened Text
  import opened RecorderHelpers
  import opened RecorderCore

  /** What one render of `RecorderControls` shows. */
  datatype Controls = Controls(
    recordStart: bool,
    recordStop: bool,
    playbackStart: bool,
    playbackPause: bool,
    rewind: bool,
    playbackTime: bool,
    recordingTime: bool,
    download: bool,
    clear: bool)

  /** The statuses in which a recording is available to play, rewind, download or clear. */
  predicate HasRecording(status: Status) {
    status == RecordingStopped || status == PlaybackPaused || status == PlaybackStarted
  }

  /** The JSX conditions, one per element, for the current status and playback-time value. */
  function VisibleControls(status: Status, playbackTime: Option<(string, string)>): Controls {
    Controls(
      recordStart := status == Idle,
      recordStop := status == RecordingStarted,
      playbackStart := status == RecordingStopped || status == PlaybackPaused,
      playbackPause := status == PlaybackStarted,
      rewind := HasRecording(status),
      playbackTime := playbackTime.Some? && status != Idle,
      recordingTime := status == RecordingStarted,
      download := HasRecording(status),
      clear := HasRecording(status))
  }

  function PrimaryCount(c: Controls): nat {
    (if c.recordStart then 1 else 0) + (if c.recordStop then 1 else 0)
    + (if c.playbackStart then 1 else 0) + (if c.playbackPause then 1 else 0)
  }

  /**
    Exactly one primary control per status: Record when Idle, Stop while
    recording, Play when stopped or paused, Pause while playing.
   */
  lemma ExactlyOnePrimary(status: Status, playbackTime: Option<(string, string)>)
    ensures var c := VisibleControls(status, playbackTime);
      && PrimaryCount(c) == 1
      && (c.recordStart <==> status == Idle)
      && (c.recordStop <==> status == RecordingStarted)
      && (c.playbackStart <==> status in {RecordingStopped, PlaybackPaused})
      && (c.playbackPause <==> status == PlaybackStarted)
  {
  }

  /** Rewind, download and clear appear together, exactly when there is a recording to act on. */
  lemma SecondaryControls(status: Status, playbackTime: Option<(string, string)>)
    ensures var c := VisibleControls(status, playbackTime);
      && c.rewind == c.download == c.clear
      && (c.rewind <==> status in {RecordingStopped, PlaybackPaused, PlaybackStarted})
  {
  }

  /** The recording time only while recording; the playback time only when known and not Idle. */
  lemma TimesShown(status: Status, playbackTime: Option<(string, string)>)
    ensures var c := VisibleControls(status, playbackTime);
      && (c.recordingTime <==> status == RecordingStarted)
      && (c.playbackTime <==> playbackTime.Some? && status != Idle)
      && (c.recordingTime && c.playbackTime ==> playbackTime.Some?)
  {
  }

  /** `(state) => state.status`. */
  function StatusSelector(s: RecorderState): Selected {
    StatusValue(s.status)
  }

  /** `(state) => secondsToTime(state.cursorTime)`. */
  function RecordingTimeSelector(s: RecorderState): Selected {
    TextValue(SecondsToTime(s.cursorTime))
  }

  /** The `playbackTime` selector: null for a non-positive total, else both times formatted. */
  function PlaybackTimeSelector(s: RecorderState): Selected {
    if s.totalTime <= 0.0 then TimePairValue(None)
    else TimePairValue(Some((SecondsToTime(s.cursorTime), SecondsToTime(s.totalTime))))
  }

  /** `(state) => state.audioBlob`. */
  function AudioBlobSelector(s: RecorderState): Selected {
    BlobValue(s.audioBlob)
  }

  /** The `playbackTime` comparator: never with a null side; otherwise any component differing. */
  function PlaybackTimeChanged(prev: Selected, next: Selected): bool {
    if prev.TimePairValue? && prev.times.Some? && next.TimePairValue? && next.times.Some? then
      prev.times.value.0 != next.times.value.0 || prev.times.value.1 != next.times.value.1
    else false
  }

  /**
    The selected pair is null exactly when the total time is not positive;
    otherwise, for a non-negative cursor, each side is an `m:ss` text whose
    parts recombine to the whole seconds of the cursor and of the total.
   */
  lemma PlaybackTimeValue(s: RecorderState)
    requires s.cursorTime >= 0.0
    ensures var v := PlaybackTimeSelector(s);
      && v.TimePairValue?
      && (v.times.None? <==> s.totalTime <= 0.0)
      && (v.times.Some? ==>
            var (current, total) := v.times.value;
            var kc, kt := |current| - 3, |total| - 3;
            && kc >= 1 && current[kc] == ':' && AllDigits(current[..kc]) && AllDigits(current[kc + 1..])
            && 60 * DigitsValue(current[..kc]) + DigitsValue(current[kc + 1..]) == s.cursorTime.Floor
            && kt >= 1 && total[kt] == ':' && AllDigits(total[..kt]) && AllDigits(total[kt + 1..])
            && 60 * DigitsValue(total[..kt]) + DigitsValue(total[kt + 1..]) == s.totalTime.Floor)
  {
    if s.totalTime > 0.0 {
      SecondsToTimeShape(s.cursorTime);
      SecondsToTimeShape(s.totalTime);
    }
  }

  /** Two known pairs count as a change exactly when they differ. */
  lemma PlaybackTimeChangedIff(prev: (string, string), next: (string, string))
    ensures PlaybackTimeChanged(TimePairValue(Some(prev)), TimePairValue(Some(next))) <==> prev != next
  {
  }

  /**
    Under `subscribe`'s rule with this comparator, once null has been delivered
    no later state replaces it: nothing is delivered and `lastValue` stays null.
   */
  lemma NullNeverReplaced(sub: Subscriber, s: RecorderState)
    requires sub.selector == PlaybackTimeSelector && sub.shouldUpdate == Some(PlaybackTimeChanged)
    requires sub.lastValue == TimePairValue(None)
    ensures Offer(sub, s).1 == []
    ensures Offer(sub, s).0.lastValue == TimePairValue(None)
  {
    assert !Changed(sub, sub.selector(s));
  }

  /**
    The rewind button: `seekToPosition(0)`, always in range, moves the cursor
    and the element (if any) to 0 and offers the new state to every subscriber.
   */
  method Rewind(recorder: AudioRecorderCore)
    requires recorder.Valid()
    modifies recorder
    ensures recorder.Valid()
    ensures recorder.state == old(recorder.state).(cursorTime := 0.0, serial := old(recorder.nextSerial))
    ensures recorder.audioElement ==
      if old(recorder.audioElement).Some? then Some(old(recorder.audioElement).value.(currentTime := 0.0)) else None
    ensures recorder.subscribers == Broadcast(old(recorder.subscribers), recorder.state).subscribers
    ensures recorder.outbox == old(recorder.outbox) + Broadcast(old(recorder.subscribers), recorder.state).notices
    ensures recorder.Published() && recorder.CaptureKept()
    ensures recorder.playbackFramePending == old(recorder.playbackFramePending)
  {
    var r := recorder.SeekToPosition(0.0);
    assert r.Ok?;
  }
}
