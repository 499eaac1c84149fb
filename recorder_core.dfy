/**
  web_ui/src/components/recorder/audio-recorder-core.ts: the recorder's state
  machine, its selector-based subscription hub and its named-event registry.

  The browser objects the class holds (MediaRecorder, MediaStream, AudioContext,
  AnalyserNode, the playback Audio element, the requestAnimationFrame handles)
  are modelled by whether they are present, plus the little state of theirs the
  class reads or writes. Wall-clock readings (`Date.now()`), the analyser's RMS
  and the playing element's position arrive as method parameters. Every call of
  a subscriber's or listener's callback is recorded, in order, in `outbox`.
 */
module RecorderCore {
  import opened Wrappers
  import opened Bytes
  import opened RecorderHelpers

  datatype Status = Idle | RecordingStarted | RecordingStopped | PlaybackStarted | PlaybackPaused

  /**
    An `AudioRecorderState` object; times are milliseconds since the epoch,
    cursor and total seconds. `serial` is the object's identity: every spread
    in `setState` builds a new object, so it is drawn fresh each time, and two
    states are the same object exactly when they are equal as values.
   */
  datatype RecorderState = RecorderState(
    status: Status,
    startedAt: int,
    endedAt: Option<int>,
    cursorTime: real,
    totalTime: real,
    audioBlob: Option<Blob>,
    waveformData: seq<real>,
    error: Option<string>,
    serial: nat)

  /** `getInitialState()`, as the object with identity `serial`. */
  function InitialState(serial: nat): RecorderState {
    RecorderState(Idle, 0, None, 0.0, 0.0, None, [], None, serial)
  }

  /** A `Partial<AudioRecorderState>`: `None` marks a key the update object does not carry. */
  datatype Patch = Patch(
    status: Option<Status>,
    startedAt: Option<int>,
    endedAt: Option<Option<int>>,
    cursorTime: Option<real>,
    totalTime: Option<real>,
    audioBlob: Option<Option<Blob>>,
    waveformData: Option<seq<real>>,
    error: Option<Option<string>>)

  const NoKeys: Patch := Patch(None, None, None, None, None, None, None, None)

  /** An update object that carries every key of `s` (all but its identity), as `getInitialState()` does. */
  function AllKeys(s: RecorderState): Patch {
    Patch(Some(s.status), Some(s.startedAt), Some(s.endedAt), Some(s.cursorTime),
          Some(s.totalTime), Some(s.audioBlob), Some(s.waveformData), Some(s.error))
  }

  function Pick<T>(update: Option<T>, current: T): T {
    if update.Some? then update.value else current
  }

  /** `{ ...state, ...updates }`: a new object, with identity `serial`. */
  function Merge(s: RecorderState, u: Patch, serial: nat): RecorderState {
    RecorderState(
      Pick(u.status, s.status), Pick(u.startedAt, s.startedAt), Pick(u.endedAt, s.endedAt),
      Pick(u.cursorTime, s.cursorTime), Pick(u.totalTime, s.totalTime),
      Pick(u.audioBlob, s.audioBlob), Pick(u.waveformData, s.waveformData), Pick(u.error, s.error),
      serial)
  }

  /** Spreading an update that carries every key yields that record's contents, whatever came before. */
  lemma MergeAllKeys(s: RecorderState, t: RecorderState, serial: nat)
    ensures Merge(s, AllKeys(t), serial) == t.(serial := serial)
  {
  }

  /**
    Applying the same update twice gives the same contents as applying it once;
    an empty update copies the contents into the new object.
   */
  lemma MergeIdempotent(s: RecorderState, u: Patch, serial: nat)
    ensures Merge(Merge(s, u, serial), u, serial) == Merge(s, u, serial)
    ensures Merge(s, NoKeys, serial) == s.(serial := serial)
  {
  }

  /**
    The values selected by the subscribers this model covers (the recorder
    controls, the waveform canvas and the recorder context): the status, a
    formatted time, the optional `[current, total]` pair, the blob, or the
    whole state. The debug panel's number, array and error selections are
    not represented.
   */
  datatype Selected =
    | StatusValue(status: Status)
    | TextValue(text: string)
    | TimePairValue(times: Option<(string, string)>)
    | BlobValue(blob: Option<Blob>)
    | StateValue(state: RecorderState)

  /** The closure `subscribe` registers: its selector, optional comparator and `lastValue`. */
  datatype Subscriber = Subscriber(
    id: nat,
    selector: RecorderState -> Selected,
    shouldUpdate: Option<(Selected, Selected) -> bool>,
    lastValue: Selected)

  datatype RecorderEvent = RecordingCompleteEvent | RecordingClearedEvent

  /** One call of a callback: a subscriber's receiver or an event listener. */
  datatype Notice =
    | Delivered(subscriber: nat, value: Selected)
    | RecordingComplete(listener: nat, blob: Blob)
    | RecordingCleared(listener: nat)

  /**
    JavaScript's `===` between a remembered selection and a new one. Statuses,
    strings and null compare by value; a state or a blob is the same object
    exactly when it is equal as a value (identity included); the `[current,
    total]` array is built anew by every selection, so it is never the
    remembered one.
   */
  predicate Identical(previous: Selected, next: Selected) {
    previous == next && !(next.TimePairValue? && next.times.Some?)
  }

  /** The identity of a selected object: a state, or a non-null blob. */
  function Identity(v: Selected): Option<nat> {
    match v
    case StateValue(state) => Some(state.serial)
    case BlobValue(blob) => if blob.Some? then Some(blob.value.serial) else None
    case _ => None
  }

  /** The change test of the wrapped callback: the comparator if given, else `!==`. */
  predicate Changed(sub: Subscriber, next: Selected) {
    match sub.shouldUpdate
    case Some(shouldUpdate) => shouldUpdate(sub.lastValue, next)
    case None => !Identical(sub.lastValue, next)
  }

  /** One run of the wrapped callback on a new state: the updated closure and what it delivered. */
  function Offer(sub: Subscriber, s: RecorderState): (Subscriber, seq<Notice>) {
    var next := sub.selector(s);
    if Changed(sub, next) then (sub.(lastValue := next), [Delivered(sub.id, next)]) else (sub, [])
  }

  /**
    A subscriber delivers exactly when its change test holds; it then delivers
    the selected value once and remembers it, otherwise its `lastValue` stays.
   */
  lemma OfferDelivers(sub: Subscriber, s: RecorderState)
    ensures var (after, notices) := Offer(sub, s);
      && after.id == sub.id
      && (Changed(sub, sub.selector(s)) <==> notices != [])
      && (notices != [] ==> notices == [Delivered(sub.id, sub.selector(s))] && after.lastValue == sub.selector(s))
      && (notices == [] ==> after.lastValue == sub.lastValue)
  {
  }

  /**
    Without a comparator, a selection that is an object other than the one
    remembered is always delivered: the canvas's `(state) => state` subscriber
    is called on every `setState`, whose spread is a new object even when its
    contents are unchanged; so is an `audioBlob` subscriber for every new blob.
   */
  lemma NewObjectDelivered(sub: Subscriber, s: RecorderState)
    requires sub.shouldUpdate.None?
    requires Identity(sub.selector(s)).Some? && Identity(sub.lastValue) != Identity(sub.selector(s))
    ensures Offer(sub, s) == (sub.(lastValue := sub.selector(s)), [Delivered(sub.id, sub.selector(s))])
  {
    assert sub.lastValue != sub.selector(s);
  }

  datatype Fanout = Fanout(subscribers: seq<Subscriber>, notices: seq<Notice>)

  /** `this.subscribers.forEach((callback) => callback(this.state))`, in registration order. */
  function Broadcast(subs: seq<Subscriber>, s: RecorderState): (r: Fanout)
    ensures |r.subscribers| == |subs|
  {
    if subs == [] then Fanout([], [])
    else
      var prefix := Broadcast(subs[..|subs| - 1], s);
      var (sub, notices) := Offer(subs[|subs| - 1], s);
      Fanout(prefix.subscribers + [sub], prefix.notices + notices)
  }

  ghost predicate DistinctIds(subs: seq<Subscriber>) {
    forall j, k :: 0 <= j < k < |subs| ==> subs[j].id != subs[k].id
  }

  /** Offering a state to the subscribers keeps each closure's handle in its place. */
  lemma {:induction false} BroadcastKeepsIds(subs: seq<Subscriber>, s: RecorderState)
    ensures forall k :: 0 <= k < |subs| ==> Broadcast(subs, s).subscribers[k].id == subs[k].id
  {
    if subs != [] {
      var init := subs[..|subs| - 1];
      BroadcastKeepsIds(init, s);
      forall k | 0 <= k < |subs| - 1 ensures Broadcast(subs, s).subscribers[k].id == subs[k].id {
        assert init[k] == subs[k];
      }
    }
  }

  /**
    Every registered subscriber is offered the new state once: a delivery to
    subscriber `id` of value `v` happens exactly when that subscriber's test
    accepts its newly selected value `v`, and no subscriber receives two.
   */
  lemma {:induction false} BroadcastDeliveries(subs: seq<Subscriber>, s: RecorderState, id: nat, v: Selected)
    requires DistinctIds(subs)
    ensures Delivered(id, v) in Broadcast(subs, s).notices <==>
      exists k :: 0 <= k < |subs| && subs[k].id == id && v == subs[k].selector(s) && Changed(subs[k], v)
    ensures |Broadcast(subs, s).notices| <= |subs|
  {
    if subs != [] {
      var init := subs[..|subs| - 1];
      var last := subs[|subs| - 1];
      BroadcastDeliveries(init, s, id, v);
      if Delivered(id, v) in Broadcast(subs, s).notices && Delivered(id, v) !in Broadcast(init, s).notices {
        assert Offer(last, s).1 == [Delivered(id, v)];
        assert subs[|subs| - 1] == last;
      }
      if exists k :: 0 <= k < |subs| && subs[k].id == id && v == subs[k].selector(s) && Changed(subs[k], v) {
        var k :| 0 <= k < |subs| && subs[k].id == id && v == subs[k].selector(s) && Changed(subs[k], v);
        if k < |subs| - 1 {
          assert init[k] == subs[k];
        }
      }
    }
  }

  /** The `forEach` of `setState`: run each wrapped callback on the new state, in registration order. */
  method Notify(subs: seq<Subscriber>, s: RecorderState) returns (offered: seq<Subscriber>, delivered: seq<Notice>)
    ensures Fanout(offered, delivered) == Broadcast(subs, s)
  {
    offered, delivered := [], [];
    for i := 0 to |subs|
      invariant Fanout(offered, delivered) == Broadcast(subs[..i], s)
    {
      var (sub, notices) := Offer(subs[i], s);
      assert subs[..i + 1][..i] == subs[..i];
      offered, delivered := offered + [sub], delivered + notices;
    }
    assert subs[..|subs|] == subs;
  }

  /** `subscribers.delete(wrappedCallback)`: drop the closure with that handle. */
  function Without(subs: seq<Subscriber>, id: nat): (r: seq<Subscriber>)
    ensures |r| <= |subs|
    ensures forall k :: 0 <= k < |r| ==> r[k].id != id
  {
    if subs == [] then []
    else if subs[0].id == id then Without(subs[1..], id)
    else [subs[0]] + Without(subs[1..], id)
  }

  lemma {:induction false} WithoutAbsent(subs: seq<Subscriber>, id: nat)
    requires forall k :: 0 <= k < |subs| ==> subs[k].id != id
    ensures Without(subs, id) == subs
  {
    if subs != [] {
      WithoutAbsent(subs[1..], id);
    }
  }

  /** Unsubscribing removes that one subscriber and keeps all the others, in order. */
  lemma {:induction false} WithoutRemovesOne(subs: seq<Subscriber>, k: nat)
    requires DistinctIds(subs) && k < |subs|
    ensures Without(subs, subs[k].id) == subs[..k] + subs[k + 1..]
  {
    var id := subs[k].id;
    if k == 0 {
      WithoutAbsent(subs[1..], id);
    } else {
      WithoutRemovesOne(subs[1..], k - 1);
      assert subs[1..][k - 1].id == id;
      assert subs[..k] == [subs[0]] + subs[1..][..k - 1];
      assert subs[k + 1..] == subs[1..][k..];
    }
  }

  /** `Set.delete` on a listener set kept in insertion order. */
  function Remove(s: seq<nat>, x: nat): (r: seq<nat>)
    ensures x !in r
    ensures forall y :: y in r <==> y in s && y != x
  {
    if s == [] then [] else if s[0] == x then Remove(s[1..], x) else [s[0]] + Remove(s[1..], x)
  }

  /** The calls `emit` makes: a listener is called only when the arguments match its event. */
  function Emission(event: RecorderEvent, ls: seq<nat>, payload: Option<Blob>): (r: seq<Notice>)
    ensures event == RecordingCompleteEvent && payload.Some? ==>
      |r| == |ls| && forall k :: 0 <= k < |ls| ==> r[k] == RecordingComplete(ls[k], payload.value)
    ensures event == RecordingClearedEvent && payload.None? ==>
      |r| == |ls| && forall k :: 0 <= k < |ls| ==> r[k] == RecordingCleared(ls[k])
  {
    if ls == [] then []
    else Emission(event, ls[..|ls| - 1], payload) + EmitTo(event, ls[|ls| - 1], payload)
  }

  function EmitTo(event: RecorderEvent, listener: nat, payload: Option<Blob>): seq<Notice> {
    if event == RecordingCompleteEvent && payload.Some? then [RecordingComplete(listener, payload.value)]
    else if event == RecordingClearedEvent && payload.None? then [RecordingCleared(listener)]
    else []
  }

  /** The amplification applied to the RMS before it is clamped at 1. */
  const AMPLIFICATION: real := 5.0

  /** `Math.min(1, rms * 5)`. */
  function Level(rms: real): (v: real)
    requires rms >= 0.0
    ensures 0.0 <= v <= 1.0
    ensures v == 1.0 || v == rms * AMPLIFICATION
    ensures v <= rms * AMPLIFICATION
  {
    if rms * AMPLIFICATION < 1.0 then rms * AMPLIFICATION else 1.0
  }

  /** `(later - startedAt) / 1000`: elapsed milliseconds as seconds. */
  function ElapsedSeconds(startedAt: int, later: int): real {
    (later - startedAt) as real / 1000.0
  }

  /** What a failed `recordingStart` stores: the thrown Error's message, or "Unknown error". */
  datatype StartFailure = ErrorThrown(message: string) | NonErrorThrown

  function FailureMessage(f: StartFailure): string {
    match f
    case ErrorThrown(message) => message
    case NonErrorThrown => "Unknown error"
  }

  datatype SeekError = InvalidSeekPosition(position: real)

  /** The playback `Audio` element: paused flag, position and number of "ended" listeners. */
  datatype AudioElement = AudioElement(paused: bool, currentTime: real, endedListeners: nat)

  predicate LevelsInRange(w: seq<real>) {
    forall k :: 0 <= k < |w| ==> 0.0 <= w[k] <= 1.0
  }

  predicate PatchInRange(u: Patch) {
    u.waveformData.Some? ==> LevelsInRange(u.waveformData.value)
  }

  class AudioRecorderCore {
    var mediaRecorder: bool
    /** The MediaRecorder's own state is "recording" (stop has not been requested). */
    var capturing: bool
    var stream: bool
    /** Data chunks delivered by `ondataavailable`, opaque compressed bytes. */
    var chunks: seq<seq<byte>>
    var analyser: bool
    var audioContext: bool
    var audioContextClosed: bool
    /** A requestAnimationFrame callback of the recording loop is scheduled. */
    var recordingFramePending: bool
    var audioElement: Option<AudioElement>
    /** A requestAnimationFrame callback of the playback loop is scheduled. */
    var playbackFramePending: bool

    var state: RecorderState
    var subscribers: seq<Subscriber>
    var nextSubscriberId: nat
    var listeners: map<RecorderEvent, seq<nat>>
    /** Every callback invocation so far, oldest first. */
    var outbox: seq<Notice>
    /** The identity the next state object or blob the class allocates receives. */
    var nextSerial: nat

    ghost predicate Valid()
      reads this
    {
      && (forall k :: 0 <= k < |subscribers| ==> subscribers[k].id < nextSubscriberId)
      && DistinctIds(subscribers)
      && RecordingCompleteEvent in listeners && RecordingClearedEvent in listeners
      && LevelsInRange(state.waveformData)
      && state.serial < nextSerial
      && (state.audioBlob.Some? ==> state.audioBlob.value.serial < nextSerial)
    }

    /** The capture side (recorder, stream, audio graph, chunks, recording loop) is as it was. */
    twostate predicate CaptureKept()
      reads this
    {
      && mediaRecorder == old(mediaRecorder) && capturing == old(capturing) && stream == old(stream)
      && chunks == old(chunks) && analyser == old(analyser) && audioContext == old(audioContext)
      && audioContextClosed == old(audioContextClosed) && recordingFramePending == old(recordingFramePending)
    }

    /** The playback side (audio element, playback loop) is as it was. */
    twostate predicate PlaybackKept()
      reads this
    {
      audioElement == old(audioElement) && playbackFramePending == old(playbackFramePending)
    }

    /** State, subscribers, listeners and delivered callbacks are as they were. */
    twostate predicate HubKept()
      reads this
    {
      && state == old(state) && subscribers == old(subscribers) && outbox == old(outbox)
      && listeners == old(listeners) && nextSubscriberId == old(nextSubscriberId)
      && nextSerial == old(nextSerial)
    }

    /**
      The caller-visible effect of one `setState`: a new state object, which
      the subscribers are offered; registries kept.
     */
    twostate predicate Published()
      reads this
    {
      && state.serial == old(nextSerial) && nextSerial == old(nextSerial) + 1
      && subscribers == Broadcast(old(subscribers), state).subscribers
      && outbox == old(outbox) + Broadcast(old(subscribers), state).notices
      && listeners == old(listeners)
      && nextSubscriberId == old(nextSubscriberId)
    }

    constructor ()
      ensures Valid()
      ensures state == InitialState(0) && nextSerial == 1 && subscribers == [] && outbox == []
      ensures listeners == map[RecordingCompleteEvent := [], RecordingClearedEvent := []]
      ensures !mediaRecorder && !capturing && !stream && chunks == [] && !analyser
      ensures !audioContext && !audioContextClosed && !recordingFramePending
      ensures audioElement.None? && !playbackFramePending
    {
      mediaRecorder, capturing, stream, chunks := false, false, false, [];
      analyser, audioContext, audioContextClosed := false, false, false;
      recordingFramePending, audioElement, playbackFramePending := false, None, false;
      state, nextSerial := InitialState(0), 1;
      subscribers, nextSubscriberId := [], 0;
      listeners := map[RecordingCompleteEvent := [], RecordingClearedEvent := []];
      outbox := [];
    }

    /** `setState`: spread the update over the state, then run every subscriber's wrapped callback. */
    method SetState(u: Patch)
      requires Valid() && PatchInRange(u)
      requires u.audioBlob.Some? && u.audioBlob.value.Some? ==> u.audioBlob.value.value.serial < nextSerial
      modifies this
      ensures Valid()
      ensures state == Merge(old(state), u, old(nextSerial))
      ensures Published()
      ensures CaptureKept() && PlaybackKept()
    {
      var next := Merge(state, u, nextSerial);
      assert LevelsInRange(next.waveformData);
      assert next.audioBlob.Some? ==> next.audioBlob.value.serial < nextSerial;
      var offered, delivered := Notify(subscribers, next);
      BroadcastKeepsIds(subscribers, next);
      state, nextSerial := next, nextSerial + 1;
      subscribers, outbox := offered, outbox + delivered;
    }

    /**
      `subscribe`: registers the wrapped callback with `lastValue = selector(state)`
      and delivers `selector(state)` at once; the handle stands for the returned
      unsubscribe function.
     */
    method Subscribe(selector: RecorderState -> Selected, shouldUpdate: Option<(Selected, Selected) -> bool>)
      returns (handle: nat)
      requires Valid()
      modifies this
      ensures Valid()
      ensures handle == old(nextSubscriberId) && nextSubscriberId == handle + 1
      ensures subscribers == old(subscribers) + [Subscriber(handle, selector, shouldUpdate, selector(state))]
      ensures outbox == old(outbox) + [Delivered(handle, selector(state))]
      ensures state == old(state) && listeners == old(listeners) && nextSerial == old(nextSerial)
      ensures CaptureKept() && PlaybackKept()
    {
      handle := nextSubscriberId;
      nextSubscriberId := nextSubscriberId + 1;
      subscribers := subscribers + [Subscriber(handle, selector, shouldUpdate, selector(state))];
      outbox := outbox + [Delivered(handle, selector(state))];
    }

    /** Calling the function `subscribe` returned: only that subscriber is removed. */
    method Unsubscribe(handle: nat)
      requires Valid()
      modifies this
      ensures Valid()
      ensures subscribers == Without(old(subscribers), handle)
      ensures forall k :: 0 <= k < |old(subscribers)| && old(subscribers)[k].id == handle ==>
        subscribers == old(subscribers)[..k] + old(subscribers)[k + 1..]
      ensures state == old(state) && outbox == old(outbox) && listeners == old(listeners)
      ensures nextSubscriberId == old(nextSubscriberId) && nextSerial == old(nextSerial)
      ensures CaptureKept() && PlaybackKept()
    {
      WithoutIds(subscribers, handle);
      forall k | 0 <= k < |subscribers| && subscribers[k].id == handle
        ensures Without(subscribers, handle) == subscribers[..k] + subscribers[k + 1..]
      {
        WithoutRemovesOne(subscribers, k);
      }
      subscribers := Without(subscribers, handle);
    }

    /** `on(event, callback)`: a listener set ignores a callback it already holds. */
    method On(event: RecorderEvent, callback: nat)
      requires Valid()
      modifies this
      ensures Valid()
      ensures callback in old(listeners)[event] ==> listeners == old(listeners)
      ensures callback !in old(listeners)[event] ==> listeners == old(listeners)[event := old(listeners)[event] + [callback]]
      ensures state == old(state) && outbox == old(outbox) && subscribers == old(subscribers)
      ensures nextSubscriberId == old(nextSubscriberId) && nextSerial == old(nextSerial)
      ensures CaptureKept() && PlaybackKept()
    {
      if callback !in listeners[event] {
        listeners := listeners[event := listeners[event] + [callback]];
      }
    }

    /** The function `on` returns: removes that callback from the event's set. */
    method Off(event: RecorderEvent, callback: nat)
      requires Valid()
      modifies this
      ensures Valid()
      ensures listeners == old(listeners)[event := Remove(old(listeners)[event], callback)]
      ensures state == old(state) && outbox == old(outbox) && subscribers == old(subscribers)
      ensures nextSubscriberId == old(nextSubscriberId) && nextSerial == old(nextSerial)
      ensures CaptureKept() && PlaybackKept()
    {
      listeners := listeners[event := Remove(listeners[event], callback)];
    }

    /** `emit`: calls each listener of the event once, in insertion order. */
    method Emit(event: RecorderEvent, payload: Option<Blob>)
      requires Valid()
      modifies this
      ensures Valid()
      ensures outbox == old(outbox) + Emission(event, listeners[event], payload)
      ensures state == old(state) && subscribers == old(subscribers) && listeners == old(listeners)
      ensures nextSubscriberId == old(nextSubscriberId) && nextSerial == old(nextSerial)
      ensures CaptureKept() && PlaybackKept()
    {
      var ls, calls := listeners[event], [];
      for i := 0 to |ls|
        invariant calls == Emission(event, ls[..i], payload)
      {
        assert ls[..i + 1][..i] == ls[..i];
        calls := calls + EmitTo(event, ls[i], payload);
      }
      assert ls[..|ls|] == ls;
      outbox := outbox + calls;
    }

    /**
      `recordingStart`. With the device acquired it builds the capture graph,
      resets the chunks, publishes RecordingStarted with `startedAt = now`, an
      empty waveform and no error, and schedules the recording loop. When the
      acquisition throws, only `error` is published. The current status is not
      consulted.
     */
    method RecordingStart(failure: Option<StartFailure>, now: int)
      requires Valid()
      modifies this
      ensures Valid()
      ensures Published() && PlaybackKept()
      ensures failure.Some? ==>
        && state == old(state).(error := Some(FailureMessage(failure.value)), serial := old(nextSerial))
        && CaptureKept()
      ensures failure.None? ==>
        && state == old(state).(status := RecordingStarted, startedAt := now, waveformData := [], error := None,
                                serial := old(nextSerial))
        && mediaRecorder && capturing && stream && chunks == []
        && analyser && audioContext && !audioContextClosed && recordingFramePending
    {
      if failure.Some? {
        SetState(NoKeys.(error := Some(Some(FailureMessage(failure.value)))));
      } else {
        OpenCapture();
        SetState(NoKeys.(status := Some(RecordingStarted), startedAt := Some(now),
                         waveformData := Some([]), error := Some(None)));
        recordingFramePending := true;
      }
    }

    /**
      The part of `recordingStart` before the state update: the acquired stream,
      a fresh audio context with its analyser, a media recorder started on the
      stream, and an emptied chunk list.
     */
    method OpenCapture()
      modifies this
      ensures mediaRecorder && capturing && stream && chunks == []
      ensures analyser && audioContext && !audioContextClosed
      ensures recordingFramePending == old(recordingFramePending)
      ensures HubKept() && PlaybackKept()
    {
      stream, chunks := true, [];
      audioContext, audioContextClosed, analyser := true, false, true;
      mediaRecorder, capturing := true, true;
    }

    /** `ondataavailable`: a non-empty chunk is kept. */
    method DataAvailable(data: seq<byte>)
      modifies this
      ensures chunks == if |data| > 0 then old(chunks) + [data] else old(chunks)
      ensures mediaRecorder == old(mediaRecorder) && capturing == old(capturing) && stream == old(stream)
      ensures analyser == old(analyser) && audioContext == old(audioContext)
      ensures audioContextClosed == old(audioContextClosed) && recordingFramePending == old(recordingFramePending)
      ensures HubKept() && PlaybackKept()
    {
      if |data| > 0 {
        chunks := chunks + [data];
      }
    }

    /**
      `recordingStop`: only with a media recorder and status RecordingStarted
      does it stop the capture (its `onstop` later runs HandleRecordingComplete)
      and cancel the recording loop; otherwise nothing happens.
     */
    method RecordingStop()
      modifies this
      ensures old(mediaRecorder) && old(state).status == RecordingStarted ==> !capturing && !recordingFramePending
      ensures !(old(mediaRecorder) && old(state).status == RecordingStarted) ==>
        capturing == old(capturing) && recordingFramePending == old(recordingFramePending)
      ensures mediaRecorder == old(mediaRecorder) && stream == old(stream) && chunks == old(chunks)
      ensures analyser == old(analyser) && audioContext == old(audioContext)
      ensures audioContextClosed == old(audioContextClosed)
      ensures HubKept() && PlaybackKept()
    {
      if mediaRecorder && state.status == RecordingStarted {
        capturing := false;
        recordingFramePending := false;
      }
    }

    /**
      `handleRecordingComplete`, the `onstop` handler. `rendered` is what the
      decoding and resampling of the chunks produced, or `None` when that
      rejected (then nothing further happens). It publishes one update
      (RecordingStopped, the WAV blob, `endedAt = now`, `totalTime` in seconds
      since `startedAt`, cursor 0), then emits "recording-complete" with the
      same blob, then releases the stream.
     */
    method HandleRecordingComplete(rendered: Option<AudioBuffer>, now: int)
      requires Valid()
      modifies this
      ensures Valid()
      ensures PlaybackKept()
      ensures rendered.None? ==> HubKept() && CaptureKept()
      ensures rendered.Some? ==>
        var wav := Blob(WavFile(rendered.value), WAV_MIME_TYPE, old(nextSerial));
        && state == old(state).(status := RecordingStopped, audioBlob := Some(wav),
             totalTime := ElapsedSeconds(old(state).startedAt, now), endedAt := Some(now), cursorTime := 0.0,
             serial := old(nextSerial) + 1)
        && state.audioBlob != old(state).audioBlob
        && nextSerial == old(nextSerial) + 2
        && subscribers == Broadcast(old(subscribers), state).subscribers
        && outbox == old(outbox) + Broadcast(old(subscribers), state).notices
                     + Emission(RecordingCompleteEvent, listeners[RecordingCompleteEvent], Some(wav))
        && listeners == old(listeners) && nextSubscriberId == old(nextSubscriberId)
        && !stream
        && mediaRecorder == old(mediaRecorder) && capturing == old(capturing) && chunks == old(chunks)
        && analyser == old(analyser) && audioContext == old(audioContext)
        && audioContextClosed == old(audioContextClosed) && recordingFramePending == old(recordingFramePending)
    {
      if rendered.None? {
        return;
      }
      var wavBlob := AudioBufferToWav(rendered.value, nextSerial);
      nextSerial := nextSerial + 1;
      var endedAt := now;
      var totalTime := ElapsedSeconds(state.startedAt, endedAt);
      SetState(NoKeys.(status := Some(RecordingStopped), audioBlob := Some(Some(wavBlob)),
                       totalTime := Some(totalTime), endedAt := Some(Some(endedAt)), cursorTime := Some(0.0)));
      Emit(RecordingCompleteEvent, Some(wavBlob));
      if stream {
        stream := false;
      }
    }

    /**
      `playbackStart`: nothing without a blob. Otherwise it creates the audio
      element if there is none, plays it, publishes PlaybackStarted, adds one
      more "ended" listener to the element and schedules the playback loop.
     */
    method PlaybackStart()
      requires Valid()
      modifies this
      ensures Valid()
      ensures CaptureKept()
      ensures old(state).audioBlob.None? ==> HubKept() && PlaybackKept()
      ensures old(state).audioBlob.Some? ==>
        && state == old(state).(status := PlaybackStarted, serial := old(nextSerial))
        && Published()
        && playbackFramePending
        && var before := if old(audioElement).Some? then old(audioElement).value else AudioElement(true, 0.0, 0);
           audioElement == Some(before.(paused := false, endedListeners := before.endedListeners + 1))
    {
      if state.audioBlob.None? {
        return;
      }
      if audioElement.None? {
        audioElement := Some(AudioElement(true, 0.0, 0));
      }
      audioElement := Some(audioElement.value.(paused := false));
      SetState(NoKeys.(status := Some(PlaybackStarted)));
      audioElement := Some(audioElement.value.(endedListeners := audioElement.value.endedListeners + 1));
      playbackFramePending := true;
    }

    /**
      The element's "ended" event: every registered "ended" listener cancels
      the playback loop and publishes PlaybackPaused with the cursor at 0.
     */
    method PlaybackEnded()
      requires Valid() && audioElement.Some?
      modifies this
      ensures Valid()
      ensures nextSerial == old(nextSerial) + old(audioElement).value.endedListeners
      ensures old(audioElement).value.endedListeners > 0 ==>
        && state == old(state).(status := PlaybackPaused, cursorTime := 0.0, serial := nextSerial - 1)
        && !playbackFramePending
      ensures old(audioElement).value.endedListeners == 0 ==>
        state == old(state) && playbackFramePending == old(playbackFramePending)
      ensures audioElement == Some(old(audioElement).value.(paused := true))
      ensures listeners == old(listeners) && nextSubscriberId == old(nextSubscriberId)
      ensures |subscribers| == |old(subscribers)|
      ensures forall k :: 0 <= k < |subscribers| ==> subscribers[k].id == old(subscribers)[k].id
      ensures |outbox| >= |old(outbox)| && outbox[..|old(outbox)|] == old(outbox)
      ensures CaptureKept()
    {
      audioElement := Some(audioElement.value.(paused := true));
      var n := audioElement.value.endedListeners;
      for i := 0 to n
        invariant Valid()
        invariant nextSerial == old(nextSerial) + i
        invariant i > 0 ==>
          state == old(state).(status := PlaybackPaused, cursorTime := 0.0, serial := nextSerial - 1) && !playbackFramePending
        invariant i == 0 ==> state == old(state) && playbackFramePending == old(playbackFramePending)
        invariant audioElement == Some(old(audioElement).value.(paused := true))
        invariant listeners == old(listeners) && nextSubscriberId == old(nextSubscriberId)
        invariant |subscribers| == |old(subscribers)|
        invariant forall k :: 0 <= k < |subscribers| ==> subscribers[k].id == old(subscribers)[k].id
        invariant |outbox| >= |old(outbox)| && outbox[..|old(outbox)|] == old(outbox)
        invariant CaptureKept()
      {
        playbackFramePending := false;
        ghost var before := outbox;
        ghost var subs := subscribers;
        SetState(NoKeys.(status := Some(PlaybackPaused), cursorTime := Some(0.0)));
        BroadcastKeepsIds(subs, state);
        assert outbox[..|before|] == before;
      }
    }

    /** `playbackPause`: from any status, pause the element if any, cancel the loop, publish PlaybackPaused. */
    method PlaybackPause()
      requires Valid()
      modifies this
      ensures Valid()
      ensures state == old(state).(status := PlaybackPaused, serial := old(nextSerial))
      ensures Published() && CaptureKept()
      ensures audioElement == if old(audioElement).Some? then Some(old(audioElement).value.(paused := true)) else None
      ensures !playbackFramePending
    {
      if audioElement.Some? {
        audioElement := Some(audioElement.value.(paused := true));
      }
      playbackFramePending := false;
      SetState(NoKeys.(status := Some(PlaybackPaused)));
    }

    /** `seekToTime`: moves the element (if any) and publishes the cursor, unclamped. */
    method SeekToTime(time: real)
      requires Valid()
      modifies this
      ensures Valid()
      ensures state == old(state).(cursorTime := time, serial := old(nextSerial))
      ensures Published() && CaptureKept()
      ensures audioElement == if old(audioElement).Some? then Some(old(audioElement).value.(currentTime := time)) else None
      ensures playbackFramePending == old(playbackFramePending)
    {
      if audioElement.Some? {
        audioElement := Some(audioElement.value.(currentTime := time));
      }
      SetState(NoKeys.(cursorTime := Some(time)));
    }

    /**
      `seekToPosition`: throws, changing nothing, for a position outside
      [0, 1]; otherwise seeks to `position × totalTime`.
     */
    method SeekToPosition(position: real) returns (r: Result<(), SeekError>)
      requires Valid()
      modifies this
      ensures Valid()
      ensures CaptureKept()
      ensures r.Err? <==> position < 0.0 || position > 1.0
      ensures r.Err? ==> r.error == InvalidSeekPosition(position) && HubKept() && PlaybackKept()
      ensures r.Ok? ==>
        var time := position * old(state).totalTime;
        && state == old(state).(cursorTime := time, serial := old(nextSerial))
        && Published()
        && audioElement == (if old(audioElement).Some? then Some(old(audioElement).value.(currentTime := time)) else None)
        && playbackFramePending == old(playbackFramePending)
    {
      if position < 0.0 || position > 1.0 {
        return Err(InvalidSeekPosition(position));
      }
      var time := position * state.totalTime;
      SeekToTime(time);
      return Ok(());
    }

    /**
      `recordingClear`: from any status, drop the audio element, cancel both
      loops, publish the initial state, then emit "recording-cleared".
     */
    method RecordingClear()
      requires Valid()
      modifies this
      ensures Valid()
      ensures state == InitialState(old(nextSerial)) && nextSerial == old(nextSerial) + 1
      ensures subscribers == Broadcast(old(subscribers), state).subscribers
      ensures outbox == old(outbox) + Broadcast(old(subscribers), state).notices
                        + Emission(RecordingClearedEvent, listeners[RecordingClearedEvent], None)
      ensures listeners == old(listeners) && nextSubscriberId == old(nextSubscriberId)
      ensures audioElement.None? && !playbackFramePending && !recordingFramePending
      ensures mediaRecorder == old(mediaRecorder) && capturing == old(capturing) && stream == old(stream)
      ensures chunks == old(chunks) && analyser == old(analyser) && audioContext == old(audioContext)
      ensures audioContextClosed == old(audioContextClosed)
    {
      if audioElement.Some? {
        audioElement := None;
      }
      recordingFramePending := false;
      playbackFramePending := false;
      MergeAllKeys(state, InitialState(nextSerial), nextSerial);
      SetState(AllKeys(InitialState(nextSerial)));
      Emit(RecordingClearedEvent, None);
    }

    /**
      `updateRecordingState`, one animation frame of the recording loop. It
      does nothing (and schedules nothing) unless the analyser exists and the
      status is RecordingStarted; otherwise it appends exactly one level
      `min(1, 5·rms)`, moves the cursor to the elapsed seconds, and schedules
      the next frame.
     */
    method RecordingTick(rms: real, now: int)
      requires Valid() && rms >= 0.0
      modifies this
      ensures Valid()
      ensures PlaybackKept()
      ensures mediaRecorder == old(mediaRecorder) && capturing == old(capturing) && stream == old(stream)
      ensures chunks == old(chunks) && analyser == old(analyser) && audioContext == old(audioContext)
      ensures audioContextClosed == old(audioContextClosed)
      ensures !old(analyser) || old(state).status != RecordingStarted ==> HubKept() && !recordingFramePending
      ensures old(analyser) && old(state).status == RecordingStarted ==>
        && state == old(state).(cursorTime := ElapsedSeconds(old(state).startedAt, now),
                                waveformData := old(state).waveformData + [Level(rms)], serial := old(nextSerial))
        && Published()
        && recordingFramePending
    {
      if !analyser || state.status != RecordingStarted {
        recordingFramePending := false;
        return;
      }
      var normalizedValue := Level(rms);
      var cursorTime := ElapsedSeconds(state.startedAt, now);
      SetState(NoKeys.(cursorTime := Some(cursorTime), waveformData := Some(state.waveformData + [normalizedValue])));
      recordingFramePending := true;
    }

    /**
      `updatePlaybackState`, one animation frame of the playback loop: unless
      the element exists, is playing and the status is PlaybackStarted it stops;
      otherwise it publishes the element's position `elementTime` as the cursor
      and schedules the next frame.
     */
    method PlaybackTick(elementTime: real)
      requires Valid()
      modifies this
      ensures Valid()
      ensures CaptureKept()
      ensures old(audioElement).None? || old(audioElement).value.paused || old(state).status != PlaybackStarted ==>
        HubKept() && audioElement == old(audioElement) && !playbackFramePending
      ensures old(audioElement).Some? && !old(audioElement).value.paused && old(state).status == PlaybackStarted ==>
        && state == old(state).(cursorTime := elementTime, serial := old(nextSerial))
        && Published()
        && audioElement == Some(old(audioElement).value.(currentTime := elementTime))
        && playbackFramePending
    {
      if audioElement.None? || audioElement.value.paused || state.status != PlaybackStarted {
        playbackFramePending := false;
        return;
      }
      audioElement := Some(audioElement.value.(currentTime := elementTime));
      SetState(NoKeys.(cursorTime := Some(elementTime)));
      playbackFramePending := true;
    }

    /**
      `destroy`: `recordingClear`, then close the audio context if one was
      made, then drop every subscriber and empty both listener sets.
     */
    method Destroy()
      requires Valid()
      modifies this
      ensures Valid()
      ensures state == InitialState(old(nextSerial)) && nextSerial == old(nextSerial) + 1
      ensures outbox == old(outbox) + Broadcast(old(subscribers), state).notices
                        + Emission(RecordingClearedEvent, old(listeners)[RecordingClearedEvent], None)
      ensures subscribers == [] && listeners == map[RecordingCompleteEvent := [], RecordingClearedEvent := []]
      ensures nextSubscriberId == old(nextSubscriberId)
      ensures audioElement.None? && !playbackFramePending && !recordingFramePending
      ensures audioContextClosed == (old(audioContextClosed) || old(audioContext))
      ensures mediaRecorder == old(mediaRecorder) && capturing == old(capturing) && stream == old(stream)
      ensures chunks == old(chunks) && analyser == old(analyser) && audioContext == old(audioContext)
    {
      RecordingClear();
      if audioContext {
        audioContextClosed := true;
      }
      subscribers := [];
      listeners := map[RecordingCompleteEvent := [], RecordingClearedEvent := []];
    }
  }

  lemma {:induction false} WithoutIds(subs: seq<Subscriber>, id: nat)
    requires DistinctIds(subs)
    ensures DistinctIds(Without(subs, id))
    ensures forall k :: 0 <= k < |Without(subs, id)| ==> exists j :: 0 <= j < |subs| && Without(subs, id)[k].id == subs[j].id
  {
    if subs != [] {
      WithoutIds(subs[1..], id);
      var rest := Without(subs[1..], id);
      forall k | 0 <= k < |rest| ensures rest[k].id != subs[0].id {
        var j :| 0 <= j < |subs[1..]| && rest[k].id == subs[1..][j].id;
        assert subs[1..][j] == subs[j + 1];
      }
      var r := Without(subs, id);
      forall k | 0 <= k < |r| ensures exists j :: 0 <= j < |subs| && r[k].id == subs[j].id {
        if subs[0].id == id {
          var j :| 0 <= j < |subs[1..]| && r[k].id == subs[1..][j].id;
          assert subs[1..][j] == subs[j + 1];
        } else if k > 0 {
          assert r[k] == rest[k - 1];
          var j :| 0 <= j < |subs[1..]| && rest[k - 1].id == subs[1..][j].id;
          assert subs[1..][j] == subs[j + 1];
        } else {
          assert r[0] == subs[0];
        }
      }
    }
  }
}
