/**
  wyoming_voiceprint/handler.py: the Wyoming event handler. It collects the
  audio of one stream between audio-start and audio-stop and, on a
  transcript, tags the transcript with the identified speaker's id. The
  identification itself (the temporary WAV file and the voiceprint call)
  is an input: what `_identify_speaker_from_audio` would return once its
  guards pass, or a raised exception. Events written back are kept in an
  output log.
 */
module WyomingHandler {
  import opened Wrappers
  import opened Bytes
  import opened PyValues

  const DEFAULT_CHANNELS: real := 1.0
  const DEFAULT_WIDTH: real := 2.0
  const DEFAULT_RATE: real := 16000.0

  /** An event: its type name, its data dictionary (or none) and its payload bytes (or none). */
  datatype Event = Event(eventType: string, data: Option<map<string, PyValue>>, payload: Option<seq<byte>>)

  /**
    The outcome of writing a temporary WAV file and identifying its speaker: an
    id, none, or an exception (from `wave`, from the file system or from the
    identification).
   */
  datatype Identification = Identified(speakerId: string) | NotIdentified | Raised

  /** `params.get(key, default)` for a numeric parameter. */
  function ParamOr(params: map<string, PyValue>, key: string, default: real): PyValue {
    if key in params then params[key] else PyNum(default)
  }

  /** The WAV parameters `wave.open` is given: channels, sample width and frame rate. */
  datatype WavParams = WavParams(channels: PyValue, width: PyValue, rate: PyValue)

  function WavParamsOf(params: map<string, PyValue>): (p: WavParams)
    ensures "channels" !in params ==> p.channels == PyNum(1.0)
    ensures "width" !in params ==> p.width == PyNum(2.0)
    ensures "rate" !in params ==> p.rate == PyNum(16000.0)
  {
    WavParams(ParamOr(params, "channels", DEFAULT_CHANNELS), ParamOr(params, "width", DEFAULT_WIDTH),
              ParamOr(params, "rate", DEFAULT_RATE))
  }

  /**
    The transcript with the speaker id added: a copy of the event data (or
    `{}`), whose `ext` is replaced by `{}` unless it is a non-empty
    dictionary, and `ext["speaker_id"]` set.
   */
  function TagTranscript(event: Event, speakerId: string): Event {
    var data := if event.data.Some? && |event.data.value| != 0 then event.data.value else map[];
    var ext := if "ext" in data && data["ext"].PyDict? && |data["ext"].entries| != 0
               then data["ext"].entries else map[];
    Event(event.eventType, Some(data["ext" := PyDict(ext["speaker_id" := PyStr(speakerId)])]), event.payload)
  }

  /**
    The tagged event keeps the type, the payload, every other data key and
    every other `ext` entry of a non-empty `ext` dictionary, and its
    `ext.speaker_id` is the id.
   */
  lemma TagTranscriptSpec(event: Event, speakerId: string)
    ensures var t := TagTranscript(event, speakerId);
      && t.eventType == event.eventType && t.payload == event.payload
      && t.data.Some? && "ext" in t.data.value && t.data.value["ext"].PyDict?
      && "speaker_id" in t.data.value["ext"].entries
      && t.data.value["ext"].entries["speaker_id"] == PyStr(speakerId)
      && (event.data.Some? ==> forall k :: k in event.data.value && k != "ext" ==> k in t.data.value && t.data.value[k] == event.data.value[k])
      && (event.data.Some? && "ext" in event.data.value && event.data.value["ext"].PyDict? ==>
            forall k :: k in event.data.value["ext"].entries && k != "speaker_id" ==>
              k in t.data.value["ext"].entries && t.data.value["ext"].entries[k] == event.data.value["ext"].entries[k])
  {
  }

  /** The event written for a transcript: tagged for a truthy speaker id, otherwise the transcript itself. */
  function TranscriptReply(event: Event, id: Option<string>): Event {
    if id.Some? && id.value != "" then TagTranscript(event, id.value) else event
  }

  /** `handle_event` and its four handlers over the handler's three fields. */
  class WyomingEventHandler {
    var audioBuffer: seq<byte>
    var audioParams: Option<map<string, PyValue>>
    var isRecording: bool
    /** The events passed to `write_event`, oldest first. */
    var written: seq<Event>

    /** An empty buffer, no parameters, not recording. */
    constructor ()
      ensures audioBuffer == [] && audioParams == None && !isRecording && written == []
    {
      audioBuffer, audioParams, isRecording, written := [], None, false, [];
    }

    /** `_handle_audio_start`: a fresh buffer, the event data as parameters, recording. */
    method HandleAudioStart(event: Event)
      modifies this
      ensures audioBuffer == [] && audioParams == event.data && isRecording
      ensures written == old(written)
    {
      audioBuffer := [];
      audioParams := event.data;
      isRecording := true;
    }

    /** `_handle_audio_chunk`: the payload is appended only while recording and only if it is non-empty. */
    method HandleAudioChunk(event: Event)
      modifies this
      ensures audioBuffer == if isRecording && event.payload.Some? && event.payload.value != []
                             then old(audioBuffer) + event.payload.value else old(audioBuffer)
      ensures audioParams == old(audioParams) && isRecording == old(isRecording) && written == old(written)
    {
      if isRecording && event.payload.Some? && event.payload.value != [] {
        audioBuffer := audioBuffer + event.payload.value;
      }
    }

    /** `_handle_audio_stop`: recording ends, the buffer is kept. */
    method HandleAudioStop(event: Event)
      modifies this
      ensures !isRecording
      ensures audioBuffer == old(audioBuffer) && audioParams == old(audioParams) && written == old(written)
    {
      isRecording := false;
    }

    /**
      `_identify_speaker_from_audio`: none without truthy parameters or with
      an empty buffer; otherwise the id that `identify` gives for the WAV file
      written with `WavParamsOf(parameters)` and the buffer's frames, an
      exception or no match turning into none.
     */
    function IdentifySpeakerFromAudio(identify: (WavParams, seq<byte>) -> Identification): (r: Option<string>)
      reads this
      ensures audioParams.None? || |audioParams.value| == 0 || audioBuffer == [] ==> r.None?
      ensures r.Some? ==>
        && audioParams.Some? && |audioParams.value| != 0 && audioBuffer != []
        && identify(WavParamsOf(audioParams.value), audioBuffer) == Identified(r.value)
      ensures audioParams.Some? && |audioParams.value| != 0 && audioBuffer != [] ==>
        (r.Some? <==> identify(WavParamsOf(audioParams.value), audioBuffer).Identified?)
    {
      if audioParams.None? || |audioParams.value| == 0 || audioBuffer == [] then None
      else
        match identify(WavParamsOf(audioParams.value), audioBuffer)
        case Identified(id) => Some(id)
        case _ => None
    }

    /**
      `_handle_transcript`: nothing is written for an empty buffer; with an
      identified, non-empty speaker id the tagged transcript is written,
      otherwise the original event is forwarded.
     */
    method HandleTranscript(event: Event, identify: (WavParams, seq<byte>) -> Identification)
      modifies this
      ensures audioBuffer == old(audioBuffer) && audioParams == old(audioParams) && isRecording == old(isRecording)
      ensures old(audioBuffer) == [] ==> written == old(written)
      ensures old(audioBuffer) != [] ==>
        var id := IdentifySpeakerFromAudio(identify);
        written == old(written) + [TranscriptReply(event, id)]
    {
      if audioBuffer == [] {
        return;
      }
      var id := IdentifySpeakerFromAudio(identify);
      if id.Some? && id.value != "" {
        written := written + [TagTranscript(event, id.value)];
      } else {
        written := written + [event];
      }
    }

    /** `handle_event`: dispatch on the type, always answering true; other types change nothing. */
    method HandleEvent(event: Event, identify: (WavParams, seq<byte>) -> Identification) returns (handled: bool)
      modifies this
      ensures handled
      ensures event.eventType != "transcript" ==> written == old(written)
      ensures event.eventType == "audio-start" ==> audioBuffer == [] && audioParams == event.data && isRecording
      ensures event.eventType == "audio-chunk" ==>
        && audioBuffer == (if isRecording && event.payload.Some? && event.payload.value != []
                           then old(audioBuffer) + event.payload.value else old(audioBuffer))
        && audioParams == old(audioParams) && isRecording == old(isRecording)
      ensures event.eventType == "audio-stop" ==>
        !isRecording && audioBuffer == old(audioBuffer) && audioParams == old(audioParams)
      ensures event.eventType == "transcript" ==>
        && audioBuffer == old(audioBuffer) && audioParams == old(audioParams) && isRecording == old(isRecording)
        && written == if old(audioBuffer) == [] then old(written)
                      else old(written) + [TranscriptReply(event, IdentifySpeakerFromAudio(identify))]
      ensures event.eventType !in {"audio-start", "audio-chunk", "audio-stop", "transcript"} ==>
        && audioBuffer == old(audioBuffer) && audioParams == old(audioParams)
        && isRecording == old(isRecording) && written == old(written)
    {
      if event.eventType == "audio-start" {
        HandleAudioStart(event);
      } else if event.eventType == "audio-chunk" {
        HandleAudioChunk(event);
      } else if event.eventType == "audio-stop" {
        HandleAudioStop(event);
      } else if event.eventType == "transcript" {
        HandleTranscript(event, identify);
      }
      return true;
    }
  }

  /** The non-empty payloads of a run of chunk events, concatenated. */
  function Chunks(events: seq<Event>): seq<byte> {
    if events == [] then []
    else
      var e := events[|events| - 1];
      Chunks(events[..|events| - 1]) + (if e.payload.Some? then e.payload.value else [])
  }

  /**
    After an audio-start, a run of chunk events leaves in the buffer exactly
    their payloads, concatenated in order.
   */
  method StartThenChunks(handler: WyomingEventHandler, start: Event, chunks: seq<Event>)
    requires start.eventType == "audio-start"
    requires forall i :: 0 <= i < |chunks| ==> chunks[i].eventType == "audio-chunk"
    modifies handler
    ensures handler.isRecording && handler.audioParams == start.data
    ensures handler.audioBuffer == Chunks(chunks)
  {
    var _ := handler.HandleEvent(start, (p, b) => NotIdentified);
    var i := 0;
    while i < |chunks|
      invariant 0 <= i <= |chunks|
      invariant handler.isRecording && handler.audioParams == start.data
      invariant handler.audioBuffer == Chunks(chunks[..i])
    {
      var _ := handler.HandleEvent(chunks[i], (p, b) => NotIdentified);
      assert chunks[..i + 1][..i] == chunks[..i];
      i := i + 1;
    }
    assert chunks[..i] == chunks;
  }
}
