# voiceprint — a Dafny model of its recorder, speaker library and stores

This project models the deterministic core of the loque/voiceprint repository:

- **Browser recorder** (`web_ui/src/components/recorder/`):
  - the `AudioRecorderCore` state machine (Idle, RecordingStarted, RecordingStopped, PlaybackStarted, PlaybackPaused);
  - its selector-based subscriptions and its named events;
  - the byte-exact RIFF WAVE packer `audioBufferToWav`, following the WAVE form section of the Microsoft/IBM *Multimedia Programming Interface and Data Specifications 1.0*;
  - the `m:ss` formatter;
  - the waveform canvas layout and colour rules;
  - the status-to-controls table of `RecorderControls`.
- **Python speaker library** (`voiceprint/`):
  - name sanitising;
  - `Speaker` and `Library` with their dictionary forms and `from_dict` checks;
  - unique-id insertion and removal by id;
  - the `Voiceprint` service's loaded-library state: create, import, list, load, delete, enroll, unenroll and best-match identification.
- **Wyoming event handler** (`wyoming_voiceprint/handler.py`): the audio-start/chunk/stop/transcript state machine and its byte buffer.
- **Mock store** (`frontend/lib/store.ts`): voices, samples and models, with exactly one active model.
- **Web UI validators and the library-list updaters** (`web_ui/src/lib/`).

## How the model is built

- **State the source updates in place becomes a class.** These are `AudioRecorderCore`, `Library`, `Voiceprint`, `WyomingEventHandler` and `Store`.
  - Fields are reassigned by methods with `modifies` clauses.
  - Each method's `ensures` states the whole new state.
- **Pure rules become functions, with lemmas about them.** These are sanitising, dictionary forms, the validators, canvas layout, controls and list updaters.
- **Source loops become methods with a loop and its invariants:**
  - sample packing in `AudioBufferToWav`;
  - the subscriber `forEach` in `Notify`;
  - `emit`;
  - `remove_speaker`;
  - `list_libraries`;
  - the running best of `identify_speaker` in `SelectBest`;
  - the file checks of `enroll_speaker`;
  - `loadModel`.
- **Python values** are the `PyValue` datatype (None, bool, number, str, list, dict, NumPy array). Raised exceptions are `Err(PyError)` results.
- **Inputs stand in for the outside world.** I/O, time, randomness and foreign computations are parameters:
  - `now`;
  - the decoded audio buffer;
  - the RMS level;
  - the set of existing audio paths;
  - the mean embedding;
  - a similarity score per speaker;
  - the identification outcome;
  - object URLs.
- **Files.** The libraries directory is a map from file name to what unpickling the file gives. Events written back by the handler, and callbacks run by the recorder, are kept in output logs.

## Model

| member | source | states |
|---|---|---|
| RecorderHelpers.SampleValue | web_ui/src/components/recorder/helpers.ts:31-32 | The stored int16 lies in [-32767, 32767]. Samples at or beyond ±1 saturate to ±32767 (one 0x7fff scale for both signs). The sign is kept and 0 maps to 0. |
| RecorderHelpers.WriteString | web_ui/src/components/recorder/helpers.ts:9-13 | Writes the ASCII codes of the tag at the offset and changes no other byte. |
| RecorderHelpers.WriteRiffDescriptor | web_ui/src/components/recorder/helpers.ts:15-17 | Writes "RIFF", the uint32 36+2n and "WAVE" at 0, 4 and 8, leaving every other byte. |
| RecorderHelpers.WriteFmtChunk | web_ui/src/components/recorder/helpers.ts:18-25 | Writes "fmt " and the PCM fields 16, 1, 1, rate, rate·2, 2, 16 at 12–35, leaving every other byte. |
| RecorderHelpers.WriteDataChunkHeader | web_ui/src/components/recorder/helpers.ts:26-27 | Writes "data" and the uint32 2n at 36 and 40, leaving every other byte. |
| RecorderHelpers.WriteHeader | web_ui/src/components/recorder/helpers.ts:15-27 | The first 44 bytes become the WAVE header for n frames at the rate. |
| RecorderHelpers.AudioBufferToWav | web_ui/src/components/recorder/helpers.ts:1-37 | The packed bytes are exactly the header followed by each sample's int16 at 44+2i, and the blob type is audio/wav. |
| RecorderHelpers.WavFileSize | web_ui/src/components/recorder/helpers.ts:5 | The file is 44 + 2·length bytes. |
| RecorderHelpers.WavFileTags | web_ui/src/components/recorder/helpers.ts:15-26 | "RIFF", "WAVE", "fmt " and "data" stand at offsets 0, 8, 12 and 36. |
| RecorderHelpers.WavFileFields | web_ui/src/components/recorder/helpers.ts:16-27 | Reading each little-endian field back gives 36+2n, 16, 1, 1, rate, rate·2, 2, 16 and 2n, each reduced modulo its width. |
| RecorderHelpers.WavFileSampleAt | web_ui/src/components/recorder/helpers.ts:29-34 | The two bytes at 44+2i are the little-endian int16 of clamped, scaled sample i. |
| RecorderHelpers.WavFileRoundTrip | web_ui/src/components/recorder/helpers.ts:16-34 | When rate·2 < 2^32 and 36 + 2n < 2^32, decoding recovers the sample rate (offset 24), the data size 2n (offset 40) and every stored sample. |
| RecorderHelpers.MinutesAndSeconds | web_ui/src/components/recorder/helpers.ts:68-69 | For s ≥ 0: minutes ≥ 0, seconds in 0..59, and 60·m + ss = ⌊s⌋. |
| RecorderHelpers.TwoDigits | web_ui/src/components/recorder/helpers.ts:70 | padStart(2, "0") of a value below 60 is two digits that read back as that value. |
| RecorderHelpers.SecondsToTimeShape | web_ui/src/components/recorder/helpers.ts:67-71 | For s ≥ 0 the text is m, ':' and exactly two digits, with m = ⌊s/60⌋, ss < 60 and 60·m + ss = ⌊s⌋. |
| RecorderCore.MergeAllKeys | web_ui/src/components/recorder/audio-recorder-core.ts:85 | Spreading an update that carries every key yields exactly that record's contents, whatever the old state, as a new object with its own identity. |
| RecorderCore.MergeIdempotent | web_ui/src/components/recorder/audio-recorder-core.ts:85 | Applying the same partial update twice gives the same contents as applying it once; an empty update keeps the contents. Each spread is a new object with a new identity. |
| RecorderCore.OfferDelivers | web_ui/src/components/recorder/audio-recorder-core.ts:95-107 | A wrapped callback delivers exactly when the comparator accepts the new value or, without one, when `lastValue !== value`: a different object (state or blob) by identity, or a different primitive. It then delivers it once and advances `lastValue`; otherwise `lastValue` stays. |
| RecorderCore.NewObjectDelivered | web_ui/src/components/recorder/audio-recorder-core.ts:95-107 | Without a comparator, a new state object or a new blob is always delivered, even with unchanged contents: a `(state) => state` subscriber is called on every `setState`. |
| RecorderCore.Broadcast | web_ui/src/components/recorder/audio-recorder-core.ts:86 | Every subscriber is offered the state once, in registration order, and stays registered. |
| RecorderCore.BroadcastKeepsIds | web_ui/src/components/recorder/audio-recorder-core.ts:86 | Offering a state keeps each subscriber in its place. |
| RecorderCore.BroadcastDeliveries | web_ui/src/components/recorder/audio-recorder-core.ts:86 | Subscriber id receives value v iff it is registered, v is its selection of the new state and its change test accepts v. At most one delivery per subscriber. |
| RecorderCore.Notify | web_ui/src/components/recorder/audio-recorder-core.ts:86 | The `forEach` loop produces exactly the broadcast's updated subscribers and deliveries. |
| RecorderCore.Without | web_ui/src/components/recorder/audio-recorder-core.ts:113-115 | Unsubscribing leaves no subscriber with that handle and never lengthens the list. |
| RecorderCore.WithoutAbsent | web_ui/src/components/recorder/audio-recorder-core.ts:113-115 | Unsubscribing an absent handle changes nothing. |
| RecorderCore.WithoutRemovesOne | web_ui/src/components/recorder/audio-recorder-core.ts:113-115 | Unsubscribing removes exactly that one subscriber and keeps the others in order. |
| RecorderCore.WithoutIds | web_ui/src/components/recorder/audio-recorder-core.ts:113-115 | Removal keeps handles distinct and introduces no new handle. |
| RecorderCore.Remove | web_ui/src/components/recorder/audio-recorder-core.ts:127-132 | Deleting a listener leaves exactly the other listeners. |
| RecorderCore.Emission | web_ui/src/components/recorder/audio-recorder-core.ts:143-152 | "recording-complete" with a blob calls each listener once with that blob, in order. "recording-cleared" calls each once with no argument. |
| RecorderCore.Level | web_ui/src/components/recorder/audio-recorder-core.ts:321 | `min(1, rms·5)` lies in [0, 1], is 1 or rms·5, and never exceeds rms·5. |
| RecorderCore.AudioRecorderCore.constructor | web_ui/src/components/recorder/audio-recorder-core.ts:55-77 | Starts in the initial state (Idle, times 0, no end, no blob, empty waveform, no error). There are no subscribers, the two listener sets are empty and no browser object exists. |
| RecorderCore.AudioRecorderCore.SetState | web_ui/src/components/recorder/audio-recorder-core.ts:84-87 | The new state is a new object: the old one with exactly the given keys overwritten, under a fresh identity. Every subscriber is then offered it once, and capture and playback objects are unchanged. |
| RecorderCore.AudioRecorderCore.Subscribe | web_ui/src/components/recorder/audio-recorder-core.ts:89-116 | Registers one subscriber with `lastValue = selector(state)` under a fresh handle, and delivers `selector(state)` immediately; nothing else changes. |
| RecorderCore.AudioRecorderCore.Unsubscribe | web_ui/src/components/recorder/audio-recorder-core.ts:113-115 | Removes only the subscriber with that handle and keeps the others in order. |
| RecorderCore.AudioRecorderCore.On | web_ui/src/components/recorder/audio-recorder-core.ts:118-126 | Adds the callback to the event's set unless it is already there. |
| RecorderCore.AudioRecorderCore.Off | web_ui/src/components/recorder/audio-recorder-core.ts:127-132 | Removes exactly that callback from the event's set. |
| RecorderCore.AudioRecorderCore.Emit | web_ui/src/components/recorder/audio-recorder-core.ts:135-153 | Appends to the callback log exactly the calls the event's listeners receive, and changes no state. |
| RecorderCore.AudioRecorderCore.RecordingStart | web_ui/src/components/recorder/audio-recorder-core.ts:155-212 | On success it builds the capture graph and publishes RecordingStarted with `startedAt = now`, empty waveform and null error, then schedules the loop. On failure it publishes only the error message and keeps the capture side. The status is not consulted. |
| RecorderCore.AudioRecorderCore.OpenCapture | web_ui/src/components/recorder/audio-recorder-core.ts:158-193 | The stream, audio context, analyser and started media recorder exist, chunks are empty, and state and subscribers are untouched. |
| RecorderCore.AudioRecorderCore.DataAvailable | web_ui/src/components/recorder/audio-recorder-core.ts:187-191 | A non-empty chunk is appended to the chunks; an empty one is dropped. |
| RecorderCore.AudioRecorderCore.RecordingStop | web_ui/src/components/recorder/audio-recorder-core.ts:214-222 | Stops the recorder and cancels the loop only when a recorder exists and the status is RecordingStarted; otherwise nothing changes. |
| RecorderCore.AudioRecorderCore.HandleRecordingComplete | web_ui/src/components/recorder/audio-recorder-core.ts:224-244 | Publishes one update: RecordingStopped, the WAV blob, `endedAt = now`, `totalTime = (now − startedAt)/1000`, cursor 0. The blob is a new object, never the previous one. It then emits "recording-complete" once per listener with that same blob and releases the stream. |
| RecorderCore.AudioRecorderCore.PlaybackStart | web_ui/src/components/recorder/audio-recorder-core.ts:246-267 | Does nothing without a blob. Otherwise it creates the element if missing, plays it and publishes PlaybackStarted, adding one "ended" listener and scheduling the loop. |
| RecorderCore.AudioRecorderCore.PlaybackEnded | web_ui/src/components/recorder/audio-recorder-core.ts:257-263 | With at least one "ended" listener the state becomes PlaybackPaused with cursor 0 and the loop is cancelled; with none the state is unchanged. The element is paused, one new state object is published per listener, and every subscriber keeps its handle and position. |
| RecorderCore.AudioRecorderCore.PlaybackPause | web_ui/src/components/recorder/audio-recorder-core.ts:269-275 | From any status: pauses the element if any, cancels the loop, and the state becomes the old one with status PlaybackPaused. |
| RecorderCore.AudioRecorderCore.SeekToTime | web_ui/src/components/recorder/audio-recorder-core.ts:277-282 | The cursor (and the element's position, if any) becomes the argument, unclamped; nothing else in the state changes. |
| RecorderCore.AudioRecorderCore.SeekToPosition | web_ui/src/components/recorder/audio-recorder-core.ts:284-293 | Throws, changing nothing, iff p < 0 or p > 1. Otherwise it sets the cursor to p·totalTime. |
| RecorderCore.AudioRecorderCore.RecordingClear | web_ui/src/components/recorder/audio-recorder-core.ts:295-307 | From any status the state becomes a new object with the initial contents, published once, so a whole-state subscriber is called even from the initial state. "recording-cleared" is emitted once per listener, the element is dropped and both loops are cancelled. |
| RecorderCore.AudioRecorderCore.RecordingTick | web_ui/src/components/recorder/audio-recorder-core.ts:309-333 | Without an analyser or outside RecordingStarted it does nothing. Otherwise it appends exactly `min(1, 5·rms)` to the waveform (the old one stays a prefix), sets the cursor to the elapsed seconds and reschedules. |
| RecorderCore.AudioRecorderCore.PlaybackTick | web_ui/src/components/recorder/audio-recorder-core.ts:335-347 | Stops unless the element exists, is playing and the status is PlaybackStarted. Otherwise it publishes the element's time as the cursor and reschedules. |
| RecorderCore.AudioRecorderCore.Destroy | web_ui/src/components/recorder/audio-recorder-core.ts:349-356 | Does what recordingClear does, closes the audio context if one was made, then leaves no subscribers and both listener sets empty. |
| WaveformCanvas.MaxBars | web_ui/src/components/recorder/waveform-canvas.ts:143 | ⌊width/3⌋ is the largest n with 3n ≤ width. |
| WaveformCanvas.Window | web_ui/src/components/recorder/waveform-canvas.ts:154 | For k > 0, `slice(-k)` is exactly the last k samples in order. For k = 0 it drops nothing (JavaScript's `slice(-0)` is the whole array). |
| WaveformCanvas.BarHeight | web_ui/src/components/recorder/waveform-canvas.ts:163 | Every bar is at least 2 high, and is either 2 or amplitude·0.8·height. |
| WaveformCanvas.RenderPlaceholderIffEmpty | web_ui/src/components/recorder/waveform-canvas.ts:97-102 | The placeholder is drawn iff the waveform is empty, so `width/len` is never computed for zero samples. |
| WaveformCanvas.RenderCursor | web_ui/src/components/recorder/waveform-canvas.ts:116-128 | The placeholder cursor is drawn iff the status is not RecordingStarted and totalTime > 0; the waveform cursor iff totalTime > 0. Either is drawn at cursorTime/totalTime·width. |
| WaveformCanvas.RecordingBarsFit | web_ui/src/components/recorder/waveform-canvas.ts:138-146 | While recording, min(len, ⌊width/3⌋) bars of width 2 are drawn at stride 3, and each ends at or before the width. |
| WaveformCanvas.PlaybackBarsFill | web_ui/src/components/recorder/waveform-canvas.ts:147-152 | Otherwise every sample gets a bar of width width/len, side by side, and the last ends exactly at the width. |
| WaveformCanvas.BarsShowNewestSamples | web_ui/src/components/recorder/waveform-canvas.ts:154-164 | Bar i shows sample len − barsToRender + i, is at least 2 high and is vertically centred. |
| WaveformCanvas.PlayedBarsInRange | web_ui/src/components/recorder/waveform-canvas.ts:156-157 | With 0 ≤ cursor ≤ total, playedBars lies between 0 and barsToRender. |
| WaveformCanvas.ColorRule | web_ui/src/components/recorder/waveform-canvas.ts:167-178 | Green iff PlaybackStarted and i < playedBars; red iff RecordingStarted; blue iff RecordingStopped or PlaybackPaused; gray iff Idle or an unplayed PlaybackStarted bar. |
| WaveformCanvas.ClickInsideCanvas | web_ui/src/components/recorder/waveform-canvas.ts:195-203 | The ratio passed on lies in [0, 1] iff the click is within the canvas's horizontal extent. |
| WaveformCanvas.HandleClick | web_ui/src/components/recorder/waveform-canvas.ts:195-203 | Without a handler nothing happens. Otherwise the seek succeeds iff the click is inside the canvas, and then the cursor and the element's `currentTime` are ratio·totalTime and the new state is offered to every subscriber; outside, nothing changes. |
| RecorderControls.ExactlyOnePrimary | web_ui/src/components/recorder/components.tsx:45-53 | Exactly one primary control per status: Record for Idle, Stop for RecordingStarted, Play for RecordingStopped or PlaybackPaused, Pause for PlaybackStarted. |
| RecorderControls.SecondaryControls | web_ui/src/components/recorder/components.tsx:54-90 | Rewind, download and clear appear together, iff the status is RecordingStopped, PlaybackPaused or PlaybackStarted. |
| RecorderControls.TimesShown | web_ui/src/components/recorder/components.tsx:62-71 | The recording time is shown iff RecordingStarted; the playback time iff it is non-null and the status is not Idle. |
| RecorderControls.PlaybackTimeValue | web_ui/src/components/recorder/components.tsx:26-34 | The selector gives null iff totalTime ≤ 0. Otherwise both sides are `m:ss` texts whose parts recombine to ⌊cursorTime⌋ and ⌊totalTime⌋. |
| RecorderControls.PlaybackTimeChangedIff | web_ui/src/components/recorder/components.tsx:35-38 | For two non-null pairs the comparator is true iff they differ. |
| RecorderControls.NullNeverReplaced | web_ui/src/components/recorder/components.tsx:35-38 | Once null has been delivered, no later state is delivered and `lastValue` stays null. |
| RecorderControls.Rewind | web_ui/src/components/recorder/components.tsx:127-131 | `seekToPosition(0)` is always in range. It sets the cursor and the element's `currentTime` (if there is an element) to 0, changes nothing else in the state record, and offers the new state to every subscriber. |
| NameSanitizer.Replace | voiceprint/helpers.py:3 | `replace` keeps the length and replaces exactly the occurrences of the target. |
| NameSanitizer.SanitizeNameChars | voiceprint/helpers.py:3 | Each of ' ', '-', '/', '\\' becomes '_' and every other character is only lower-cased. The length is kept and no separator or upper-case letter remains. |
| NameSanitizer.SanitizeNameIdempotent | voiceprint/helpers.py:3 | Sanitising twice equals sanitising once, and the result equals its own lower case. |
| PyValues.GetItem | voiceprint/library.py:109-111 | `v[key]` succeeds iff v is a dict holding key, and yields its entry. A missing key raises KeyError; `None`, a bool or a number raises TypeError "'<type>' object is not subscriptable". |
| VoiceLibrary.CreateSpeaker | voiceprint/library.py:31-42 | Raises ValueError("Speaker name cannot be empty") iff the name is empty. Otherwise id = sanitised name, the name is kept verbatim and the embeddings are unchanged. |
| VoiceLibrary.SpeakerFromDictSpec | voiceprint/library.py:44-53 | Raises ValueError for a non-dict and for a missing key, with each message. Succeeds iff the three keys are present, keeping their values. |
| VoiceLibrary.SpeakerDictRoundTrip | voiceprint/library.py:72-78 | `Speaker.from_dict(s.to_dict())` is s. |
| VoiceLibrary.SpeakerList | voiceprint/library.py:112 | When the comprehension succeeds, it has one speaker per item, each the `from_dict` of that item. |
| VoiceLibrary.SpeakerDicts | voiceprint/library.py:154 | One dictionary per speaker. |
| VoiceLibrary.CreateFields | voiceprint/library.py:86-95 | `Library.create(name)` gives id = sanitised name, the name, the creation time and no speakers. |
| VoiceLibrary.ParseLibraryErrors | voiceprint/library.py:97-106 | Raises ValueError for a non-dict and for a missing key, with each message; otherwise gives what `__init__` gives. A `speakers` entry that is `None`, a bool or a number raises TypeError "'<type>' object is not iterable", e.g. "'NoneType' object is not iterable". |
| VoiceLibrary.SpeakerListRoundTrip | voiceprint/library.py:148-155 | Parsing the speakers' dictionaries gives back the same speakers in order. |
| VoiceLibrary.LibraryDictRoundTrip | voiceprint/library.py:108-112 | `Library(lib.to_dict())` and `Library.from_dict(lib.to_dict())` rebuild the same id, name, created_at and speakers, in order. |
| VoiceLibrary.FirstIndex | voiceprint/library.py:142-145 | The first position with the id: it matches, no earlier one does, and it is in range iff some speaker has the id. |
| VoiceLibrary.RemoveFirstSpec | voiceprint/library.py:140-146 | Removal drops exactly the first speaker with the id and keeps the rest in order; without the id the list is unchanged. |
| VoiceLibrary.RemoveFirstUnique | voiceprint/library.py:140-146 | With unique ids, removal keeps them unique and leaves no speaker with the id. The length drops by one iff the id was present. |
| VoiceLibrary.AppendUnique | voiceprint/library.py:134-137 | Appending a speaker whose id is new keeps ids unique. |
| VoiceLibrary.Library.constructor | voiceprint/library.py:108-112 | The library's attributes are the given fields. |
| VoiceLibrary.Library.Create | voiceprint/library.py:86-95 | A fresh library with id = sanitised name, the name, the creation time and no speakers. |
| VoiceLibrary.Library.FromDict | voiceprint/library.py:97-106 | Fails with the parse error iff parsing fails; otherwise a fresh library holding the parsed fields. |
| VoiceLibrary.Library.AddSpeaker | voiceprint/library.py:130-138 | An empty name raises first, then an existing sanitised id raises "Speaker with ID … already exists"; on error the list is unchanged. Otherwise the created speaker is appended, returned, and ids stay unique. |
| VoiceLibrary.Library.RemoveSpeaker | voiceprint/library.py:140-146 | Returns true iff some speaker has the id; the list becomes the old one without the first such speaker. |
| SpeakerRecord.ToArray | voiceprint/speaker.py:52 | `np.array` of a list of numbers is an array holding the same numbers in order. |
| SpeakerRecord.ToList | voiceprint/speaker.py:82-83 | `.tolist()` of an array is a list of the same numbers in order; other values are untouched. |
| SpeakerRecord.ListArrayInverse | voiceprint/speaker.py:81-83 | Array→list→array and list→array→list are identities. |
| SpeakerRecord.InitSpeaker | voiceprint/speaker.py:56-59 | The constructor succeeds iff the three keys are present, and stores their values unchanged. |
| SpeakerRecord.SpeakerDict | voiceprint/speaker.py:73-85 | `to_dict` has exactly the three keys, the same id and name, and the embeddings as a list when they were an array. |
| SpeakerRecord.FromDictSpec | voiceprint/speaker.py:42-54 | A failed schema check raises ValueError with its message. Otherwise it succeeds iff the three keys are present; the embeddings become an array, in the speaker and in the caller's dict, and other entries are kept. |
| SpeakerRecord.DictRoundTrip | voiceprint/speaker.py:43-54 | A speaker with array embeddings comes back unchanged from its `to_dict` form. |
| SpeakerRecord.CreateThenDict | voiceprint/speaker.py:30-40 | `create` then `to_dict` gives the sanitised id, the name as given and the embeddings as a list. |
| VoiceprintState.ListingReadsItself | voiceprint/voiceprint.py:139-142 | Names without `.pkl` (and `.pkl` alone) are skipped. Otherwise stripping and re-adding `.pkl` names the same file, which is listed iff it unpickles to a valid library. |
| VoiceprintState.ListedSpec | voiceprint/voiceprint.py:131-148 | A library is listed iff some directory entry yields it, with at most one library per entry. |
| VoiceprintState.ListedAppend | voiceprint/voiceprint.py:137-146 | One more entry adds at most that entry's library, at the end. |
| VoiceprintState.SelectBest | voiceprint/voiceprint.py:248-263 | None iff no similarity exceeds -1. Otherwise the result is the first speaker with the greatest similarity: strictly greater than every earlier one and at least every later one. |
| VoiceprintState.Voiceprint.constructor | voiceprint/voiceprint.py:24-38 | No library is loaded. |
| VoiceprintState.Voiceprint.ValidateLoadedSpec | voiceprint/voiceprint.py:71-79 | Fails iff nothing is loaded or an expected id differs from the loaded one; otherwise returns the loaded library. |
| VoiceprintState.Voiceprint.WriteLibrary | voiceprint/voiceprint.py:81-92 | The loaded library's dictionary is stored under `<id>.pkl`; other files are kept. |
| VoiceprintState.Voiceprint.CreateLibrary | voiceprint/voiceprint.py:94-104 | An empty name raises and changes nothing. Otherwise a fresh speaker-less library with the sanitised id is loaded and saved under its id. |
| VoiceprintState.Voiceprint.ImportLibrary | voiceprint/voiceprint.py:106-129 | Checks in order: empty path, missing file, not `.pkl`. An unpickling or parse failure is re-raised as ValueError; every failure keeps files and the loaded library. Otherwise the parsed library is loaded and saved. |
| VoiceprintState.Voiceprint.ListLibraries | voiceprint/voiceprint.py:131-148 | A missing directory lists nothing. Otherwise there is one fresh library per readable `.pkl` entry, in directory order. |
| VoiceprintState.Voiceprint.LoadLibrary | voiceprint/voiceprint.py:150-161 | An already loaded id is returned without reading. A failed read raises ValueError and keeps the loaded library; otherwise the read library is loaded. |
| VoiceprintState.Voiceprint.DeleteLibrary | voiceprint/voiceprint.py:168-187 | An empty id raises. Otherwise it returns true iff the file exists; then the file is removed and the library unloaded only if its id matches. |
| VoiceprintState.Voiceprint.EnrollSpeaker | voiceprint/voiceprint.py:189-221 | Checks in order: a loaded library, a non-empty name, a non-empty file list, then the first missing file. With those checks passed, it succeeds iff the sanitized id is new, and otherwise fails with "Speaker with ID … already exists in the library". On any failure nothing changes; otherwise the created speaker is appended and the library saved. |
| VoiceprintState.Voiceprint.UnenrollSpeaker | voiceprint/voiceprint.py:223-231 | Returns whether the id was present; the first speaker with it is removed, and the library is saved only then. |
| VoiceprintState.Voiceprint.IdentifySpeaker | voiceprint/voiceprint.py:233-263 | No library raises; an empty library gives None before the file is checked; a missing file raises. Otherwise it gives the first best match, or None when no similarity exceeds -1. |
| WyomingHandler.WavParamsOf | wyoming_voiceprint/handler.py:105-107 | The header of the temporary WAV file that identification reads: missing parameters default to 1 channel, width 2 and rate 16000. |
| WyomingHandler.TagTranscriptSpec | wyoming_voiceprint/handler.py:80-88 | The tagged event keeps the type, payload, every other data key and every other entry of a dict `ext`, and `ext.speaker_id` is the id. |
| WyomingHandler.WyomingEventHandler.constructor | wyoming_voiceprint/handler.py:24-27 | Empty buffer, no parameters, not recording. |
| WyomingHandler.WyomingEventHandler.HandleAudioStart | wyoming_voiceprint/handler.py:48-53 | The buffer is emptied, the event data becomes the parameters and recording is on. |
| WyomingHandler.WyomingEventHandler.HandleAudioChunk | wyoming_voiceprint/handler.py:55-58 | The payload is appended only while recording and only if non-empty. |
| WyomingHandler.WyomingEventHandler.HandleAudioStop | wyoming_voiceprint/handler.py:60-63 | Recording is off; buffer and parameters are kept. |
| WyomingHandler.WyomingEventHandler.IdentifySpeakerFromAudio | wyoming_voiceprint/handler.py:95-121 | None when the parameters are missing or empty, or the buffer is empty. Otherwise it yields an id iff identifying the WAV file written with `WavParamsOf(parameters)` and the buffer yields one, and then exactly that id; an exception or no match gives none. |
| WyomingHandler.WyomingEventHandler.HandleTranscript | wyoming_voiceprint/handler.py:65-93 | An empty buffer writes nothing. Otherwise it writes exactly one event, tagged for a non-empty identified id and the original otherwise. The buffer, parameters and flag never change. |
| WyomingHandler.WyomingEventHandler.HandleEvent | wyoming_voiceprint/handler.py:32-46 | Always returns true and dispatches by type; an unrecognised type changes nothing. |
| WyomingHandler.StartThenChunks | wyoming_voiceprint/handler.py:48-58 | After audio-start and a run of chunks, the buffer is exactly the concatenated payloads. |
| MockStore.SplitExtension | frontend/lib/store.ts:46-48 | With a dot, base + "." + ext is the name and ext has no dot; without one, the base is empty and the ext is the whole name. |
| MockStore.Without | frontend/lib/store.ts:71 | Filtering never lengthens the list. |
| MockStore.WithoutSpec | frontend/lib/store.ts:71 | No occurrence of the name is left and every other sample is kept. It removes something iff the name occurred, and a second filter changes nothing. |
| MockStore.FindModel | frontend/lib/store.ts:113 | The position of the first model with the id, or the length when there is none. |
| MockStore.Activate | frontend/lib/store.ts:118-125 | Activation keeps the number of models. |
| MockStore.ActivateSpec | frontend/lib/store.ts:112-127 | Exactly one model is active, the first with the id; every model gets an `isActive` flag and nothing else changes. |
| MockStore.Store.constructor | frontend/lib/store.ts:17-21 | Empty voices, models and blobs, and no active model. |
| MockStore.Store.AddVoice | frontend/lib/store.ts:28-34 | Returns false and changes nothing for an existing name; otherwise it adds the name with no samples. |
| MockStore.Store.AddVoiceSample | frontend/lib/store.ts:36-63 | Rejects an unknown voice and changes nothing. Otherwise it appends one name (`<base>_<now>.<ext>` if already present) and stores its blob under `voice/fileName`. |
| MockStore.Store.DeleteVoiceSample | frontend/lib/store.ts:65-81 | False with no change when the voice or sample is missing. Otherwise every occurrence is removed and the blob entry dropped; other voices are untouched. |
| MockStore.Store.AudioBlobUrl | frontend/lib/store.ts:83-86 | The stored URL iff an entry with a non-empty URL exists, else null. |
| MockStore.Store.CreateModel | frontend/lib/store.ts:93-110 | Appends exactly one model `model_<now>` holding exactly the voices that have samples, with their lists. |
| MockStore.Store.LoadModel | frontend/lib/store.ts:112-127 | False with no change for an unknown id. Otherwise exactly the first model with the id is active and the active id is set. |
| MockStore.Store.IdentifyVoiceCheck | frontend/lib/store.ts:129-142 | Rejects iff the model is missing ("Model not found") or has no voices ("Model has no voices"); otherwise yields the first model with that id. |
| UploadValidation.SizeErrorNamesLimit | web_ui/src/lib/config.ts:30-33 | The size message names the limit, 10·1024·1024 / 1024 / 1024 = 10 MB. |
| UploadValidation.ValidateAudioFileSpec | web_ui/src/lib/config.ts:28-55 | The size error iff size > 10 MiB, checked first. Accepted iff the MIME type is supported or the lower-cased name has a supported extension; the type error otherwise. |
| UploadValidation.ValidateSpeakerNameSpec | web_ui/src/lib/config.ts:57-77 | "Required" iff the name is empty or all whitespace. Too short iff the trimmed length is 1, too long iff above 50. Accepted iff 2 ≤ trimmed length ≤ 50 and none of `<>:"/\|?*` occurs. |
| LibraryList.AddLibrary | web_ui/src/lib/state/voiceprint-provider.tsx:30-32 | The library is appended and the existing elements are unchanged. |
| LibraryList.UpdateLibrarySpec | web_ui/src/lib/state/voiceprint-provider.tsx:34-45 | Same length and order. Exactly the elements with the id are replaced by their update; without a match nothing changes. |
| LibraryList.RemoveLibraryMembers | web_ui/src/lib/state/voiceprint-provider.tsx:47-49 | The result holds exactly the elements without the id and is never longer. |
| LibraryList.RemoveLibraryIdempotent | web_ui/src/lib/state/voiceprint-provider.tsx:47-49 | Removing the same id twice is removing it once. |
| LibraryList.RemoveLibraryAppend | web_ui/src/lib/state/voiceprint-provider.tsx:47-49 | Removal distributes over concatenation, so kept elements stay in order. |
| LibraryList.AfterFetchSpec | web_ui/src/lib/state/voiceprint-provider.tsx:24-28 | The fetched list replaces the state exactly when isSuccess, not fetching and data present. |

## Left out

- **Browser media objects.** `getUserMedia`, AudioContext, MediaRecorder, the analyser and the Audio element become presence flags and a small element record. Their asynchronous failures other than the acquisition in `recordingStart` are not modelled.
- **requestAnimationFrame.** Scheduling is a "frame pending" flag plus explicit tick methods. `cancelAnimationFrame` clears the flag. Overlapping loops are not represented: a second `playbackStart` while a playback frame is pending starts a second chain in the browser, and cancelling stops only the latest one.
- **Decoding and resampling in `convertToWav`.** This is a foreign audio pipeline, so its result is an input to `HandleRecordingComplete`. `downloadAudio` is a DOM side effect and is not modelled.
- **Analyser RMS.** The RMS over the analyser bytes is floating-point arithmetic, so it is an input; only `min(1, rms·5)` is modelled.
- **Numbers.** JavaScript and Python floating-point numbers are exact reals.
  - The int16 truncation and the DataView modulo-2^32 reduction are written out.
  - Rounding, NaN and infinities are not modelled.
- **Object identity.** JavaScript `!==` on objects compares references. Each state object and each blob carries a serial number as its identity, and every spread or `new Blob` takes a fresh one. A `[current, total]` pair selection is built afresh each time, so it is never identical. The throw-away `getInitialState()` object inside `setState` has no identity of its own.
- **Callbacks.** A subscriber or listener callback is modelled only by what it is called with (the callback log). Exceptions thrown inside callbacks are not modelled.
- **Canvas.** Canvas drawing calls, ResizeObserver, devicePixelRatio and the missing-rectangle early return are UI side effects. The render result is a value: the placeholder, or a list of bars plus the cursor.
- RecorderCore.AudioRecorderCore.PlaybackEnded: it states the new status, cursor and loop flag and that every subscriber keeps its handle, but for the callback log only that earlier entries are kept. It does not state which deliveries each repeated "ended" listener makes.
- **Lower-casing.** Python `lower()` and JavaScript `toLowerCase()` are modelled for ASCII letters only. Unicode case mapping, which can change the length, is not.
- **Dict and ids.**
  - Dict keys are strings.
  - `np.array` of anything but a list of numbers is kept as is.
  - `str()` of a non-string library id is the `idText` parameter of `Voiceprint`.
  - Python `==` on ids is structural equality of values.
  - Built-in `TypeError` texts quote `type(v).__name__`. A number is one real, so a whole-valued float is named `int`.
- **Files and pickle.**
  - Pickle contents are the unpickled value or an unreadable marker.
  - Ids containing path separators are not resolved into subdirectories.
  - Write and remove failures (`Failed to save library`, the `os.remove` exception path) are not modelled.
- **Voiceprint service parts not modelled.** The `Voiceprint` constructor's model loading and `os.makedirs` are left out. `get_loaded_library` is a getter with nothing to state.
- VoiceprintState.Voiceprint.EnrollSpeaker: the torch embeddings and `np.mean` are the `meanEmbedding` input. Audio loading is the set of existing paths.
- VoiceprintState.Voiceprint.IdentifySpeaker: cosine similarity is the `similarity` input, one score per speaker.
- SpeakerRecord.FromDict: the JSON-schema check of speaker_schema.json is an input (its error message, if any). The schema file is not part of this model.
- **Handler construction.** wyoming_voiceprint/handler.py:30 calls `get_enrolled_speakers`, which `Voiceprint` does not define; the constructor's logging is left out.
- WyomingHandler.WyomingEventHandler.IdentifySpeakerFromAudio: the temporary WAV file, `wave` writing and the `identify_speaker` call are the `identify` input, a function of the WAV parameters and the frames written.
  - `identify_speaker` returns a `Speaker` object where the handler expects an id string, so the outcome is modelled as an id string.
- WyomingHandler.TagTranscript: `dict(event.data)` is a shallow copy, so the original event's non-empty `ext` dict is also mutated. The model returns a new value and does not capture that aliasing.
- **Wyoming transport.** `write_event` is an append to the output log, and logging is not modelled.
- MockStore.Store.IdentifyVoiceCheck: the simulated delay, random prediction and random confidences of `identifyVoice` are not modelled; only its two rejections and the model it works on are.
- **Mock store inputs and lookups.**
  - `Date.now()` and `URL.createObjectURL` are inputs.
  - `revokeObjectURL` is a side effect on the browser.
  - Object-prototype keys (such as "toString") are treated as absent voices.
- **Library-list updaters.** The `typeof libraryUpdater === "function"` test always holds for typed callers, and the REST `Library` type is an id plus opaque properties.
