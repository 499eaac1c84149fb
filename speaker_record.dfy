/**
  voiceprint/speaker.py: the schema-checked `Speaker`. Its dictionary form
  carries the embeddings as a list of numbers; in memory they are a NumPy
  array. `create` is the same operation as in voiceprint/library.py
  (`VoiceLibrary.CreateSpeaker`); the JSON-schema check is an input.
 */
module SpeakerRecord {
  import opened Wrappers
  import opened PyValues
  import opened VoiceLibrary

  /** Every item is a number. */
  predicate AllNumbers(items: seq<PyValue>) {
    forall i :: 0 <= i < |items| ==> items[i].PyNum?
  }

  /** `np.array(v)` for a list of numbers or an array; any other value is kept as it is. */
  function ToArray(v: PyValue): (r: PyValue)
    ensures v.PyList? && AllNumbers(v.items) ==>
      r.PyArray? && |r.values| == |v.items| && forall i :: 0 <= i < |v.items| ==> r.values[i] == v.items[i].x
  {
    match v
    case PyList(items) =>
      if AllNumbers(items) then PyArray(seq(|items|, i requires 0 <= i < |items| => items[i].x)) else v
    case _ => v
  }

  /** `.tolist()` when the value is an ndarray; any other value is kept as it is. */
  function ToList(v: PyValue): (r: PyValue)
    ensures v.PyArray? ==>
      r.PyList? && AllNumbers(r.items) && |r.items| == |v.values|
      && forall i :: 0 <= i < |v.values| ==> r.items[i] == PyNum(v.values[i])
    ensures !v.PyArray? ==> r == v
  {
    match v
    case PyArray(xs) => PyList(seq(|xs|, i requires 0 <= i < |xs| => PyNum(xs[i])))
    case _ => v
  }

  /** An array survives the trip to a list and back, and a list of numbers the trip to an array and back. */
  lemma ListArrayInverse(v: PyValue)
    ensures v.PyArray? ==> ToArray(ToList(v)) == v
    ensures v.PyList? && AllNumbers(v.items) ==> ToList(ToArray(v)) == v
  {
    if v.PyArray? {
      assert ToArray(ToList(v)).values == v.values;
    }
    if v.PyList? && AllNumbers(v.items) {
      assert ToList(ToArray(v)).items == v.items;
    }
  }

  /** `Speaker.__init__`: reads `id`, `name` and `embeddings`, in that order, unchanged. */
  function InitSpeaker(dto: PyValue): (r: Result<Speaker, PyError>)
    ensures r.Ok? <==> HasKeys(dto, SPEAKER_KEYS)
    ensures r.Ok? ==> r.value == Speaker(dto.entries["id"], dto.entries["name"], dto.entries["embeddings"])
  {
    match GetItem(dto, "id")
    case Err(e) => Err(e)
    case Ok(id) =>
      match GetItem(dto, "name")
      case Err(e) => Err(e)
      case Ok(name) =>
        match GetItem(dto, "embeddings")
        case Err(e) => Err(e)
        case Ok(embeddings) => Ok(Speaker(id, name, embeddings))
  }

  /** `to_dict`: the same id and name, the embeddings as a list when they are an array. */
  function SpeakerDict(sp: Speaker): (r: PyValue)
    ensures HasKeys(r, SPEAKER_KEYS) && |r.entries| == 3
    ensures r.entries["id"] == sp.id && r.entries["name"] == sp.name
    ensures r.entries["embeddings"] == ToList(sp.embeddings)
  {
    PyDict(map["id" := sp.id, "name" := sp.name, "embeddings" := ToList(sp.embeddings)])
  }

  /**
    `from_dict(data)`, where `validationError` is the message of the
    `ValidationError` the schema check raises, if any. On success the
    result also gives `data` as the caller sees it afterwards: its
    `embeddings` entry has been replaced by the array.
   */
  function FromDict(data: PyValue, validationError: Option<string>): Result<(Speaker, PyValue), PyError> {
    if validationError.Some? then Err(ValueError("Invalid speaker data format: " + validationError.value))
    else
      match GetItem(data, "embeddings")
      case Err(e) => Err(e)
      case Ok(embeddings) =>
        var updated := PyDict(data.entries["embeddings" := ToArray(embeddings)]);
        match InitSpeaker(updated)
        case Err(e) => Err(e)
        case Ok(sp) => Ok((sp, updated))
  }

  /**
    A failed schema check raises `ValueError` with its message. Otherwise a
    dictionary with the three keys gives the speaker with its id and name and
    the embeddings as an array; the caller's dictionary keeps every other
    entry and now holds that array.
   */
  lemma FromDictSpec(data: PyValue, validationError: Option<string>)
    ensures validationError.Some? ==>
      FromDict(data, validationError) == Err(ValueError("Invalid speaker data format: " + validationError.value))
    ensures validationError.None? ==> (FromDict(data, validationError).Ok? <==> HasKeys(data, SPEAKER_KEYS))
    ensures validationError.None? && HasKeys(data, SPEAKER_KEYS) ==>
      var (sp, after) := FromDict(data, validationError).value;
      && sp == Speaker(data.entries["id"], data.entries["name"], ToArray(data.entries["embeddings"]))
      && after.PyDict? && after.entries.Keys == data.entries.Keys
      && after.entries["embeddings"] == sp.embeddings
      && forall k :: k in data.entries && k != "embeddings" ==> after.entries[k] == data.entries[k]
  {
  }

  /** A speaker whose embeddings are an array comes back unchanged from its dictionary form. */
  lemma DictRoundTrip(sp: Speaker)
    requires sp.embeddings.PyArray?
    ensures FromDict(SpeakerDict(sp), None).Ok?
    ensures FromDict(SpeakerDict(sp), None).value.0 == sp
  {
    ListArrayInverse(sp.embeddings);
  }

  /** `Speaker.create` then `to_dict`: the sanitised id, the name as given, the embeddings as a list. */
  lemma CreateThenDict(name: string, embeddings: PyValue)
    requires name != ""
    ensures var d := SpeakerDict(CreateSpeaker(name, embeddings).value);
      d.entries["id"] == PyStr(NameSanitizer.SanitizeName(name)) && d.entries["name"] == PyStr(name)
      && d.entries["embeddings"] == ToList(embeddings)
  {
  }
}
