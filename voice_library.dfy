/**
  voiceprint/library.py: a speaker (id, name, embeddings) and a voice library
  (id, name, creation time, speakers) with their dictionary forms, the
  checks `from_dict` makes, unique-id insertion and removal by id.
 */
module VoiceLibrary {
  import opened Wrappers
  import opened PyValues
  import opened NameSanitizer

  const NOT_A_DICT := "Data must be a dictionary"
  const SPEAKER_KEYS: seq<string> := ["id", "name", "embeddings"]
  const LIBRARY_KEYS: seq<string> := ["id", "name", "created_at", "speakers"]

  /** A `Speaker`: whatever values its dictionary held under the three keys. */
  datatype Speaker = Speaker(id: PyValue, name: PyValue, embeddings: PyValue)

  /** `Speaker.create`: an empty name is refused; the id is the sanitised name. */
  function CreateSpeaker(name: string, embeddings: PyValue): (r: Result<Speaker, PyError>)
    ensures r.Err? <==> name == ""
    ensures r.Err? ==> r.error == ValueError("Speaker name cannot be empty")
    ensures r.Ok? ==> r.value.id == PyStr(SanitizeName(name)) && r.value.name == PyStr(name)
                      && r.value.embeddings == embeddings
  {
    if name == "" then Err(ValueError("Speaker name cannot be empty"))
    else Ok(Speaker(PyStr(SanitizeName(name)), PyStr(name), embeddings))
  }

  /** `Speaker.from_dict`: a dictionary holding the three keys, or `ValueError`. */
  function SpeakerFromDict(data: PyValue): Result<Speaker, PyError> {
    if !data.PyDict? then Err(ValueError(NOT_A_DICT))
    else if !HasKeys(data, SPEAKER_KEYS) then Err(ValueError("Invalid speaker data format"))
    else Ok(Speaker(data.entries["id"], data.entries["name"], data.entries["embeddings"]))
  }

  /** `Speaker.to_dict`. */
  function SpeakerToDict(sp: Speaker): PyValue {
    PyDict(map["id" := sp.id, "name" := sp.name, "embeddings" := sp.embeddings])
  }

  /**
    `from_dict` fails exactly on a non-dictionary or a missing key, with the
    message for each; it succeeds on exactly the dictionaries `to_dict` maps
    back to themselves on those keys.
   */
  lemma SpeakerFromDictSpec(data: PyValue)
    ensures !data.PyDict? ==> SpeakerFromDict(data) == Err(ValueError(NOT_A_DICT))
    ensures data.PyDict? && !HasKeys(data, SPEAKER_KEYS) ==>
      SpeakerFromDict(data) == Err(ValueError("Invalid speaker data format"))
    ensures SpeakerFromDict(data).Ok? <==> HasKeys(data, SPEAKER_KEYS)
    ensures SpeakerFromDict(data).Ok? ==>
      forall k :: k in SPEAKER_KEYS ==> SpeakerToDict(SpeakerFromDict(data).value).entries[k] == data.entries[k]
  {
  }

  /** `Speaker.from_dict(speaker.to_dict())` is the same speaker. */
  lemma SpeakerDictRoundTrip(sp: Speaker)
    ensures SpeakerFromDict(SpeakerToDict(sp)) == Ok(sp)
  {
    assert HasKeys(SpeakerToDict(sp), SPEAKER_KEYS);
  }

  /** The list comprehension `[Speaker.from_dict(s) for s in items]`: the first failure wins. */
  function SpeakerList(items: seq<PyValue>): (r: Result<seq<Speaker>, PyError>)
    ensures r.Ok? ==> |r.value| == |items|
    ensures r.Ok? ==> forall i :: 0 <= i < |items| ==> SpeakerFromDict(items[i]) == Ok(r.value[i])
  {
    if items == [] then Ok([])
    else
      match SpeakerFromDict(items[0])
      case Err(e) => Err(e)
      case Ok(sp) =>
        match SpeakerList(items[1..])
        case Err(e) => Err(e)
        case Ok(rest) => Ok([sp] + rest)
  }

  /**
    Iterating `lib['speakers']`: a list yields its items; a dictionary, string
    or array yields keys, characters or floats, none of them a dictionary, so
    only an empty one gets through; `None`, a bool or a number is not
    iterable, and the `TypeError` names its type.
   */
  function IterateSpeakers(v: PyValue): (r: Result<seq<Speaker>, PyError>)
    ensures v.PyNone? || v.PyBool? || v.PyNum? ==> r == Err(TypeError("'" + TypeName(v) + "' object is not iterable"))
  {
    match v
    case PyList(items) => SpeakerList(items)
    case PyDict(entries) => if |entries| == 0 then Ok([]) else Err(ValueError(NOT_A_DICT))
    case PyStr(s) => if s == "" then Ok([]) else Err(ValueError(NOT_A_DICT))
    case PyArray(xs) => if xs == [] then Ok([]) else Err(ValueError(NOT_A_DICT))
    case _ => Err(TypeError("'" + TypeName(v) + "' object is not iterable"))
  }

  /** The four attributes of a `Library`, as `__init__` reads them. */
  datatype LibraryFields = LibraryFields(id: PyValue, name: PyValue, createdAt: PyValue, speakers: seq<Speaker>)

  /** `Library.__init__`: reads `id`, `name`, `created_at` and then parses `speakers`, raising at the first failure. */
  function InitFields(lib: PyValue): Result<LibraryFields, PyError> {
    match GetItem(lib, "id")
    case Err(e) => Err(e)
    case Ok(id) =>
      match GetItem(lib, "name")
      case Err(e) => Err(e)
      case Ok(name) =>
        match GetItem(lib, "created_at")
        case Err(e) => Err(e)
        case Ok(createdAt) =>
          match GetItem(lib, "speakers")
          case Err(e) => Err(e)
          case Ok(speakers) =>
            match IterateSpeakers(speakers)
            case Err(e) => Err(e)
            case Ok(parsed) => Ok(LibraryFields(id, name, createdAt, parsed))
  }

  /** `Library.from_dict`: the type and key checks, then `__init__`. */
  function ParseLibrary(data: PyValue): Result<LibraryFields, PyError> {
    if !data.PyDict? then Err(ValueError(NOT_A_DICT))
    else if !HasKeys(data, LIBRARY_KEYS) then Err(ValueError("Invalid library data format"))
    else InitFields(data)
  }

  /** The dictionary `Library.create` builds. */
  function CreateDict(name: string, now: string): PyValue {
    PyDict(map["id" := PyStr(SanitizeName(name)), "name" := PyStr(name), "created_at" := PyStr(now),
               "speakers" := PyList([])])
  }

  /** `[speaker.to_dict() for speaker in speakers]`. */
  function SpeakerDicts(speakers: seq<Speaker>): (r: seq<PyValue>)
    ensures |r| == |speakers|
  {
    seq(|speakers|, i requires 0 <= i < |speakers| => SpeakerToDict(speakers[i]))
  }

  /** `Library.to_dict`. */
  function LibraryDict(f: LibraryFields): PyValue {
    PyDict(map["id" := f.id, "name" := f.name, "created_at" := f.createdAt,
               "speakers" := PyList(SpeakerDicts(f.speakers))])
  }

  /** `Library.create(name)` at time `now`: id is the sanitised name, no speakers. */
  lemma CreateFields(name: string, now: string)
    ensures InitFields(CreateDict(name, now)) == Ok(LibraryFields(PyStr(SanitizeName(name)), PyStr(name), PyStr(now), []))
  {
  }

  /**
    `Library.from_dict` raises `ValueError` on a non-dictionary and on a
    missing key, and otherwise gives what `__init__` gives.
   */
  lemma ParseLibraryErrors(data: PyValue)
    ensures !data.PyDict? ==> ParseLibrary(data) == Err(ValueError(NOT_A_DICT))
    ensures data.PyDict? && !HasKeys(data, LIBRARY_KEYS) ==>
      ParseLibrary(data) == Err(ValueError("Invalid library data format"))
    ensures HasKeys(data, LIBRARY_KEYS) ==> ParseLibrary(data) == InitFields(data)
    ensures HasKeys(data, LIBRARY_KEYS)
              && (data.entries["speakers"].PyNone? || data.entries["speakers"].PyBool? || data.entries["speakers"].PyNum?) ==>
      ParseLibrary(data) == Err(TypeError("'" + TypeName(data.entries["speakers"]) + "' object is not iterable"))
    ensures ParseLibrary(data).Ok? ==> data.entries["id"] == ParseLibrary(data).value.id
  {
  }

  lemma {:induction false} SpeakerListRoundTrip(speakers: seq<Speaker>)
    ensures SpeakerList(SpeakerDicts(speakers)) == Ok(speakers)
  {
    var dicts := SpeakerDicts(speakers);
    if speakers != [] {
      SpeakerDictRoundTrip(speakers[0]);
      SpeakerListRoundTrip(speakers[1..]);
      assert dicts[1..] == SpeakerDicts(speakers[1..]);
      assert [speakers[0]] + speakers[1..] == speakers;
    }
  }

  /**
    `Library(lib.to_dict())` and `Library.from_dict(lib.to_dict())` rebuild the
    same id, name, creation time and speakers, in order.
   */
  lemma LibraryDictRoundTrip(f: LibraryFields)
    ensures InitFields(LibraryDict(f)) == Ok(f)
    ensures ParseLibrary(LibraryDict(f)) == Ok(f)
  {
    SpeakerListRoundTrip(f.speakers);
    assert HasKeys(LibraryDict(f), LIBRARY_KEYS);
  }

  /** Some speaker in `speakers` has id `id`. */
  predicate HasId(speakers: seq<Speaker>, id: PyValue) {
    exists i :: 0 <= i < |speakers| && speakers[i].id == id
  }

  predicate UniqueIds(speakers: seq<Speaker>) {
    forall i, j :: 0 <= i < j < |speakers| ==> speakers[i].id != speakers[j].id
  }

  /** The position of the first speaker with id `id`, or `|speakers|` when there is none. */
  function FirstIndex(speakers: seq<Speaker>, id: PyValue): (k: nat)
    ensures k <= |speakers|
    ensures k < |speakers| ==> speakers[k].id == id
    ensures forall j :: 0 <= j < k ==> speakers[j].id != id
    ensures k < |speakers| <==> HasId(speakers, id)
  {
    if speakers == [] then 0
    else if speakers[0].id == id then 0
    else 1 + FirstIndex(speakers[1..], id)
  }

  /** `remove_speaker`'s effect on the list: the first speaker with the id is dropped. */
  function RemoveFirst(speakers: seq<Speaker>, id: PyValue): seq<Speaker> {
    if speakers == [] then []
    else if speakers[0].id == id then speakers[1..]
    else [speakers[0]] + RemoveFirst(speakers[1..], id)
  }

  /**
    When no speaker has the id nothing changes; otherwise exactly the first
    speaker with it is removed and the others keep their order.
   */
  lemma {:induction false} RemoveFirstSpec(speakers: seq<Speaker>, id: PyValue)
    ensures var k := FirstIndex(speakers, id);
      RemoveFirst(speakers, id) == if k < |speakers| then speakers[..k] + speakers[k + 1..] else speakers
  {
    if speakers != [] && speakers[0].id != id {
      RemoveFirstSpec(speakers[1..], id);
      RemoveFirstStep(speakers, id);
    }
  }

  /** The inductive step of `RemoveFirstSpec`: the property for the tail gives it for the whole list. */
  lemma RemoveFirstStep(speakers: seq<Speaker>, id: PyValue)
    requires speakers != [] && speakers[0].id != id
    requires var t, k := speakers[1..], FirstIndex(speakers[1..], id);
      RemoveFirst(t, id) == if k < |t| then t[..k] + t[k + 1..] else t
    ensures var k := FirstIndex(speakers, id);
      RemoveFirst(speakers, id) == if k < |speakers| then speakers[..k] + speakers[k + 1..] else speakers
  {
    var t := speakers[1..];
    var k := FirstIndex(t, id);
    assert speakers == [speakers[0]] + t;
    if k < |t| {
      DropAfterHead(speakers[0], t, k);
    }
  }

  /** Dropping element `k` of the tail is dropping element `k + 1` of the whole. */
  lemma DropAfterHead<T>(x: T, t: seq<T>, k: nat)
    requires k < |t|
    ensures [x] + (t[..k] + t[k + 1..]) == ([x] + t)[..k + 1] + ([x] + t)[k + 2..]
  {
    assert ([x] + t)[..k + 1] == [x] + t[..k];
    assert ([x] + t)[k + 2..] == t[k + 1..];
  }

  /**
    With unique ids, removal keeps them unique, leaves no speaker with the
    removed id, and shortens the list by one exactly when the id was present.
   */
  lemma RemoveFirstUnique(speakers: seq<Speaker>, id: PyValue)
    requires UniqueIds(speakers)
    ensures UniqueIds(RemoveFirst(speakers, id))
    ensures !HasId(RemoveFirst(speakers, id), id)
    ensures |RemoveFirst(speakers, id)| == |speakers| - (if HasId(speakers, id) then 1 else 0)
  {
    RemoveFirstSpec(speakers, id);
    var k := FirstIndex(speakers, id);
    var r := RemoveFirst(speakers, id);
    if k < |speakers| {
      assert r == speakers[..k] + speakers[k + 1..];
      forall i | 0 <= i < |r|
        ensures r[i] == speakers[if i < k then i else i + 1]
      {
      }
      forall i | 0 <= i < |r| ensures r[i].id != id {
        assert r[i] == speakers[if i < k then i else i + 1];
      }
      forall i, j | 0 <= i < j < |r| ensures r[i].id != r[j].id {
        assert r[i] == speakers[if i < k then i else i + 1];
        assert r[j] == speakers[if j < k then j else j + 1];
      }
    } else {
      assert r == speakers;
    }
  }

  /** A speaker whose id is new keeps the ids unique when appended. */
  lemma AppendUnique(speakers: seq<Speaker>, sp: Speaker)
    requires UniqueIds(speakers) && !HasId(speakers, sp.id)
    ensures UniqueIds(speakers + [sp])
  {
    var r := speakers + [sp];
    forall i, j | 0 <= i < j < |r| ensures r[i].id != r[j].id {
      if j == |speakers| {
        assert r[i] == speakers[i];
      }
    }
  }

  /** A `Library` object: its attributes, updated in place by `add_speaker` and `remove_speaker`. */
  class Library {
    var id: PyValue
    var name: PyValue
    var createdAt: PyValue
    var speakers: seq<Speaker>

    function Fields(): LibraryFields
      reads this
    {
      LibraryFields(id, name, createdAt, speakers)
    }

    constructor (f: LibraryFields)
      ensures Fields() == f
    {
      id, name, createdAt, speakers := f.id, f.name, f.createdAt, f.speakers;
    }

    /** `Library.create(name)` with `now` the `datetime.now().isoformat()` text. */
    static method Create(name: string, now: string) returns (lib: Library)
      ensures fresh(lib)
      ensures lib.Fields() == LibraryFields(PyStr(SanitizeName(name)), PyStr(name), PyStr(now), [])
    {
      CreateFields(name, now);
      var f := InitFields(CreateDict(name, now));
      lib := new Library(f.value);
    }

    /** `Library.from_dict(data)`: a fresh library, or the exception. */
    static method FromDict(data: PyValue) returns (r: Result<Library, PyError>)
      ensures r.Err? <==> ParseLibrary(data).Err?
      ensures r.Err? ==> r.error == ParseLibrary(data).error
      ensures r.Ok? ==> fresh(r.value) && r.value.Fields() == ParseLibrary(data).value
    {
      var p := ParseLibrary(data);
      if p.Err? {
        return Err(p.error);
      }
      var lib := new Library(p.value);
      return Ok(lib);
    }

    /** `to_dict`. */
    function ToDict(): PyValue
      reads this
    {
      LibraryDict(Fields())
    }

    /**
      `add_speaker`: an empty name raises first, then an id already present;
      on either error the list is untouched. Otherwise the new speaker is
      appended and returned.
     */
    method AddSpeaker(speakerName: string, embeddings: PyValue) returns (r: Result<Speaker, PyError>)
      modifies this
      ensures id == old(id) && name == old(name) && createdAt == old(createdAt)
      ensures speakerName == "" ==> r == Err(ValueError("Speaker name cannot be empty"))
      ensures speakerName != "" && HasId(old(speakers), PyStr(SanitizeName(speakerName))) ==>
        r == Err(ValueError("Speaker with ID " + SanitizeName(speakerName) + " already exists in the library"))
      ensures r.Err? ==> speakers == old(speakers)
      ensures r.Ok? <==> speakerName != "" && !HasId(old(speakers), PyStr(SanitizeName(speakerName)))
      ensures r.Ok? ==> r == CreateSpeaker(speakerName, embeddings) && speakers == old(speakers) + [r.value]
      ensures UniqueIds(old(speakers)) ==> UniqueIds(speakers)
    {
      var created := CreateSpeaker(speakerName, embeddings);
      if created.Err? {
        return created;
      }
      var sp := created.value;
      if HasId(speakers, sp.id) {
        return Err(ValueError("Speaker with ID " + SanitizeName(speakerName) + " already exists in the library"));
      }
      if UniqueIds(speakers) {
        AppendUnique(speakers, sp);
      }
      speakers := speakers + [sp];
      return Ok(sp);
    }

    /**
      `remove_speaker`: the scan stops at the first speaker with the id, which
      is deleted; the result says whether one was found.
     */
    method RemoveSpeaker(speakerId: string) returns (removed: bool)
      modifies this
      ensures id == old(id) && name == old(name) && createdAt == old(createdAt)
      ensures removed <==> HasId(old(speakers), PyStr(speakerId))
      ensures speakers == RemoveFirst(old(speakers), PyStr(speakerId))
    {
      var s := speakers;
      var target := PyStr(speakerId);
      var i := 0;
      while i < |s| && s[i].id != target
        invariant 0 <= i <= |s|
        invariant forall j :: 0 <= j < i ==> s[j].id != target
      {
        i := i + 1;
      }
      RemoveFirstSpec(s, target);
      assert i == FirstIndex(s, target);
      if i < |s| {
        speakers := s[..i] + s[i + 1..];
        return true;
      }
      return false;
    }
  }
}
