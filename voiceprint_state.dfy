/**
  voiceprint/voiceprint.py: the `Voiceprint` service's library selection.
  The libraries directory is a map from file name to what unpickling that
  file gives; the currently loaded `Library` object is `library`. Audio
  decoding, the speaker-embedding network and cosine similarity are
  inputs: the set of audio paths that exist, the mean embedding, and a
  similarity score per speaker.
 */
module VoiceprintState {
  import opened Wrappers
  import opened Text
  import opened PyValues
  import opened NameSanitizer
  import opened VoiceLibrary

  const PICKLE_SUFFIX := ".pkl"

  /** A file of the libraries directory: what `pickle.load` returns, or why it fails. */
  datatype StoredFile = Pickled(data: PyValue) | Unreadable(reason: string)

  /** `os.path.join(a, b)`: an absolute `b` replaces `a`; otherwise one separator between them. */
  function JoinPath(a: string, b: string): string {
    if b != [] && b[0] == '/' then b
    else if a == [] || a[|a| - 1] == '/' then a + b
    else a + "/" + b
  }

  /** The file name `get_library_path` gives a library id. */
  function LibraryFileName(libId: string): string {
    libId + PICKLE_SUFFIX
  }

  /** `_read_library_from_path` for a file named `fileName` in the directory `libsPath`. */
  function ReadFile(files: map<string, StoredFile>, libsPath: string, fileName: string): Result<LibraryFields, PyError> {
    if fileName !in files then Err(FileNotFoundError("Library file not found: " + JoinPath(libsPath, fileName)))
    else
      match files[fileName]
      case Unreadable(reason) => Err(UnpicklingError(reason))
      case Pickled(data) => ParseLibrary(data)
  }

  /** `_read_library_by_id`: an empty id is refused before the file is looked up. */
  function ReadById(files: map<string, StoredFile>, libsPath: string, libId: string): Result<LibraryFields, PyError> {
    if libId == "" then Err(ValueError("Library ID cannot be empty"))
    else ReadFile(files, libsPath, LibraryFileName(libId))
  }

  /** What `list_libraries` keeps for one directory entry: the library, if the name ends in `.pkl` and it reads. */
  function Listing(files: map<string, StoredFile>, libsPath: string, fileName: string): Option<LibraryFields> {
    if EndsWith(fileName, PICKLE_SUFFIX) then
      match ReadById(files, libsPath, fileName[..|fileName| - |PICKLE_SUFFIX|])
      case Ok(f) => Some(f)
      case Err(_) => None
    else None
  }

  /** The libraries `list_libraries` returns for the directory entries `names`, in that order. */
  function Listed(files: map<string, StoredFile>, libsPath: string, names: seq<string>): seq<LibraryFields> {
    if names == [] then []
    else
      (match Listing(files, libsPath, names[0]) case Some(f) => [f] case None => [])
      + Listed(files, libsPath, names[1..])
  }

  /**
    Stripping `.pkl` from a listed name and adding it back names the same
    file, so each entry is read from itself; the name `.pkl` alone gives the
    empty id and is skipped, as is every name without the suffix.
   */
  lemma ListingReadsItself(files: map<string, StoredFile>, libsPath: string, fileName: string)
    ensures !EndsWith(fileName, PICKLE_SUFFIX) ==> Listing(files, libsPath, fileName).None?
    ensures fileName == PICKLE_SUFFIX ==> Listing(files, libsPath, fileName).None?
    ensures EndsWith(fileName, PICKLE_SUFFIX) && fileName != PICKLE_SUFFIX ==>
      && LibraryFileName(fileName[..|fileName| - |PICKLE_SUFFIX|]) == fileName
      && (Listing(files, libsPath, fileName).Some? <==>
           fileName in files && files[fileName].Pickled? && ParseLibrary(files[fileName].data).Ok?)
  {
    if EndsWith(fileName, PICKLE_SUFFIX) {
      var stem := fileName[..|fileName| - |PICKLE_SUFFIX|];
      assert stem + PICKLE_SUFFIX == fileName;
    }
  }

  /**
    A library is listed exactly when some directory entry yields it, and the
    list has at most one library per entry.
   */
  lemma {:induction false} ListedSpec(files: map<string, StoredFile>, libsPath: string, names: seq<string>, f: LibraryFields)
    ensures |Listed(files, libsPath, names)| <= |names|
    ensures f in Listed(files, libsPath, names) <==>
      exists i :: 0 <= i < |names| && Listing(files, libsPath, names[i]) == Some(f)
  {
    if names != [] {
      ListedSpec(files, libsPath, names[1..], f);
      if f in Listed(files, libsPath, names[1..]) {
        var i :| 0 <= i < |names[1..]| && Listing(files, libsPath, names[1..][i]) == Some(f);
        assert Listing(files, libsPath, names[i + 1]) == Some(f);
      }
      if exists i :: 0 <= i < |names| && Listing(files, libsPath, names[i]) == Some(f) {
        var i :| 0 <= i < |names| && Listing(files, libsPath, names[i]) == Some(f);
        if i > 0 {
          assert names[1..][i - 1] == names[i];
        }
      }
    }
  }

  /** Speaker `k` has the greatest similarity, above -1, and every earlier speaker's is strictly smaller. */
  predicate FirstBest(speakers: seq<Speaker>, similarity: Speaker -> real, k: int) {
    && 0 <= k < |speakers|
    && similarity(speakers[k]) > -1.0
    && (forall j :: 0 <= j < k ==> similarity(speakers[j]) < similarity(speakers[k]))
    && (forall j :: k <= j < |speakers| ==> similarity(speakers[j]) <= similarity(speakers[k]))
  }

  /** `audioFiles[k]` is the first path of the list that does not exist. */
  predicate FirstMissing(audioFiles: seq<string>, existing: set<string>, k: int) {
    && 0 <= k < |audioFiles|
    && audioFiles[k] !in existing
    && forall j :: 0 <= j < k ==> audioFiles[j] in existing
  }

  /**
    The loop of `identify_speaker`: the running best starts at similarity -1
    and is replaced only by a strictly greater one. The result is the first
    speaker with the greatest similarity, or none when no similarity exceeds -1.
   */
  method SelectBest(speakers: seq<Speaker>, similarity: Speaker -> real) returns (best: Option<Speaker>)
    ensures best.None? <==> forall j :: 0 <= j < |speakers| ==> similarity(speakers[j]) <= -1.0
    ensures best.Some? ==> exists k :: FirstBest(speakers, similarity, k) && speakers[k] == best.value
  {
    var bestSimilarity := -1.0;
    best := None;
    ghost var k := 0;
    var i := 0;
    while i < |speakers|
      invariant 0 <= i <= |speakers|
      invariant best.None? ==> bestSimilarity == -1.0 && forall j :: 0 <= j < i ==> similarity(speakers[j]) <= -1.0
      invariant best.Some? ==> 0 <= k < i && speakers[k] == best.value && similarity(speakers[k]) == bestSimilarity > -1.0
      invariant best.Some? ==> forall j :: 0 <= j < k ==> similarity(speakers[j]) < bestSimilarity
      invariant best.Some? ==> forall j :: k <= j < i ==> similarity(speakers[j]) <= bestSimilarity
    {
      var s := similarity(speakers[i]);
      if s > bestSimilarity {
        bestSimilarity := s;
        best := Some(speakers[i]);
        k := i;
      }
      i := i + 1;
    }
  }

  /** The service: where the libraries live, what they hold, and which one is loaded. */
  class Voiceprint {
    const libsPath: string
    /** `str()` of a library id that is not a string, which the model does not spell out. */
    const idText: PyValue -> string
    var files: map<string, StoredFile>
    var library: Library?

    /** `str(id)`, as the f-strings of this class render a library id. */
    function Str(id: PyValue): string {
      if id.PyStr? then id.s else idText(id)
    }

    /** A service over the directory `libsPath` holding `files`, with no library loaded. */
    constructor (libsPath: string, files: map<string, StoredFile>, idText: PyValue -> string)
      ensures this.libsPath == libsPath && this.files == files && this.idText == idText
      ensures library == null
    {
      this.libsPath := libsPath;
      this.files := files;
      this.idText := idText;
      library := null;
    }

    /** `_validate_library_loaded(expected)`. */
    function ValidateLoaded(expected: Option<string>): Result<Library, PyError>
      reads this, library
    {
      if library == null then Err(ValueError("No voices library loaded. Create or load a library first."))
      else
        var lib: Library := library;
        if expected.Some? && lib.id != PyStr(expected.value) then
          Err(ValueError("Expected library '" + expected.value + "' but '" + Str(lib.id) + "' is loaded"))
        else Ok(lib)
    }

    /** The check fails exactly when nothing is loaded, or an expected id differs from the loaded one's. */
    lemma ValidateLoadedSpec(expected: Option<string>)
      ensures ValidateLoaded(expected).Ok? <==>
        library != null && (expected.None? || library.id == PyStr(expected.value))
      ensures ValidateLoaded(expected).Ok? ==> ValidateLoaded(expected).value == library
      ensures library == null ==>
        ValidateLoaded(expected) == Err(ValueError("No voices library loaded. Create or load a library first."))
    {
    }

    /** `_write_library`: the loaded library's dictionary is pickled under its id. */
    method WriteLibrary()
      requires library != null
      modifies this
      ensures library == old(library)
      ensures files == old(files)[LibraryFileName(Str(library.id)) := Pickled(library.ToDict())]
    {
      files := files[LibraryFileName(Str(library.id)) := Pickled(library.ToDict())];
    }

    /**
      `create_library`: an empty name is refused with nothing changed;
      otherwise a new speaker-less library is loaded and saved under its
      sanitised name.
     */
    method CreateLibrary(name: string, now: string) returns (r: Result<Library, PyError>)
      modifies this
      ensures name == "" ==>
        && r == Err(ValueError("Library name cannot be empty"))
        && files == old(files) && library == old(library)
      ensures name != "" ==>
        && r.Ok? && library == r.value && fresh(library)
        && library.Fields() == LibraryFields(PyStr(SanitizeName(name)), PyStr(name), PyStr(now), [])
        && files == old(files)[LibraryFileName(SanitizeName(name)) := Pickled(library.ToDict())]
    {
      if name == "" {
        return Err(ValueError("Library name cannot be empty"));
      }
      library := Library.Create(name, now);
      WriteLibrary();
      return Ok(library);
    }

    /**
      `import_library` from `path` in the file system `external`: the path
      must be non-empty, exist and end in `.pkl`; a failure to unpickle or to
      accept the data is re-raised as `ValueError` and keeps the loaded
      library; otherwise the imported library is loaded and saved.
     */
    method ImportLibrary(path: string, external: map<string, StoredFile>) returns (r: Result<Library, PyError>)
      modifies this
      ensures path == "" ==> r == Err(ValueError("Library file path cannot be empty"))
      ensures path != "" && path !in external ==> r == Err(FileNotFoundError("Library file not found: " + path))
      ensures path != "" && path in external && !EndsWith(path, PICKLE_SUFFIX) ==>
        r == Err(ValueError("Library file must be a pickle (.pkl) file"))
      ensures path != "" && path in external && EndsWith(path, PICKLE_SUFFIX) && external[path].Unreadable? ==>
        r == Err(ValueError("Failed to import library: " + external[path].reason))
      ensures path != "" && path in external && EndsWith(path, PICKLE_SUFFIX) && external[path].Pickled? ==>
        var p := ParseLibrary(external[path].data);
        && (p.Err? ==> r == Err(ValueError("Failed to import library: " + ErrorText(p.error))))
        && (p.Ok? ==> r.Ok? && library == r.value && fresh(library) && library.Fields() == p.value
                      && files == old(files)[LibraryFileName(Str(p.value.id)) := Pickled(LibraryDict(p.value))])
      ensures r.Err? ==> files == old(files) && library == old(library)
    {
      if path == "" {
        return Err(ValueError("Library file path cannot be empty"));
      }
      if path !in external {
        return Err(FileNotFoundError("Library file not found: " + path));
      }
      if !EndsWith(path, PICKLE_SUFFIX) {
        return Err(ValueError("Library file must be a pickle (.pkl) file"));
      }
      match external[path]
      case Unreadable(reason) =>
        return Err(ValueError("Failed to import library: " + reason));
      case Pickled(data) =>
        var imported := Library.FromDict(data);
        if imported.Err? {
          return Err(ValueError("Failed to import library: " + ErrorText(imported.error)));
        }
        library := imported.value;
        WriteLibrary();
        return Ok(library);
    }

    /**
      `list_libraries`, with `names` the entries `os.listdir` gives in its
      order: a missing directory lists nothing; otherwise each readable
      `.pkl` entry contributes a fresh library, in order.
     */
    method ListLibraries(dirExists: bool, names: seq<string>) returns (libs: seq<Library>)
      ensures !dirExists ==> libs == []
      ensures dirExists ==> |libs| == |Listed(files, libsPath, names)|
      ensures dirExists ==> forall i :: 0 <= i < |libs| ==> libs[i].Fields() == Listed(files, libsPath, names)[i]
      ensures forall i :: 0 <= i < |libs| ==> fresh(libs[i])
    {
      libs := [];
      if !dirExists {
        return;
      }
      var i := 0;
      while i < |names|
        invariant 0 <= i <= |names|
        invariant |libs| == |Listed(files, libsPath, names[..i])|
        invariant forall j :: 0 <= j < |libs| ==> fresh(libs[j])
        invariant forall j :: 0 <= j < |libs| ==> libs[j].Fields() == Listed(files, libsPath, names[..i])[j]
      {
        ListedAppend(files, libsPath, names[..i], names[i]);
        assert names[..i + 1] == names[..i] + [names[i]];
        var entry := Listing(files, libsPath, names[i]);
        if entry.Some? {
          var lib := new Library(entry.value);
          libs := libs + [lib];
        }
        i := i + 1;
      }
      assert names[..i] == names;
    }

    /**
      `load_library`: when the loaded library already has the id it is
      returned without reading; a failed read raises `ValueError` and keeps
      the loaded library; otherwise the library read is loaded.
     */
    method LoadLibrary(libId: string) returns (r: Result<Library, PyError>)
      modifies this
      ensures files == old(files)
      ensures old(library) != null && old(library).id == PyStr(libId) ==> r == Ok(old(library)) && library == old(library)
      ensures !(old(library) != null && old(library).id == PyStr(libId)) ==>
        var read := ReadById(files, libsPath, libId);
        && (read.Err? ==> r == Err(ValueError("Failed to load library: " + ErrorText(read.error))) && library == old(library))
        && (read.Ok? ==> r.Ok? && library == r.value && fresh(library) && library.Fields() == read.value)
    {
      if library != null && library.id == PyStr(libId) {
        return Ok(library);
      }
      var read := ReadById(files, libsPath, libId);
      if read.Err? {
        return Err(ValueError("Failed to load library: " + ErrorText(read.error)));
      }
      library := new Library(read.value);
      return Ok(library);
    }

    /**
      `delete_library`: an empty id raises; a missing file answers false and
      changes nothing; otherwise the file is removed, the library unloaded if
      it is the one loaded, and the answer is true.
     */
    method DeleteLibrary(libId: string) returns (r: Result<bool, PyError>)
      modifies this
      ensures libId == "" ==> r == Err(ValueError("Library ID cannot be empty"))
      ensures libId != "" ==> r.Ok? && (r.value <==> LibraryFileName(libId) in old(files))
      ensures r != Ok(true) ==> files == old(files) && library == old(library)
      ensures r == Ok(true) ==>
        && files == old(files) - {LibraryFileName(libId)}
        && library == (if old(library) != null && old(library).id == PyStr(libId) then null else old(library))
    {
      if libId == "" {
        return Err(ValueError("Library ID cannot be empty"));
      }
      var fileName := LibraryFileName(libId);
      if fileName !in files {
        return Ok(false);
      }
      files := files - {fileName};
      if library != null && library.id == PyStr(libId) {
        library := null;
      }
      return Ok(true);
    }

    /**
      `enroll_speaker`: a loaded library, a non-empty name and at least one
      audio file are checked in that order, then every file must exist; the
      speaker with the mean embedding is added and the library saved. On any
      failure nothing changes.
     */
    method EnrollSpeaker(name: string, audioFiles: seq<string>, existing: set<string>, meanEmbedding: PyValue)
      returns (r: Result<Speaker, PyError>)
      modifies this, library
      ensures library == old(library)
      ensures old(library) == null ==> r == Err(ValueError("No voices library loaded. Create or load a library first."))
      ensures old(library) != null && name == "" ==> r == Err(ValueError("Speaker name cannot be empty"))
      ensures old(library) != null && name != "" && audioFiles == [] ==>
        r == Err(ValueError("At least one audio file must be provided"))
      ensures old(library) != null && name != "" && audioFiles != [] ==>
        forall k :: FirstMissing(audioFiles, existing, k) ==>
          r == Err(FileNotFoundError("Audio file not found: " + audioFiles[k]))
      ensures old(library) != null && name != "" && audioFiles != []
              && (forall j :: 0 <= j < |audioFiles| ==> audioFiles[j] in existing) ==>
        && (r.Ok? <==> !HasId(old(library.speakers), PyStr(SanitizeName(name))))
        && (r.Err? ==> r == Err(ValueError("Speaker with ID " + SanitizeName(name) + " already exists in the library")))
      ensures r.Err? ==> files == old(files) && (library != null ==> library.speakers == old(library.speakers))
      ensures r.Ok? ==>
        && library != null && old(library) != null && name != "" && audioFiles != []
        && (forall j :: 0 <= j < |audioFiles| ==> audioFiles[j] in existing)
        && r == CreateSpeaker(name, meanEmbedding)
        && !HasId(old(library.speakers), PyStr(SanitizeName(name)))
        && library.speakers == old(library.speakers) + [r.value]
        && files == old(files)[LibraryFileName(Str(library.id)) := Pickled(library.ToDict())]
    {
      var loaded := ValidateLoaded(None);
      if loaded.Err? {
        return Err(loaded.error);
      }
      var lib := loaded.value;
      if name == "" {
        return Err(ValueError("Speaker name cannot be empty"));
      }
      if audioFiles == [] {
        return Err(ValueError("At least one audio file must be provided"));
      }
      var i := 0;
      while i < |audioFiles|
        invariant 0 <= i <= |audioFiles|
        invariant forall j :: 0 <= j < i ==> audioFiles[j] in existing
      {
        if audioFiles[i] !in existing {
          return Err(FileNotFoundError("Audio file not found: " + audioFiles[i]));
        }
        i := i + 1;
      }
      r := lib.AddSpeaker(name, meanEmbedding);
      if r.Ok? {
        WriteLibrary();
      }
    }

    /** `unenroll_speaker`: the library is saved only when a speaker was actually removed. */
    method UnenrollSpeaker(speakerId: string) returns (r: Result<bool, PyError>)
      modifies this, library
      ensures library == old(library)
      ensures old(library) == null ==> r == Err(ValueError("No voices library loaded. Create or load a library first."))
      ensures old(library) != null ==>
        && r == Ok(HasId(old(library.speakers), PyStr(speakerId)))
        && library.speakers == RemoveFirst(old(library.speakers), PyStr(speakerId))
        && files == if r.value then old(files)[LibraryFileName(Str(library.id)) := Pickled(library.ToDict())]
                    else old(files)
      ensures old(library) == null ==> files == old(files)
    {
      var loaded := ValidateLoaded(None);
      if loaded.Err? {
        return Err(loaded.error);
      }
      var removed := loaded.value.RemoveSpeaker(speakerId);
      if removed {
        WriteLibrary();
      }
      return Ok(removed);
    }

    /**
      `identify_speaker`: after the loaded-library check, an empty library
      answers none before the audio file is looked at; a missing file raises;
      otherwise the best match by `similarity` is returned.
     */
    method IdentifySpeaker(audioFile: string, existing: set<string>, similarity: Speaker -> real)
      returns (r: Result<Option<Speaker>, PyError>)
      ensures library == null ==> r == Err(ValueError("No voices library loaded. Create or load a library first."))
      ensures library != null && library.speakers == [] ==> r == Ok(None)
      ensures library != null && library.speakers != [] && audioFile !in existing ==>
        r == Err(FileNotFoundError("Audio file not found: " + audioFile))
      ensures library != null && library.speakers != [] && audioFile in existing ==> r.Ok?
      ensures r.Ok? && r.value.Some? ==>
        && library != null
        && exists k :: FirstBest(library.speakers, similarity, k) && library.speakers[k] == r.value.value
      ensures library != null && r == Ok(None) ==>
        forall j :: 0 <= j < |library.speakers| ==> similarity(library.speakers[j]) <= -1.0
    {
      var loaded := ValidateLoaded(None);
      if loaded.Err? {
        return Err(loaded.error);
      }
      var speakers := loaded.value.speakers;
      if speakers == [] {
        return Ok(None);
      }
      if audioFile !in existing {
        return Err(FileNotFoundError("Audio file not found: " + audioFile));
      }
      var best := SelectBest(speakers, similarity);
      return Ok(best);
    }
  }

  /** Listing one more directory entry adds at most that entry's library at the end. */
  lemma {:induction false} ListedAppend(files: map<string, StoredFile>, libsPath: string, names: seq<string>, name: string)
    ensures Listed(files, libsPath, names + [name]) ==
      Listed(files, libsPath, names) + (match Listing(files, libsPath, name) case Some(f) => [f] case None => [])
  {
    if names != [] {
      ListedAppend(files, libsPath, names[1..], name);
      assert (names + [name])[1..] == names[1..] + [name];
    }
  }
}
