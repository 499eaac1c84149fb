/**
  web_ui/src/lib/config.ts: the checks the web UI makes before uploading an
  audio file or accepting a speaker name. Each returns an error message, or
  none when the input is accepted.
 */
module UploadValidation {
  import opened Wrappers
  import opened Text

  const MAX_FILE_SIZE: nat := 10 * 1024 * 1024
  const SUPPORTED_AUDIO_TYPES: seq<string> :=
    ["audio/wav", "audio/mpeg", "audio/mp3", "audio/mp4", "audio/ogg", "audio/webm"]
  const SUPPORTED_AUDIO_EXTENSIONS: seq<string> := [".wav", ".mp3", ".mp4", ".m4a", ".ogg", ".webm"]

  const SIZE_ERROR := "File size exceeds 10MB limit"
  const TYPE_ERROR := "Unsupported file type. Supported types: .wav, .mp3, .mp4, .m4a, .ogg, .webm"
  const NAME_REQUIRED := "Speaker name is required"
  const NAME_TOO_SHORT := "Speaker name must be at least 2 characters long"
  const NAME_TOO_LONG := "Speaker name must be 50 characters or less"
  const NAME_INVALID := "Speaker name contains invalid characters"

  /** The parts of a browser `File` the check reads: size in bytes, MIME type and name. */
  datatype UploadFile = UploadFile(size: nat, mimeType: string, name: string)

  /** `SUPPORTED_AUDIO_EXTENSIONS.some((ext) => fileName.endsWith(ext))`. */
  predicate HasSupportedExtension(fileName: string) {
    exists i :: 0 <= i < |SUPPORTED_AUDIO_EXTENSIONS| && EndsWith(fileName, SUPPORTED_AUDIO_EXTENSIONS[i])
  }

  /** `validateAudioFile`. */
  function ValidateAudioFile(file: UploadFile): Option<string> {
    if file.size > MAX_FILE_SIZE then Some(SIZE_ERROR)
    else if file.mimeType in SUPPORTED_AUDIO_TYPES then None
    else if HasSupportedExtension(Lower(file.name)) then None
    else Some(TYPE_ERROR)
  }

  /** The size message names the limit in megabytes. */
  lemma SizeErrorNamesLimit()
    ensures SIZE_ERROR == "File size exceeds " + NatToString(MAX_FILE_SIZE / 1024 / 1024) + "MB limit"
  {
  }

  /**
    The size check comes first and fails exactly above 10 MiB; a file within
    the limit is accepted exactly when its type is supported or its
    lower-cased name ends in a supported extension, and otherwise gets the
    type message.
   */
  lemma ValidateAudioFileSpec(file: UploadFile)
    ensures ValidateAudioFile(file) == Some(SIZE_ERROR) <==> file.size > MAX_FILE_SIZE
    ensures ValidateAudioFile(file).None? <==>
      file.size <= MAX_FILE_SIZE && (file.mimeType in SUPPORTED_AUDIO_TYPES || HasSupportedExtension(Lower(file.name)))
    ensures ValidateAudioFile(file) == Some(TYPE_ERROR) <==>
      file.size <= MAX_FILE_SIZE && file.mimeType !in SUPPORTED_AUDIO_TYPES && !HasSupportedExtension(Lower(file.name))
  {
  }

  /** The characters of `/[<>:"/\\|?*]/`. */
  predicate IsInvalidNameChar(c: char) {
    c == '<' || c == '>' || c == ':' || c == '"' || c == '/' || c == '\\' || c == '|' || c == '?' || c == '*'
  }

  /** `/[<>:"/\\|?*]/.test(name)`. */
  predicate HasInvalidChar(name: string) {
    exists i :: 0 <= i < |name| && IsInvalidNameChar(name[i])
  }

  /**
    `validateSpeakerName`: the `length` checks are on the trimmed name, in
    UTF-16 code units; the character check is on the name as given.
   */
  function ValidateSpeakerName(name: string): Option<string> {
    var trimmed := Utf16Length(Trim(name));
    if name == "" || trimmed == 0 then Some(NAME_REQUIRED)
    else if trimmed < 2 then Some(NAME_TOO_SHORT)
    else if trimmed > 50 then Some(NAME_TOO_LONG)
    else if HasInvalidChar(name) then Some(NAME_INVALID)
    else None
  }

  /**
    A name is required exactly when it is empty or all whitespace; a name is
    accepted exactly when its trimmed length is between 2 and 50 and it
    holds none of the nine forbidden characters.
   */
  lemma ValidateSpeakerNameSpec(name: string)
    ensures ValidateSpeakerName(name) == Some(NAME_REQUIRED) <==>
      forall i :: 0 <= i < |name| ==> IsJsWhitespace(name[i])
    ensures ValidateSpeakerName(name).None? <==>
      2 <= Utf16Length(Trim(name)) <= 50 && !HasInvalidChar(name)
    ensures ValidateSpeakerName(name) == Some(NAME_TOO_SHORT) <==> Utf16Length(Trim(name)) == 1
    ensures ValidateSpeakerName(name) == Some(NAME_TOO_LONG) <==> Utf16Length(Trim(name)) > 50
  {
    TrimEmpty(name);
    assert Utf16Length(Trim(name)) == 0 <==> Trim(name) == [] by {
      if Trim(name) != [] {
        assert Utf16Length(Trim(name)) >= |Trim(name)|;
      }
    }
  }
}
