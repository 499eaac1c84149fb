/**
  frontend/lib/store.ts: the in-memory mock store of voices (each a list of
  sample file names), stored sample blobs, and models (snapshots of voices
  of which one may be active). `Date.now()` and `URL.createObjectURL` are
  inputs.
 */
module MockStore {
  import opened Wrappers
  import opened Text

  /** A browser `File`: its name and an opaque reference to its contents. */
  datatype File = File(name: string, contents: nat)

  /** An `AudioBlob`: the object URL and the file it was made for. */
  datatype AudioBlob = AudioBlob(url: string, blob: File)

  /** A `Model`; `isActive` is absent until `loadModel` first runs. */
  datatype Model = Model(id: string, name: string, voices: map<string, seq<string>>, isActive: Option<bool>)

  /** `name.split(".")` followed by `pop()` and `join(".")`: the text after the last dot, and before it. */
  function SplitExtension(name: string): (parts: (string, string))
    ensures ContainsChar(name, '.') ==> parts.0 + "." + parts.1 == name && !ContainsChar(parts.1, '.')
    ensures !ContainsChar(name, '.') ==> parts.0 == "" && parts.1 == name
  {
    if name == [] then ("", "")
    else if name[|name| - 1] == '.' then (name[..|name| - 1], "")
    else
      var (base, ext) := SplitExtension(name[..|name| - 1]);
      assert forall i :: 0 <= i < |name| - 1 ==> name[..|name| - 1][i] == name[i];
      if ContainsChar(name[..|name| - 1], '.') then (base, ext + [name[|name| - 1]])
      else ("", name)
  }

  /** The name a sample gets when one of the same name is already stored: `<base>_<now>.<ext>`. */
  function RenamedSample(name: string, now: int): string {
    var (base, ext) := SplitExtension(name);
    base + "_" + IntToString(now) + "." + ext
  }

  /** `samples.filter((sample) => sample !== name)`. */
  function Without(samples: seq<string>, name: string): (r: seq<string>)
    ensures |r| <= |samples|
  {
    if samples == [] then []
    else Without(samples[..|samples| - 1], name)
         + (if samples[|samples| - 1] == name then [] else [samples[|samples| - 1]])
  }

  /**
    The filter leaves no occurrence of the name, keeps every other sample,
    and removes something exactly when the name occurred; a second filter
    changes nothing.
   */
  lemma {:induction false} WithoutSpec(samples: seq<string>, name: string)
    ensures name !in Without(samples, name)
    ensures forall s :: s in samples && s != name ==> s in Without(samples, name)
    ensures forall s :: s in Without(samples, name) ==> s in samples
    ensures |Without(samples, name)| < |samples| <==> name in samples
    ensures Without(Without(samples, name), name) == Without(samples, name)
  {
    if samples != [] {
      var init := samples[..|samples| - 1];
      WithoutSpec(init, name);
      assert samples == init + [samples[|samples| - 1]];
      var w := Without(samples, name);
      if samples[|samples| - 1] == name {
        assert w == Without(init, name);
      } else {
        assert w == Without(init, name) + [samples[|samples| - 1]];
        assert w[..|w| - 1] == Without(init, name);
      }
    }
  }

  /** All models inactive except the one at `k`. */
  function Activate(models: seq<Model>, k: nat): (r: seq<Model>)
    requires k < |models|
    ensures |r| == |models|
  {
    seq(|models|, j requires 0 <= j < |models| => models[j].(isActive := Some(j == k)))
  }

  /** `this.models.find((m) => m.id === modelId)`, as a position. */
  function FindModel(models: seq<Model>, modelId: string): (k: nat)
    ensures k <= |models|
    ensures k < |models| ==> models[k].id == modelId
    ensures forall j :: 0 <= j < k ==> models[j].id != modelId
  {
    if models == [] then 0
    else if models[0].id == modelId then 0
    else 1 + FindModel(models[1..], modelId)
  }

  class Store {
    var voices: map<string, seq<string>>
    var models: seq<Model>
    var audioBlobs: map<string, AudioBlob>
    var activeModelId: Option<string>

    /** An empty store. */
    constructor ()
      ensures voices == map[] && models == [] && audioBlobs == map[] && activeModelId == None
    {
      voices, models, audioBlobs, activeModelId := map[], [], map[], None;
    }

    /** `addVoice`: false and no change for a known name; otherwise a voice with no samples. */
    method AddVoice(name: string) returns (added: bool)
      modifies this
      ensures added <==> name !in old(voices)
      ensures voices == if added then old(voices)[name := []] else old(voices)
      ensures models == old(models) && audioBlobs == old(audioBlobs) && activeModelId == old(activeModelId)
    {
      if name in voices {
        return false;
      }
      voices := voices[name := []];
      return true;
    }

    /**
      `addVoiceSample` at time `now`, with `url` the object URL made for the
      file: rejected for an unknown voice; otherwise one file name is
      appended to the voice, renamed when already present, and its blob is
      stored under `voice/fileName`.
     */
    method AddVoiceSample(voiceName: string, file: File, now: int, url: string) returns (r: Result<bool, string>)
      modifies this
      ensures models == old(models) && activeModelId == old(activeModelId)
      ensures voiceName !in old(voices) ==> r == Err("Voice not found") && voices == old(voices) && audioBlobs == old(audioBlobs)
      ensures voiceName in old(voices) ==>
        var fileName := if file.name in old(voices)[voiceName] then RenamedSample(file.name, now) else file.name;
        && r == Ok(true)
        && voices == old(voices)[voiceName := old(voices)[voiceName] + [fileName]]
        && audioBlobs == old(audioBlobs)[voiceName + "/" + fileName := AudioBlob(url, file)]
    {
      if voiceName !in voices {
        return Err("Voice not found");
      }
      var fileName := file.name;
      if fileName in voices[voiceName] {
        fileName := RenamedSample(fileName, now);
      }
      audioBlobs := audioBlobs[voiceName + "/" + fileName := AudioBlob(url, file)];
      voices := voices[voiceName := voices[voiceName] + [fileName]];
      return Ok(true);
    }

    /**
      `deleteVoiceSample`: false and no change when the voice or the sample
      is missing; otherwise every occurrence of the sample goes, its blob
      entry is dropped, other voices are untouched, and the answer is true.
     */
    method DeleteVoiceSample(voiceName: string, sampleName: string) returns (deleted: bool)
      modifies this
      ensures deleted <==> voiceName in old(voices) && sampleName in old(voices)[voiceName]
      ensures !deleted ==> voices == old(voices) && audioBlobs == old(audioBlobs)
      ensures deleted ==>
        && voices == old(voices)[voiceName := Without(old(voices)[voiceName], sampleName)]
        && audioBlobs == old(audioBlobs) - {voiceName + "/" + sampleName}
      ensures models == old(models) && activeModelId == old(activeModelId)
    {
      if voiceName !in voices || sampleName !in voices[voiceName] {
        return false;
      }
      voices := voices[voiceName := Without(voices[voiceName], sampleName)];
      var key := voiceName + "/" + sampleName;
      if key in audioBlobs {
        audioBlobs := audioBlobs - {key};
      }
      return true;
    }

    /** `getAudioBlobUrl`: the stored URL, or null when there is none or it is empty. */
    function AudioBlobUrl(voiceName: string, sampleName: string): (r: Option<string>)
      reads this
      ensures r.Some? <==> voiceName + "/" + sampleName in audioBlobs && audioBlobs[voiceName + "/" + sampleName].url != ""
      ensures r.Some? ==> r.value == audioBlobs[voiceName + "/" + sampleName].url
    {
      var key := voiceName + "/" + sampleName;
      if key in audioBlobs && audioBlobs[key].url != "" then Some(audioBlobs[key].url) else None
    }

    /**
      `createModel` at time `now`: keeps only the voices with at least one
      sample, copies their lists, and appends one inactive-unset model whose
      id is `model_<now>`.
     */
    method CreateModel(modelVoices: map<string, seq<string>>, name: string, now: int) returns (id: string)
      modifies this
      ensures id == "model_" + IntToString(now)
      ensures |models| == |old(models)| + 1 && models[..|old(models)|] == old(models)
      ensures var m := models[|models| - 1];
        && m.id == id && m.name == name && m.isActive == None
        && (forall v :: v in m.voices <==> v in modelVoices && |modelVoices[v]| > 0)
        && (forall v :: v in m.voices ==> m.voices[v] == modelVoices[v])
      ensures voices == old(voices) && audioBlobs == old(audioBlobs) && activeModelId == old(activeModelId)
    {
      var filtered := map v | v in modelVoices && |modelVoices[v]| > 0 :: modelVoices[v];
      id := "model_" + IntToString(now);
      models := models + [Model(id, name, filtered, None)];
    }

    /**
      `loadModel`: false and no change for an unknown id; otherwise every
      model is deactivated in turn and then the first with the id activated,
      so exactly that one is active, and it becomes the active model id.
     */
    method LoadModel(modelId: string) returns (loaded: bool)
      modifies this
      ensures loaded <==> exists j :: 0 <= j < |old(models)| && old(models)[j].id == modelId
      ensures !loaded ==> models == old(models) && activeModelId == old(activeModelId)
      ensures loaded ==>
        && models == Activate(old(models), FindModel(old(models), modelId))
        && activeModelId == Some(modelId)
      ensures voices == old(voices) && audioBlobs == old(audioBlobs)
    {
      var k := FindModel(models, modelId);
      if k == |models| {
        return false;
      }
      var ms := models;
      var i := 0;
      while i < |ms|
        invariant 0 <= i <= |ms| && |ms| == |models|
        invariant forall j :: 0 <= j < |ms| ==> ms[j] == models[j].(isActive := if j < i then Some(false) else models[j].isActive)
      {
        ms := ms[i := ms[i].(isActive := Some(false))];
        i := i + 1;
      }
      ms := ms[k := ms[k].(isActive := Some(true))];
      models := ms;
      activeModelId := Some(modelId);
      return true;
    }

    /** `identifyVoice`'s checks: the model must exist and have a voice; the random prediction is not modelled. */
    function IdentifyVoiceCheck(modelId: string): (r: Result<Model, string>)
      reads this
      ensures r.Err? <==> FindModel(models, modelId) == |models| || |models[FindModel(models, modelId)].voices| == 0
      ensures FindModel(models, modelId) == |models| ==> r == Err("Model not found")
      ensures FindModel(models, modelId) < |models| && |models[FindModel(models, modelId)].voices| == 0 ==>
        r == Err("Model has no voices")
      ensures r.Ok? ==> r.value in models && r.value.id == modelId && |r.value.voices| > 0
      ensures r.Ok? ==>
        && FindModel(models, modelId) < |models| && r.value == models[FindModel(models, modelId)]
        && forall j :: 0 <= j < FindModel(models, modelId) ==> models[j].id != modelId
    {
      var k := FindModel(models, modelId);
      if k == |models| then Err("Model not found")
      else if |models[k].voices| == 0 then Err("Model has no voices")
      else Ok(models[k])
    }
  }

  /** After `loadModel`, exactly one model is active, the first with the id; nothing else about the models changes. */
  lemma ActivateSpec(models: seq<Model>, modelId: string)
    requires FindModel(models, modelId) < |models|
    ensures var k := FindModel(models, modelId);
      var r := Activate(models, k);
      && (forall j :: 0 <= j < |r| ==> (r[j].isActive == Some(true) <==> j == k))
      && (forall j :: 0 <= j < |r| ==> r[j].isActive.Some?)
      && r[k].id == modelId
      && (forall j :: 0 <= j < k ==> r[j].id != modelId)
      && (forall j :: 0 <= j < |r| ==> r[j].(isActive := models[j].isActive) == models[j])
  {
  }
}
