/**
 * Speech recognition (src-tauri/src/whisper.rs): the table of known models,
 * the engine's loaded-model slot, local transcription by segment
 * concatenation, transcription through an OpenAI-compatible HTTP API, and the
 * decoding of a WAV file back into samples.
 *
 * The file system, the whisper.cpp engine and the HTTP client are foreign:
 * whether a file exists, what loading or running the engine yields and what a
 * request returns are parameters.
 */
module Whisper {
  import opened Wrappers
  import opened Errors
  import opened Strings
  import opened Http
  import Audio

  // ---------------------------------------------------------------------------
  // The model table

  /** One known model: its name, its advertised download size and its file name. */
  datatype ModelEntry = ModelEntry(name: string, size: string, filename: string)

  /** The models that can be downloaded and loaded, in the order they are listed. */
  const WhisperModels: seq<ModelEntry> := [
    ModelEntry("tiny", "75 MB", "ggml-tiny.bin"),
    ModelEntry("base", "142 MB", "ggml-base.bin"),
    ModelEntry("small", "466 MB", "ggml-small.bin"),
    ModelEntry("medium", "1.5 GB", "ggml-medium.bin"),
    ModelEntry("large-v3-turbo", "1.6 GB", "ggml-large-v3-turbo.bin")
  ]

  /** `name` is the name of one of the entries. */
  predicate IsKnownIn(entries: seq<ModelEntry>, name: string) {
    exists k :: 0 <= k < |entries| && entries[k].name == name
  }

  /** The first entry named `name`, as `iter().find` returns it. */
  function FindEntry(entries: seq<ModelEntry>, name: string): (r: Option<ModelEntry>)
    ensures r.None? <==> !IsKnownIn(entries, name)
    ensures r.Some? ==> r.value in entries && r.value.name == name
  {
    if entries == [] then None
    else if entries[0].name == name then Some(entries[0])
    else
      var r := FindEntry(entries[1..], name);
      assert IsKnownIn(entries, name) ==> IsKnownIn(entries[1..], name) by {
        if IsKnownIn(entries, name) {
          var k :| 0 <= k < |entries| && entries[k].name == name;
          assert entries[1..][k - 1] == entries[k];
        }
      }
      assert IsKnownIn(entries[1..], name) ==> IsKnownIn(entries, name) by {
        if IsKnownIn(entries[1..], name) {
          var k :| 0 <= k < |entries[1..]| && entries[1..][k].name == name;
          assert entries[k + 1] == entries[1..][k];
        }
      }
      r
  }

  /** The table entry for a model name, if the name is known. */
  function FindModel(name: string): Option<ModelEntry> {
    FindEntry(WhisperModels, name)
  }

  /** Each known name finds its own entry. */
  lemma KnownModels()
    ensures forall k :: 0 <= k < |WhisperModels| ==> FindModel(WhisperModels[k].name) == Some(WhisperModels[k])
  {
    forall k | 0 <= k < |WhisperModels|
      ensures FindModel(WhisperModels[k].name) == Some(WhisperModels[k])
    {
      forall j | 0 <= j < k ensures WhisperModels[j].name != WhisperModels[k].name {
        assert WhisperModels[j].name[0] != WhisperModels[k].name[0];
      }
      FindEntryAt(WhisperModels, WhisperModels[k].name, k);
    }
  }

  /** The first entry named `name` is the one found. */
  lemma {:induction false} FindEntryAt(entries: seq<ModelEntry>, name: string, k: nat)
    requires k < |entries| && entries[k].name == name
    requires forall j :: 0 <= j < k ==> entries[j].name != name
    ensures FindEntry(entries, name) == Some(entries[k])
  {
    if k > 0 {
      FindEntryAt(entries[1..], name, k - 1);
    }
  }

  /** Every model file is named `ggml-<name>.bin`. */
  lemma ModelFileNames()
    ensures forall k :: 0 <= k < |WhisperModels| ==> FileNamedAfter(WhisperModels[k])
  {
    forall k | 0 <= k < |WhisperModels| ensures FileNamedAfter(WhisperModels[k]) {
      FileNamedAfterAt(k);
    }
  }

  /** `ModelFileNames` for the entry at `k`. */
  lemma FileNamedAfterAt(k: nat)
    requires k < |WhisperModels|
    ensures FileNamedAfter(WhisperModels[k])
  {
    if k == 0 {
      FileNamedAfterOf(WhisperModels[0], "tiny", "ggml-tiny.bin");
    } else if k == 1 {
      FileNamedAfterOf(WhisperModels[1], "base", "ggml-base.bin");
    } else if k == 2 {
      FileNamedAfterOf(WhisperModels[2], "small", "ggml-small.bin");
    } else if k == 3 {
      FileNamedAfterOf(WhisperModels[3], "medium", "ggml-medium.bin");
    } else {
      LargeV3TurboFileName();
      FileNamedAfterOf(WhisperModels[4], "large-v3-turbo", "ggml-large-v3-turbo.bin");
    }
  }

  /** The longest file name of the table, spelled out. */
  lemma LargeV3TurboFileName()
    ensures "ggml-" + "large-v3-turbo" + ".bin" == "ggml-large-v3-turbo.bin"
  {}

  /** The file of a model is named `ggml-<name>.bin`. */
  predicate FileNamedAfter(e: ModelEntry) {
    e.filename == "ggml-" + e.name + ".bin"
  }

  /** An entry with the given name and file name is named after its model when the file name is `ggml-<name>.bin`. */
  lemma FileNamedAfterOf(e: ModelEntry, name: string, filename: string)
    requires e.name == name && e.filename == filename
    requires "ggml-" + name + ".bin" == filename
    ensures FileNamedAfter(e)
  {}

  /** The names the settings default to or migrate to are not in the table. */
  lemma QuantisedNamesUnknown()
    ensures FindModel("large-v3-turbo-q5_0").None?
    ensures FindModel("tiny-q5_1").None?
    ensures FindModel("small-q5_1").None?
  {
  }

  /** `huggingface_url`: where a model file is downloaded from. */
  function HuggingfaceUrl(filename: string): (url: string)
    ensures |url| >= |filename| && url[|url| - |filename|..] == filename
  {
    "https://huggingface.co/ggerganov/whisper.cpp/resolve/main/" + filename
  }

  /** `PathBuf::join` of a file name onto a directory, on a Unix path. */
  function JoinPath(dir: string, name: string): (path: string)
    ensures |path| >= |name| && path[|path| - |name|..] == name
  {
    if dir == [] || dir[|dir| - 1] == '/' then dir + name else dir + "/" + name
  }

  /** Where a model file lives in the models directory. */
  function ModelPath(modelsDir: string, entry: ModelEntry): string {
    JoinPath(modelsDir, entry.filename)
  }

  /** One row of the model list: name, size, whether the file is present and, if it is, its path. */
  datatype ModelInfo = ModelInfo(name: string, size: string, downloaded: bool, path: Option<string>)

  /**
   * `list_models`: one row per table entry, in table order. The models
   * directory (or the error finding it) and the set of existing files are inputs.
   */
  method ListModels(modelsDir: Res<string>, files: set<string>) returns (r: Res<seq<ModelInfo>>)
    ensures modelsDir.Err? ==> r == Err(modelsDir.error)
    ensures modelsDir.Ok? ==> r.Ok? && |r.value| == |WhisperModels|
    ensures modelsDir.Ok? ==> forall k :: 0 <= k < |WhisperModels| ==>
      var info, entry := r.value[k], WhisperModels[k];
      info.name == entry.name && info.size == entry.size &&
      (info.downloaded <==> ModelPath(modelsDir.value, entry) in files) &&
      (info.path.Some? <==> info.downloaded) &&
      (info.path.Some? ==> info.path.value == ModelPath(modelsDir.value, entry))
  {
    var dir :- modelsDir;
    var result: seq<ModelInfo> := [];
    for k := 0 to |WhisperModels|
      invariant |result| == k
      invariant forall j :: 0 <= j < k ==>
        var info, entry := result[j], WhisperModels[j];
        info.name == entry.name && info.size == entry.size &&
        (info.downloaded <==> ModelPath(dir, entry) in files) &&
        (info.path.Some? <==> info.downloaded) &&
        (info.path.Some? ==> info.path.value == ModelPath(dir, entry))
    {
      var entry := WhisperModels[k];
      var path := ModelPath(dir, entry);
      var downloaded := path in files;
      result := result + [ModelInfo(entry.name, entry.size, downloaded, if downloaded then Some(path) else None)];
    }
    return Ok(result);
  }

  /** What `download_model` does once it has checked the name and the target file. */
  datatype DownloadPlan =
    | AlreadyDownloaded
    | Fetch(url: string, target: string)

  /**
   * The decisions `download_model` takes before streaming: an unknown name is
   * an error, a present target file means there is nothing to do, otherwise
   * the file is fetched from its Hugging Face URL into the models directory.
   */
  function PlanDownload(modelName: string, modelsDir: Res<string>, files: set<string>): (r: Res<DownloadPlan>)
    ensures FindModel(modelName).None? ==> r == Err(Whisper("Unknown model: " + modelName))
    ensures FindModel(modelName).Some? && modelsDir.Err? ==> r == Err(modelsDir.error)
    ensures r == Ok(AlreadyDownloaded) <==>
      FindModel(modelName).Some? && modelsDir.Ok? && ModelPath(modelsDir.value, FindModel(modelName).value) in files
    ensures r.Ok? && r.value.Fetch? ==>
      var entry := FindModel(modelName).value;
      r.value.url == HuggingfaceUrl(entry.filename) &&
      r.value.target == ModelPath(modelsDir.value, entry) && r.value.target !in files
  {
    match FindModel(modelName)
    case None => Err(Whisper("Unknown model: " + modelName))
    case Some(entry) =>
      var dir :- modelsDir;
      var target := ModelPath(dir, entry);
      if target in files then Ok(AlreadyDownloaded)
      else Ok(Fetch(HuggingfaceUrl(entry.filename), target))
  }

  // ---------------------------------------------------------------------------
  // The engine and its loaded-model slot

  /** A whisper.cpp context, known here only by the model file it was loaded from. */
  datatype WhisperContext = WhisperContext(modelPath: string)

  /**
   * The steps of `load_model` before the slot is written: look the name up,
   * find the models directory, check the file exists, and load it (the
   * outcome of loading is the input `loadError`). Ok carries the loaded path.
   */
  function LoadOutcome(modelName: string, modelsDir: Res<string>, files: set<string>, loadError: Option<string>): (r: Res<string>)
    ensures FindModel(modelName).None? ==> r == Err(Whisper("Unknown model: " + modelName))
    ensures FindModel(modelName).Some? && modelsDir.Ok? && ModelPath(modelsDir.value, FindModel(modelName).value) !in files ==>
      r == Err(Whisper("Model not downloaded: " + modelName))
    ensures r.Ok? <==>
      FindModel(modelName).Some? && modelsDir.Ok? && ModelPath(modelsDir.value, FindModel(modelName).value) in files &&
      loadError.None?
    ensures r.Ok? ==> r.value == ModelPath(modelsDir.value, FindModel(modelName).value)
    ensures (r.Err? && loadError.Some? && modelsDir.Ok? && FindModel(modelName).Some? &&
      ModelPath(modelsDir.value, FindModel(modelName).value) in files) ==>
      r.error == Whisper("Failed to load model: " + loadError.value)
  {
    match FindModel(modelName)
    case None => Err(Whisper("Unknown model: " + modelName))
    case Some(entry) =>
      var dir :- modelsDir;
      var path := ModelPath(dir, entry);
      if path !in files then Err(Whisper("Model not downloaded: " + modelName))
      else if loadError.Some? then Err(Whisper("Failed to load model: " + loadError.value))
      else Ok(path)
  }

  /** The parameters `transcribe` runs inference with. */
  datatype InferenceParams = InferenceParams(language: string, bestOf: nat, threads: nat)

  /** What running inference yields: creating the state, the full pass, and the segment texts (each readable or not). */
  datatype Inference = Inference(
    createState: Result<(), string>,
    full: Result<(), string>,
    segments: Result<seq<Result<string, string>>, string>)

  /** The segments that could be read, concatenated in order. */
  function ConcatReadable(segments: seq<Result<string, string>>): string {
    if segments == [] then []
    else
      var last := segments[|segments| - 1];
      ConcatReadable(segments[..|segments| - 1]) + (if last.Ok? then last.value else [])
  }

  /** Concatenating the readable segments of two runs of segments is concatenating each. */
  lemma {:induction false} ConcatReadableAppend(a: seq<Result<string, string>>, b: seq<Result<string, string>>)
    ensures ConcatReadable(a + b) == ConcatReadable(a) + ConcatReadable(b)
    decreases |b|
  {
    if b == [] {
      assert a + b == a;
    } else {
      var b' := b[..|b| - 1];
      assert (a + b)[..|a + b| - 1] == a + b';
      assert (a + b)[|a + b| - 1] == b[|b| - 1];
      ConcatReadableAppend(a, b');
    }
  }

  /** When every segment can be read, nothing is skipped: each one's text appears, in order. */
  lemma {:induction false} ConcatReadableAllRead(segments: seq<Result<string, string>>, texts: seq<string>)
    requires |segments| == |texts|
    requires forall k :: 0 <= k < |segments| ==> segments[k] == Ok(texts[k])
    ensures ConcatReadable(segments) == Concat(texts)
  {
    if segments != [] {
      ConcatReadableAllRead(segments[..|segments| - 1], texts[..|texts| - 1]);
    }
  }

  /** The plain concatenation of a sequence of texts. */
  function Concat(texts: seq<string>): string {
    if texts == [] then [] else Concat(texts[..|texts| - 1]) + texts[|texts| - 1]
  }

  /** An unreadable segment contributes nothing. */
  lemma SkipsUnreadable(before: seq<Result<string, string>>, reason: string, after: seq<Result<string, string>>)
    ensures ConcatReadable(before + [Err(reason)] + after) == ConcatReadable(before) + ConcatReadable(after)
  {
    ConcatReadableAppend(before + [Err(reason)], after);
  }

  /** The segment loop of `transcribe`: append the text of every segment that can be read. */
  method CollectSegments(segments: seq<Result<string, string>>) returns (text: string)
    ensures text == ConcatReadable(segments)
  {
    text := "";
    for i := 0 to |segments|
      invariant text == ConcatReadable(segments[..i])
    {
      assert segments[..i + 1][..i] == segments[..i];
      if segments[i].Ok? {
        text := text + segments[i].value;
      }
    }
    assert segments[..|segments|] == segments;
  }

  /** The result of an inference run: its first failure, or its readable segments concatenated and trimmed. */
  function TranscriptOf(run: Inference): (r: Res<string>)
    ensures run.createState.Err? ==> r == Err(Whisper("Failed to create state: " + run.createState.error))
    ensures run.createState.Ok? && run.full.Err? ==> r == Err(Whisper("Transcription failed: " + run.full.error))
    ensures run.createState.Ok? && run.full.Ok? && run.segments.Err? ==>
      r == Err(Whisper("Failed to get segments: " + run.segments.error))
    ensures r.Ok? <==> run.createState.Ok? && run.full.Ok? && run.segments.Ok?
    ensures r.Ok? ==> r.value == Trim(ConcatReadable(run.segments.value))
  {
    if run.createState.Err? then Err(Whisper("Failed to create state: " + run.createState.error))
    else if run.full.Err? then Err(Whisper("Transcription failed: " + run.full.error))
    else if run.segments.Err? then Err(Whisper("Failed to get segments: " + run.segments.error))
    else Ok(Trim(ConcatReadable(run.segments.value)))
  }

  class WhisperEngine {
    var ctx: Option<WhisperContext>

    /** A new engine has no model loaded. */
    constructor ()
      ensures ctx.None?
    {
      ctx := None;
    }

    /** `is_model_loaded`: the slot holds a context. */
    predicate IsModelLoaded()
      reads this
    {
      ctx.Some?
    }

    /**
     * `load_model`: every failure leaves the slot as it was; success replaces
     * it with a context for the model's file.
     */
    method LoadModel(modelName: string, modelsDir: Res<string>, files: set<string>, loadError: Option<string>)
      returns (r: Res<()>)
      modifies this
      ensures var outcome := LoadOutcome(modelName, modelsDir, files, loadError);
        (outcome.Err? ==> r == Err(outcome.error) && ctx == old(ctx)) &&
        (outcome.Ok? ==> r == Ok(()) && ctx == Some(WhisperContext(outcome.value)) && IsModelLoaded())
    {
      var path :- LoadOutcome(modelName, modelsDir, files, loadError);
      ctx := Some(WhisperContext(path));
      return Ok(());
    }

    /**
     * `transcribe`: needs a loaded model, decodes the WAV file, and runs
     * inference on the samples (what the engine yields for them is `infer`)
     * with greedy decoding, English, and one thread per CPU.
     */
    method Transcribe(wav: WavBytes, cpus: nat, infer: (InferenceParams, seq<real>) -> Inference) returns (r: Res<string>)
      ensures ctx.None? ==> r == Err(Whisper("No model loaded"))
      ensures ctx.Some? && DecodeWavToSamples(wav).Err? ==> r == Err(DecodeWavToSamples(wav).error)
      ensures ctx.Some? && DecodeWavToSamples(wav).Ok? ==>
        r == TranscriptOf(infer(InferenceParams("en", 1, cpus), DecodeWavToSamples(wav).value))
    {
      if ctx.None? {
        return Err(Whisper("No model loaded"));
      }
      var samples :- DecodeWavToSamples(wav);
      var run := infer(InferenceParams("en", 1, cpus), samples);
      if run.createState.Err? {
        return Err(Whisper("Failed to create state: " + run.createState.error));
      }
      if run.full.Err? {
        return Err(Whisper("Transcription failed: " + run.full.error));
      }
      if run.segments.Err? {
        return Err(Whisper("Failed to get segments: " + run.segments.error));
      }
      var text := CollectSegments(run.segments.value);
      return Ok(Trim(text));
    }
  }

  // ---------------------------------------------------------------------------
  // Transcription through an HTTP API

  /** A multipart transcription request: URL, optional bearer token, the file part and the model field. */
  datatype TranscriptionRequest = TranscriptionRequest(
    url: string, bearer: Option<string>,
    fileName: string, mime: string, file: WavBytes, model: string)

  /** The request `transcribe_via_api` sends. */
  function ApiRequest(endpoint: string, apiKey: string, wav: WavBytes): (req: TranscriptionRequest)
    ensures req.url == EndpointUrl(endpoint, "/v1/audio/transcriptions")
    ensures req.bearer.Some? <==> apiKey != []
    ensures req.bearer.Some? ==> req.bearer.value == apiKey
    ensures req.fileName == "audio.wav" && req.mime == "audio/wav" && req.file == wav && req.model == "whisper-1"
  {
    TranscriptionRequest(
      EndpointUrl(endpoint, "/v1/audio/transcriptions"),
      if apiKey == [] then None else Some(apiKey),
      "audio.wav", "audio/wav", wav, "whisper-1")
  }

  /** What `transcribe_via_api` makes of the reply: its `text` field, trimmed, or an error. */
  function ApiTranscript(reply: Reply<string>): (r: Res<string>)
    ensures reply.SendFailed? ==> r == Err(Whisper("API request failed: " + reply.reason))
    ensures r.Ok? <==> reply.Replied? && IsSuccess(reply.status) && reply.json.Ok?
    ensures r.Ok? ==> r.value == Trim(reply.json.value)
    ensures reply.Replied? && IsSuccess(reply.status) && reply.json.Err? ==>
      r == Err(Whisper("Parse error: " + reply.json.error))
    ensures reply.Replied? && !IsSuccess(reply.status) ==>
      r == Err(Whisper("API error " + StatusText(reply.status) + ": " + BodyOrEmpty(reply.text)))
    ensures r.Err? ==> r.error.Whisper?
  {
    match reply
    case SendFailed(reason) => Err(Whisper("API request failed: " + reason))
    case Replied(status, text, json) =>
      if !IsSuccess(status) then Err(Whisper("API error " + StatusText(status) + ": " + BodyOrEmpty(text)))
      else if json.Err? then Err(Whisper("Parse error: " + json.error))
      else Ok(Trim(json.value))
  }

  // ---------------------------------------------------------------------------
  // Decoding a WAV file

  /**
   * A WAV file as the reader sees it: a container it cannot read, or a header
   * and the per-sample reads, each of which may fail (None). Integer files
   * hold 16-bit values; float files hold the samples themselves.
   */
  datatype WavBytes =
    | Malformed(reason: string)
    | IntWav(spec: Audio.WavSpec, ints: seq<Option<int>>)
    | FloatWav(spec: Audio.WavSpec, floats: seq<Option<real>>)

  /** The WAV file `encode_wav` writes: 16-bit integer samples, every one readable. */
  function Written(wav: Audio.Wav): WavBytes {
    IntWav(wav.spec, seq(|wav.samples|, i requires 0 <= i < |wav.samples| => Some(wav.samples[i])))
  }

  /** `filter_map(|s| s.ok())`: the values of the successful items, in order. */
  function Present<T>(items: seq<Option<T>>): (values: seq<T>)
    ensures |values| <= |items|
  {
    if items == [] then []
    else Present(items[..|items| - 1]) + (if items[|items| - 1].Some? then [items[|items| - 1].value] else [])
  }

  /** When every read succeeds, nothing is dropped and the values keep their order. */
  lemma {:induction false} PresentAll<T>(items: seq<Option<T>>)
    requires forall k :: 0 <= k < |items| ==> items[k].Some?
    ensures |Present(items)| == |items|
    ensures forall k :: 0 <= k < |items| ==> Present(items)[k] == items[k].value
  {
    if items != [] {
      PresentAll(items[..|items| - 1]);
    }
  }

  /** A failed read is dropped, and what follows moves up one place. */
  lemma {:induction false} PresentSkipsFailed<T>(before: seq<Option<T>>, after: seq<Option<T>>)
    ensures Present(before + [None] + after) == Present(before) + Present(after)
    decreases |after|
  {
    if after == [] {
      assert before + [None] + after == before + [None];
      assert (before + [None])[..|before|] == before;
    } else {
      var after' := after[..|after| - 1];
      var whole := before + [None] + after;
      assert whole[..|whole| - 1] == before + [None] + after';
      assert whole[|whole| - 1] == after[|after| - 1];
      PresentSkipsFailed(before, after');
    }
  }

  /** An integer sample scaled back to the [-1, 1] range. */
  function Normalised(ints: seq<int>): (samples: seq<real>)
    ensures |samples| == |ints|
    ensures forall k :: 0 <= k < |ints| ==> samples[k] * (Audio.I16Max as real) == ints[k] as real
  {
    seq(|ints|, k requires 0 <= k < |ints| => (ints[k] as real) / (Audio.I16Max as real))
  }

  /** `decode_wav_to_samples`: integer samples divided by 32767, float samples as they are, failed reads dropped. */
  function DecodeWavToSamples(wav: WavBytes): (r: Res<seq<real>>)
    ensures wav.Malformed? ==> r == Err(Whisper("Invalid WAV: " + wav.reason))
    ensures wav.IntWav? ==> r == Ok(Normalised(Present(wav.ints)))
    ensures wav.FloatWav? ==> r == Ok(Present(wav.floats))
  {
    match wav
    case Malformed(reason) => Err(Whisper("Invalid WAV: " + reason))
    case IntWav(_, ints) => Ok(Normalised(Present(ints)))
    case FloatWav(_, floats) => Ok(Present(floats))
  }

  /**
   * Encoding then decoding gives every sample in [-1, 1] back, one for one,
   * to within one quantisation step (1/32767).
   */
  lemma EncodeDecodeWithin(samples: seq<real>, wav: Audio.Wav)
    requires forall k :: 0 <= k < |samples| ==> -1.0 <= samples[k] <= 1.0
    requires |wav.samples| == |samples|
    requires forall k :: 0 <= k < |samples| ==> wav.samples[k] == Audio.Amplitude(samples[k])
    ensures DecodeWavToSamples(Written(wav)).Ok?
    ensures var decoded := DecodeWavToSamples(Written(wav)).value;
      |decoded| == |samples| &&
      forall k :: 0 <= k < |samples| ==> -1.0 / 32767.0 < decoded[k] - samples[k] < 1.0 / 32767.0
  {
    PresentAll(Written(wav).ints);
    var decoded := DecodeWavToSamples(Written(wav)).value;
    forall k | 0 <= k < |samples|
      ensures -1.0 / 32767.0 < decoded[k] - samples[k] < 1.0 / 32767.0
    {
      Audio.AmplitudeError(samples[k]);
      assert decoded[k] * 32767.0 == wav.samples[k] as real;
    }
  }
}
