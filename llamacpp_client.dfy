/**
 * The local llama.cpp adapter: the ChatML prompt encoder, the GPU-layer
 * choice, the lazily loaded, load-once model fields, the pull loop that
 * turns generated text into the shared event protocol, and the model-info
 * report. Inference itself is a parameter: the chunk texts the model would
 * produce for the prompt and the way generation ends.
 */
module LlamaCpp {
  import opened Wrappers
  import opened PyStr
  import opened PyValue
  import opened GenerationEvents

  const ImStart := "<|im_start|>"
  const ImEnd := "<|im_end|>"
  /** The opening tag of the turn the model is asked to complete. */
  const AssistantOpen := "<|im_start|>assistant\n"

  /** An OpenAI-style message dict; either key may be missing. */
  datatype PromptMessage = PromptMessage(role: Option<string>, content: Option<string>)

  /** `f"<|im_start|>{role}\n{content}<|im_end|>"` with the defaults "user" and "". */
  function Segment(m: PromptMessage): string {
    ImStart + m.role.GetOr("user") + "\n" + m.content.GetOr("") + ImEnd
  }

  /** `prompt_parts` once the loop is over and the assistant tag appended. */
  function PromptParts(messages: seq<PromptMessage>): seq<string> {
    seq(|messages|, i requires 0 <= i < |messages| => Segment(messages[i])) + [AssistantOpen]
  }

  /** Reference reading of the prompt: every segment followed by a newline, then the open assistant turn. */
  function PromptText(messages: seq<PromptMessage>): string {
    Concat(seq(|messages|, i requires 0 <= i < |messages| => Segment(messages[i]) + "\n")) + AssistantOpen
  }

  /** `_format_messages_for_llamacpp`. */
  method FormatMessages(messages: seq<PromptMessage>) returns (prompt: string)
    ensures prompt == Join("\n", PromptParts(messages))
  {
    var parts: seq<string> := [];
    var i := 0;
    while i < |messages|
      invariant 0 <= i <= |messages|
      invariant parts == seq(i, k requires 0 <= k < i => Segment(messages[k]))
    {
      parts := parts + [Segment(messages[i])];
      i := i + 1;
    }
    parts := parts + [AssistantOpen];
    assert parts == PromptParts(messages);
    prompt := Join("\n", parts);
  }

  /**
   * What the torch and platform probes found. A missing torch counts as no
   * CUDA, and a platform probe that raised as no Apple Silicon.
   */
  datatype GpuProbe = GpuProbe(cudaAvailable: bool, appleSilicon: bool)

  /** `_detect_gpu_layers`: full offload (-1) on CUDA or Apple Silicon, CPU only (0) otherwise. */
  function DetectGpuLayers(probe: GpuProbe): (n: int)
    ensures n == -1 || n == 0
    ensures n == -1 <==> probe.cudaAvailable || probe.appleSilicon
  {
    if probe.cudaAvailable then -1
    else if probe.appleSilicon then -1
    else 0
  }

  /** The constructor's choice: an explicit value is kept, `None` means auto-detect. */
  function ChooseGpuLayers(explicit: Option<int>, probe: GpuProbe): int {
    match explicit
    case Some(n) => n
    case None => DetectGpuLayers(probe)
  }

  /** `models_dir / name`; pathlib's normalisation of the directory is not modelled. */
  function ModelPath(modelsDir: string, name: string): string {
    modelsDir + "/" + name
  }

  function ChatNotFound(path: string): string {
    "Chat model not found: " + path + "\nRun: python scripts/download_models.py"
  }

  function EmbeddingNotFound(path: string): string {
    "Embedding model not found: " + path + "\nRun: python scripts/download_models.py"
  }

  /** A constructed `Llama` instance, with the settings it was built with. */
  datatype LoadedModel = LoadedModel(path: string, nCtx: int, nGpuLayers: int, embedding: bool)

  /** `embed_sync`: the loaded model's `embed` applied to each text in turn, collected in order. */
  method EmbedSync<T>(texts: seq<string>, embed: string -> seq<T>) returns (embeddings: seq<seq<T>>)
    ensures |embeddings| == |texts|
    ensures forall i :: 0 <= i < |texts| ==> embeddings[i] == embed(texts[i])
  {
    embeddings := [];
    var i := 0;
    while i < |texts|
      invariant 0 <= i <= |texts|
      invariant |embeddings| == i
      invariant forall k :: 0 <= k < i ==> embeddings[k] == embed(texts[k])
    {
      embeddings := embeddings + [embed(texts[i])];
      i := i + 1;
    }
  }

  class LlamaCppClient {
    const chatModelPath: string
    const embeddingModelPath: string
    const enableParallel: bool
    const nCtx: int
    const nGpuLayers: int
    var chatLlm: Option<LoadedModel>
    var embeddingLlm: Option<LoadedModel>
    /** How many times each model has been constructed. */
    ghost var chatLoads: nat
    ghost var embeddingLoads: nat

    /** Each model is built at most once, and a built model has this client's settings. */
    ghost predicate Valid()
      reads this
    {
      chatLoads == (if chatLlm.Some? then 1 else 0)
      && embeddingLoads == (if embeddingLlm.Some? then 1 else 0)
      && (chatLlm.Some? ==> chatLlm.value == LoadedModel(chatModelPath, nCtx, nGpuLayers, false))
      && (embeddingLlm.Some? ==> embeddingLlm.value == LoadedModel(embeddingModelPath, nCtx, nGpuLayers, true))
    }

    /** `__init__` once the library is importable: paths fixed, GPU layers chosen, nothing loaded. */
    constructor (chatModel: string, embeddingModel: string, modelsDir: string, enableParallel: bool,
                 nCtx: int, nGpuLayers: Option<int>, probe: GpuProbe)
      ensures Valid() && chatLlm == None && embeddingLlm == None
      ensures chatModelPath == ModelPath(modelsDir, chatModel)
      ensures embeddingModelPath == ModelPath(modelsDir, embeddingModel)
      ensures this.enableParallel == enableParallel && this.nCtx == nCtx
      ensures this.nGpuLayers == ChooseGpuLayers(nGpuLayers, probe)
    {
      chatModelPath := ModelPath(modelsDir, chatModel);
      embeddingModelPath := ModelPath(modelsDir, embeddingModel);
      this.enableParallel := enableParallel;
      this.nCtx := nCtx;
      this.nGpuLayers := ChooseGpuLayers(nGpuLayers, probe);
      chatLlm := None;
      embeddingLlm := None;
      chatLoads := 0;
      embeddingLoads := 0;
    }

    /**
     * `__init__` as a whole: `RuntimeError` when llama-cpp-python is not
     * importable, otherwise a client with nothing loaded.
     */
    static method Create(libraryAvailable: bool, chatModel: string, embeddingModel: string, modelsDir: string,
                         enableParallel: bool, nCtx: int, nGpuLayers: Option<int>, probe: GpuProbe)
      returns (r: Result<LlamaCppClient, string>)
      ensures !libraryAvailable <==> r.Failure?
      ensures r.Failure? ==> r.error == "llama-cpp-python not installed. Install with: pip install llama-cpp-python"
      ensures r.Success? ==>
                fresh(r.value) && r.value.Valid() && r.value.chatLlm == None && r.value.embeddingLlm == None
                && r.value.chatModelPath == ModelPath(modelsDir, chatModel)
                && r.value.embeddingModelPath == ModelPath(modelsDir, embeddingModel)
                && r.value.enableParallel == enableParallel && r.value.nCtx == nCtx
                && r.value.nGpuLayers == ChooseGpuLayers(nGpuLayers, probe)
    {
      if !libraryAvailable {
        return Failure("llama-cpp-python not installed. Install with: pip install llama-cpp-python");
      }
      var c := new LlamaCppClient(chatModel, embeddingModel, modelsDir, enableParallel, nCtx, nGpuLayers, probe);
      return Success(c);
    }

    /**
     * `_get_chat_llm`: the cached model if there is one; otherwise the file
     * must exist and construction must succeed, and the result is cached.
     * A failure leaves the field empty, so the next call tries again.
     */
    method GetChatLlm(fileExists: bool, loadFailure: Option<string>) returns (r: Result<LoadedModel, string>)
      requires Valid()
      modifies this`chatLlm, this`chatLoads
      ensures Valid()
      ensures old(chatLlm).Some? ==> r == Success(old(chatLlm).value) && chatLlm == old(chatLlm)
      ensures old(chatLlm).None? && !fileExists ==> r == Failure(ChatNotFound(chatModelPath)) && chatLlm == None
      ensures old(chatLlm).None? && fileExists && loadFailure.Some? ==> r == Failure(loadFailure.value) && chatLlm == None
      ensures old(chatLlm).None? && fileExists && loadFailure.None? ==>
        r == Success(LoadedModel(chatModelPath, nCtx, nGpuLayers, false)) && chatLlm == Some(r.value)
    {
      if chatLlm.None? {
        if !fileExists {
          return Failure(ChatNotFound(chatModelPath));
        }
        if loadFailure.Some? {
          return Failure(loadFailure.value);
        }
        chatLlm := Some(LoadedModel(chatModelPath, nCtx, nGpuLayers, false));
        chatLoads := chatLoads + 1;
      }
      return Success(chatLlm.value);
    }

    /** `_get_embedding_llm`: the same lazy, load-once discipline for the embedding model. */
    method GetEmbeddingLlm(fileExists: bool, loadFailure: Option<string>) returns (r: Result<LoadedModel, string>)
      requires Valid()
      modifies this`embeddingLlm, this`embeddingLoads
      ensures Valid()
      ensures old(embeddingLlm).Some? ==> r == Success(old(embeddingLlm).value) && embeddingLlm == old(embeddingLlm)
      ensures old(embeddingLlm).None? && !fileExists ==> r == Failure(EmbeddingNotFound(embeddingModelPath)) && embeddingLlm == None
      ensures old(embeddingLlm).None? && fileExists && loadFailure.Some? ==> r == Failure(loadFailure.value) && embeddingLlm == None
      ensures old(embeddingLlm).None? && fileExists && loadFailure.None? ==>
        r == Success(LoadedModel(embeddingModelPath, nCtx, nGpuLayers, true)) && embeddingLlm == Some(r.value)
    {
      if embeddingLlm.None? {
        if !fileExists {
          return Failure(EmbeddingNotFound(embeddingModelPath));
        }
        if loadFailure.Some? {
          return Failure(loadFailure.value);
        }
        embeddingLlm := Some(LoadedModel(embeddingModelPath, nCtx, nGpuLayers, true));
        embeddingLoads := embeddingLoads + 1;
      }
      return Success(embeddingLlm.value);
    }

    /**
     * `create_chat_completion`: a model that cannot be loaded gives a single
     * terminal event carrying the error; otherwise the prompt is built and
     * the generated chunks are relayed by the pull loop.
     */
    method CreateChatCompletion(messages: seq<PromptMessage>, fileExists: bool, loadFailure: Option<string>,
                                chunks: seq<string>, ending: Ending)
      returns (events: seq<Event>)
      requires Valid()
      modifies this`chatLlm, this`chatLoads
      ensures Valid()
      ensures old(chatLlm).None? && !fileExists ==> events == [ErrorEvent(ChatNotFound(chatModelPath))]
      ensures old(chatLlm).None? && fileExists && loadFailure.Some? ==> events == [ErrorEvent(loadFailure.value)]
      ensures old(chatLlm).Some? || (fileExists && loadFailure.None?) ==> events == StreamOf(chunks, ending)
      ensures old(chatLlm).Some? ==> chatLlm == old(chatLlm)
      ensures old(chatLlm).None? && fileExists && loadFailure.None? ==>
        chatLlm == Some(LoadedModel(chatModelPath, nCtx, nGpuLayers, false))
      ensures old(chatLlm).None? && !(fileExists && loadFailure.None?) ==> chatLlm == None
    {
      var llm := GetChatLlm(fileExists, loadFailure);
      if llm.Failure? {
        return [ErrorEvent(llm.error)];
      }
      var prompt := FormatMessages(messages);
      events := EmitTokens(chunks, ending);
    }

    /**
     * `create_embeddings`: loads the embedding model if needed, then embeds
     * every text in order; a load failure is re-raised.
     */
    method CreateEmbeddings<T>(texts: seq<string>, fileExists: bool, loadFailure: Option<string>, embed: string -> seq<T>)
      returns (r: Result<seq<seq<T>>, string>)
      requires Valid()
      modifies this`embeddingLlm, this`embeddingLoads
      ensures Valid()
      ensures r.Failure? <==> old(embeddingLlm).None? && !(fileExists && loadFailure.None?)
      ensures r.Failure? && !fileExists ==> r.error == EmbeddingNotFound(embeddingModelPath)
      ensures r.Failure? && fileExists ==> Some(r.error) == loadFailure
      ensures r.Success? ==> |r.value| == |texts| && forall i :: 0 <= i < |texts| ==> r.value[i] == embed(texts[i])
      ensures embeddingLlm.Some? <==> r.Success?
    {
      var llm := GetEmbeddingLlm(fileExists, loadFailure);
      if llm.Failure? {
        return Failure(llm.error);
      }
      var embeddings := EmbedSync(texts, embed);
      return Success(embeddings);
    }

    /**
     * `get_model_info`; whether each file exists is read from the
     * filesystem, here a parameter. "loaded" reports whether the model has
     * been built, which under `Valid()` is whether it was built once.
     */
    function GetModelInfo(chatExists: bool, embeddingExists: bool): (v: Value)
      reads this
      ensures v.Dict? && "provider" in v.fields && v.fields["provider"] == Str("llamacpp")
      ensures "chat_model" in v.fields && "embedding_model" in v.fields
      ensures var m := v.fields["chat_model"];
        m.Dict? && "path" in m.fields && "loaded" in m.fields && "exists" in m.fields
        && m.fields["path"] == Str(chatModelPath) && m.fields["exists"] == Bool(chatExists)
        && (Valid() ==> m.fields["loaded"] == Bool(chatLoads == 1))
      ensures var m := v.fields["embedding_model"];
        m.Dict? && "path" in m.fields && "loaded" in m.fields && "exists" in m.fields
        && m.fields["path"] == Str(embeddingModelPath) && m.fields["exists"] == Bool(embeddingExists)
        && (Valid() ==> m.fields["loaded"] == Bool(embeddingLoads == 1))
      ensures "gpu_layers" in v.fields && "parallel_mode" in v.fields && "context_window" in v.fields
      ensures v.fields["gpu_layers"] == Int(nGpuLayers) && v.fields["parallel_mode"] == Bool(enableParallel)
        && v.fields["context_window"] == Int(nCtx)
    {
      Dict(map[
        "provider" := Str("llamacpp"),
        "chat_model" := Dict(map["path" := Str(chatModelPath), "loaded" := Bool(chatLlm.Some?), "exists" := Bool(chatExists)]),
        "embedding_model" := Dict(map["path" := Str(embeddingModelPath), "loaded" := Bool(embeddingLlm.Some?), "exists" := Bool(embeddingExists)]),
        "gpu_layers" := Int(nGpuLayers),
        "parallel_mode" := Bool(enableParallel),
        "context_window" := Int(nCtx)
      ])
    }
  }

  /** Whether the chat model is reported loaded in a model-info dict. */
  function ChatLoaded(info: Value): Value {
    if info.Dict? && "chat_model" in info.fields && info.fields["chat_model"].Dict? && "loaded" in info.fields["chat_model"].fields
    then info.fields["chat_model"].fields["loaded"] else PyNone
  }

  /**
   * The report follows the load history: a completion that found the model
   * or built it leaves it reported loaded, one that could not build it
   * leaves it reported not loaded, and a second completion reuses the model.
   */
  method ReportAfterCompletion(client: LlamaCppClient, messages: seq<PromptMessage>, fileExists: bool,
                               loadFailure: Option<string>, chunks: seq<string>, ending: Ending, chatExists: bool, embeddingExists: bool)
    returns (events: seq<Event>, info: Value, again: seq<Event>)
    requires client.Valid()
    modifies client
    ensures client.Valid()
    ensures old(client.chatLlm).Some? || (fileExists && loadFailure.None?) ==>
      ChatLoaded(info) == Bool(true) && again == StreamOf(chunks, ending) && client.chatLoads == 1
    ensures old(client.chatLlm).None? && !(fileExists && loadFailure.None?) ==>
      ChatLoaded(info) == Bool(false) && events == again && client.chatLoads == 0
  {
    events := client.CreateChatCompletion(messages, fileExists, loadFailure, chunks, ending);
    info := client.GetModelInfo(chatExists, embeddingExists);
    again := client.CreateChatCompletion(messages, fileExists, loadFailure, chunks, ending);
  }

  /** `embed_query`: the first vector of `create_embeddings([query])`, or `[]` when there is none. */
  method EmbedQuery<T>(client: LlamaCppClient, query: string, fileExists: bool, loadFailure: Option<string>, embed: string -> seq<T>)
    returns (r: Result<seq<T>, string>)
    requires client.Valid()
    modifies client`embeddingLlm, client`embeddingLoads
    ensures client.Valid()
    ensures r.Failure? <==> old(client.embeddingLlm).None? && !(fileExists && loadFailure.None?)
    ensures r.Success? ==> r.value == embed(query)
  {
    var embeddings := client.CreateEmbeddings([query], fileExists, loadFailure, embed);
    if embeddings.Failure? {
      return Failure(embeddings.error);
    }
    return Success(if |embeddings.value| > 0 then embeddings.value[0] else []);
  }

  // ---------------------------------------------------------------- lemmas

  lemma {:induction false} JoinAppend(sep: string, parts: seq<string>, p: string)
    requires |parts| > 0
    ensures Join(sep, parts + [p]) == Join(sep, parts) + sep + p
  {
    assert (parts + [p])[..|parts|] == parts;
  }

  /** Joining with a separator and appending one more is the concatenation of every part with its separator. */
  lemma {:induction false} JoinThenSep(sep: string, parts: seq<string>)
    ensures |parts| > 0 ==> Join(sep, parts) + sep == Concat(seq(|parts|, i requires 0 <= i < |parts| => parts[i] + sep))
  {
    if |parts| > 0 {
      var n := |parts|;
      var withSep := seq(n, i requires 0 <= i < n => parts[i] + sep);
      if n == 1 {
        assert withSep[..0] == [];
      } else {
        var init := parts[..n - 1];
        JoinThenSep(sep, init);
        assert withSep[..n - 1] == seq(n - 1, i requires 0 <= i < n - 1 => init[i] + sep);
      }
    }
  }

  /** The joined parts read as every segment followed by a newline, then the open assistant turn. */
  lemma PromptIsSegmentsThenOpen(messages: seq<PromptMessage>)
    ensures Join("\n", PromptParts(messages)) == PromptText(messages)
  {
    var n := |messages|;
    var segs := seq(n, i requires 0 <= i < n => Segment(messages[i]));
    assert PromptParts(messages) == segs + [AssistantOpen];
    var lines := seq(n, i requires 0 <= i < n => Segment(messages[i]) + "\n");
    if n == 0 {
      assert PromptParts(messages) == [AssistantOpen];
      assert lines == [];
    } else {
      JoinAppend("\n", segs, AssistantOpen);
      JoinThenSep("\n", segs);
      assert seq(n, i requires 0 <= i < n => segs[i] + "\n") == lines;
    }
  }

  /** The prompt always ends with the open assistant turn, and has one part per message plus that one. */
  lemma PromptEndsWithOpen(messages: seq<PromptMessage>)
    ensures |PromptParts(messages)| == |messages| + 1
    ensures EndsWith(Join("\n", PromptParts(messages)), AssistantOpen)
  {
    PromptIsSegmentsThenOpen(messages);
    var body := Concat(seq(|messages|, i requires 0 <= i < |messages| => Segment(messages[i]) + "\n"));
    assert PromptText(messages)[|PromptText(messages)| - |AssistantOpen|..] == AssistantOpen;
  }

  /** With no messages the prompt is exactly the open assistant turn. */
  lemma EmptyPrompt()
    ensures Join("\n", PromptParts([])) == AssistantOpen
  {
    assert PromptParts([]) == [AssistantOpen];
  }

  /** Messages are encoded in input order: the prompt for `ms + [m]` extends the text for `ms`. */
  lemma PromptInOrder(ms: seq<PromptMessage>, m: PromptMessage)
    ensures PromptText(ms + [m]) ==
      Concat(seq(|ms|, i requires 0 <= i < |ms| => Segment(ms[i]) + "\n")) + Segment(m) + "\n" + AssistantOpen
  {
    var ms' := ms + [m];
    var lines' := seq(|ms'|, i requires 0 <= i < |ms'| => Segment(ms'[i]) + "\n");
    assert lines'[..|ms|] == seq(|ms|, i requires 0 <= i < |ms| => Segment(ms[i]) + "\n");
  }

  /** A missing role is "user" and a missing content is empty. */
  lemma SegmentDefaults(text: string)
    ensures Segment(PromptMessage(None, Some(text))) == "<|im_start|>user\n" + text + "<|im_end|>"
    ensures Segment(PromptMessage(Some("system"), None)) == "<|im_start|>system\n<|im_end|>"
  {
  }

  /** An explicit layer count is kept verbatim; only auto-detection is restricted to -1 and 0. */
  lemma GpuLayersChoice(explicit: Option<int>, probe: GpuProbe)
    ensures explicit.Some? ==> ChooseGpuLayers(explicit, probe) == explicit.value
    ensures explicit.None? ==> ChooseGpuLayers(explicit, probe) in {-1, 0}
  {
  }
}
