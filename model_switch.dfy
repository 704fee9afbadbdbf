/**
 * The runtime model hot-swap: guard checks in a fixed order, a no-op when
 * the requested model is already active, then a new llama.cpp client built
 * with the GPU-layer setting of the current one, published into the client
 * cell, recorded as the active model and, when a user is named and has a
 * settings row, persisted as that user's default model.
 */
module ModelSwitch {
  import opened Wrappers
  import opened PyStr
  import opened LlamaCpp

  /** The configuration the route reads. */
  datatype Settings = Settings(
    provider: string, modelsDir: string, embedModel: string,
    enableParallel: bool, nCtx: int, nGpuLayers: Option<int>)

  datatype SwitchRequest = SwitchRequest(provider: string, model: string, userId: Option<string>)

  /** `{"success": True, "provider": "llamacpp", "model": …, "changed": …}`, or an `HTTPException`. */
  datatype Reply = Switched(model: string, changed: bool) | Refused(status: int, detail: string)

  /** The outcome of the checks that come before any state is touched. */
  datatype Decision = Refuse(status: int, detail: string) | AlreadyActive(model: string) | Proceed(model: string)

  /** The checks in the order the route makes them. `existing` is the set of paths that exist. */
  function Decide(settings: Settings, req: SwitchRequest, existing: set<string>, active: string): Decision {
    if settings.provider != "llamacpp" then
      Refuse(400, "Model switching not yet supported for provider '" + settings.provider
                  + "'. Only 'llamacpp' is supported in Phase 1.")
    else if req.provider != "llamacpp" then
      Refuse(400, "Provider switching not supported in Phase 1. Requested provider: '" + req.provider + "'.")
    else
      var name := Strip(req.model);
      if ModelPath(settings.modelsDir, name) !in existing then
        Refuse(404, "Model file not found in models directory: '" + name + "'")
      else if active == name then AlreadyActive(name)
      else Proceed(name)
  }

  /** `if body.user_id:`. */
  predicate UserGiven(userId: Option<string>) {
    userId.Some? && userId.value != ""
  }

  function SwitchFailed(message: string): Reply {
    Refused(500, "Model switch failed: " + message)
  }

  /** The state the route changes: the client cell, `runtime_config`, and the settings rows. */
  class Runtime {
    /** The llama.cpp client cell; None until a client has been published. */
    var client: Option<LlamaCppClient>
    /** `runtime_config.llamacpp_chat_model`. */
    var chatModel: string
    /** `UserSettings.default_model` of every user who has a settings row. */
    var defaultModels: map<string, string>

    constructor (client: Option<LlamaCppClient>, chatModel: string, defaultModels: map<string, string>)
      ensures this.client == client && this.chatModel == chatModel && this.defaultModels == defaultModels
    {
      this.client := client;
      this.chatModel := chatModel;
      this.defaultModels := defaultModels;
    }

    /**
     * `switch_model`. `libraryAvailable` says whether the new client can be
     * built, `probe` what GPU auto-detection would find, and `commitError`
     * the error the settings commit raises, if any. The current client's
     * `unload` does not exist, so its loaded model stays as it was.
     */
    method Switch(settings: Settings, req: SwitchRequest, existing: set<string>, libraryAvailable: bool,
                  probe: GpuProbe, commitError: Option<string>)
      returns (reply: Reply)
      modifies this
      ensures var d := Decide(settings, req, existing, old(chatModel));
        !d.Proceed? ==>
          reply == (if d.Refuse? then Refused(d.status, d.detail) else Switched(d.model, false))
          && client == old(client) && chatModel == old(chatModel) && defaultModels == old(defaultModels)
      ensures var d := Decide(settings, req, existing, old(chatModel));
        d.Proceed? && !libraryAvailable ==>
          reply == SwitchFailed("llama-cpp-python not installed. Install with: pip install llama-cpp-python")
          && client == old(client) && chatModel == old(chatModel) && defaultModels == old(defaultModels)
      ensures var d := Decide(settings, req, existing, old(chatModel));
        var gpu := if old(client).Some? then Some(old(client).value.nGpuLayers) else settings.nGpuLayers;
        var persist := UserGiven(req.userId) && req.userId.value in old(defaultModels);
        d.Proceed? && libraryAvailable ==>
          client.Some? && fresh(client.value) && client.value.Valid() && client.value.chatLlm == None
          && client.value.chatModelPath == ModelPath(settings.modelsDir, d.model)
          && client.value.embeddingModelPath == ModelPath(settings.modelsDir, settings.embedModel)
          && client.value.nGpuLayers == ChooseGpuLayers(gpu, probe)
          && chatModel == d.model
          && (persist && commitError.None? ==> defaultModels == old(defaultModels)[req.userId.value := d.model])
          && (!(persist && commitError.None?) ==> defaultModels == old(defaultModels))
          && reply == (if persist && commitError.Some? then SwitchFailed(commitError.value) else Switched(d.model, true))
      ensures old(client).Some? ==> old(client).value.chatLlm == old(client.value.chatLlm)
    {
      var d := Decide(settings, req, existing, chatModel);
      if d.Refuse? {
        return Refused(d.status, d.detail);
      }
      if d.AlreadyActive? {
        return Switched(d.model, false);
      }
      var name := d.model;
      var gpuLayers := settings.nGpuLayers;
      if client.Some? {
        gpuLayers := Some(client.value.nGpuLayers);
        // `current_client.unload()` raises AttributeError here, which is logged and ignored.
      }
      var built := LlamaCppClient.Create(libraryAvailable, name, settings.embedModel, settings.modelsDir,
                                         settings.enableParallel, settings.nCtx, gpuLayers, probe);
      if built.Failure? {
        return SwitchFailed(built.error);
      }
      client := Some(built.value);
      chatModel := name;
      if UserGiven(req.userId) && req.userId.value in defaultModels {
        if commitError.Some? {
          return SwitchFailed(commitError.value);
        }
        defaultModels := defaultModels[req.userId.value := name];
      }
      return Switched(name, true);
    }
  }

  // ---------------------------------------------------------------- lemmas

  /** A server not running llama.cpp refuses every request with 400, whatever is asked for. */
  lemma ServerProviderFirst(settings: Settings, req: SwitchRequest, existing: set<string>, active: string)
    requires settings.provider != "llamacpp"
    ensures var d := Decide(settings, req, existing, active);
      d.Refuse? && d.status == 400 && d == Decide(settings, req.(provider := "llamacpp"), {}, active)
  {
  }

  /** A request for another provider is refused with 400 before the file is looked at. */
  lemma RequestedProviderSecond(settings: Settings, req: SwitchRequest, existing: set<string>, active: string)
    requires settings.provider == "llamacpp" && req.provider != "llamacpp"
    ensures var d := Decide(settings, req, existing, active);
      d.Refuse? && d.status == 400 && d == Decide(settings, req, {}, active)
  {
  }

  /** Only the stripped name matters: padding the requested name never changes the decision. */
  lemma NameStrippedFirst(settings: Settings, req: SwitchRequest, existing: set<string>, active: string)
    ensures Decide(settings, req, existing, active) == Decide(settings, req.(model := Strip(req.model)), existing, active)
  {
    StripIdempotent(req.model);
  }

  /** A missing file gives 404 even when its name is the active model's. */
  lemma MissingBeforeNoop(settings: Settings, req: SwitchRequest, existing: set<string>)
    requires settings.provider == "llamacpp" && req.provider == "llamacpp"
    requires ModelPath(settings.modelsDir, Strip(req.model)) !in existing
    ensures Decide(settings, req, existing, Strip(req.model))
      == Refuse(404, "Model file not found in models directory: '" + Strip(req.model) + "'")
  {
  }

  /** The switch goes ahead exactly when both providers are llama.cpp, the file exists and it is not already active. */
  lemma ProceedIff(settings: Settings, req: SwitchRequest, existing: set<string>, active: string)
    ensures Decide(settings, req, existing, active).Proceed? <==>
      settings.provider == "llamacpp" && req.provider == "llamacpp"
      && ModelPath(settings.modelsDir, Strip(req.model)) in existing && active != Strip(req.model)
    ensures Decide(settings, req, existing, active).AlreadyActive? <==>
      settings.provider == "llamacpp" && req.provider == "llamacpp"
      && ModelPath(settings.modelsDir, Strip(req.model)) in existing && active == Strip(req.model)
  {
  }

  /** Once a switch has made a model active, asking for it again is a no-op. */
  lemma SecondSwitchIsNoop(settings: Settings, req: SwitchRequest, existing: set<string>, active: string)
    requires Decide(settings, req, existing, active).Proceed?
    ensures var n := Decide(settings, req, existing, active).model;
      Decide(settings, req, existing, n) == AlreadyActive(n)
  {
  }
}
