/**
 * The module-global cell that hands the shared managers to every route:
 * written by `set_managers` at start-up, read by one getter per manager,
 * each refusing to answer while its slot is empty.
 */
module Dependencies {
  import opened Wrappers

  const LangChainMissing := "LangChain manager not initialized"
  const Mem0Missing := "Mem0 manager not initialized"
  const OpenAIMissing := "OpenAI client not initialized"

  /**
   * The three module globals. `L`, `M` and `O` stand for the embedding
   * manager, the memory manager and the LLM client; Python's `None` is `None`.
   */
  class Registry<L, M, O> {
    var langchainManager: Option<L>
    var mem0Manager: Option<M>
    var openaiClient: Option<O>

    /** The state at import time: all three globals are `None`. */
    constructor ()
      ensures langchainManager == None && mem0Manager == None && openaiClient == None
    {
      langchainManager := None;
      mem0Manager := None;
      openaiClient := None;
    }

    /** `set_managers`: overwrites all three globals, whatever they held. */
    method SetManagers(langchain: Option<L>, mem0: Option<M>, openai: Option<O>)
      modifies this
      ensures langchainManager == langchain && mem0Manager == mem0 && openaiClient == openai
    {
      langchainManager := langchain;
      mem0Manager := mem0;
      openaiClient := openai;
    }

    /** `get_langchain_manager`: the stored manager, or `RuntimeError` while it is `None`. */
    method GetLangchainManager() returns (r: Result<L, string>)
      ensures langchainManager.None? <==> r.Failure?
      ensures r.Failure? ==> r.error == LangChainMissing
      ensures r.Success? ==> Some(r.value) == langchainManager
    {
      if langchainManager.None? {
        return Failure(LangChainMissing);
      }
      return Success(langchainManager.value);
    }

    /** `get_mem0_manager`. */
    method GetMem0Manager() returns (r: Result<M, string>)
      ensures mem0Manager.None? <==> r.Failure?
      ensures r.Failure? ==> r.error == Mem0Missing
      ensures r.Success? ==> Some(r.value) == mem0Manager
    {
      if mem0Manager.None? {
        return Failure(Mem0Missing);
      }
      return Success(mem0Manager.value);
    }

    /** `get_openai_client`. */
    method GetOpenaiClient() returns (r: Result<O, string>)
      ensures openaiClient.None? <==> r.Failure?
      ensures r.Failure? ==> r.error == OpenAIMissing
      ensures r.Success? ==> Some(r.value) == openaiClient
    {
      if openaiClient.None? {
        return Failure(OpenAIMissing);
      }
      return Success(openaiClient.value);
    }
  }

  /** All three getters at one moment, in the order of the module. */
  method Snapshot<L, M, O>(cell: Registry<L, M, O>) returns (r: (Result<L, string>, Result<M, string>, Result<O, string>))
    ensures r.0 == (if cell.langchainManager.Some? then Success(cell.langchainManager.value) else Failure(LangChainMissing))
    ensures r.1 == (if cell.mem0Manager.Some? then Success(cell.mem0Manager.value) else Failure(Mem0Missing))
    ensures r.2 == (if cell.openaiClient.Some? then Success(cell.openaiClient.value) else Failure(OpenAIMissing))
  {
    var l := cell.GetLangchainManager();
    var m := cell.GetMem0Manager();
    var o := cell.GetOpenaiClient();
    r := (l, m, o);
  }

  /**
   * Start-up followed by two calls of `set_managers`: before the first call
   * every getter raises; after it every getter answers with what it set;
   * after the second each getter answers with the latest value given for
   * its slot, and a `None` in one slot makes only that getter raise.
   */
  method Lifecycle<L, M, O>(a1: L, b1: M, c1: O, a2: Option<L>, b2: Option<M>, c2: Option<O>)
    returns (before: (Result<L, string>, Result<M, string>, Result<O, string>),
             first: (Result<L, string>, Result<M, string>, Result<O, string>),
             second: (Result<L, string>, Result<M, string>, Result<O, string>))
    ensures before == (Failure(LangChainMissing), Failure(Mem0Missing), Failure(OpenAIMissing))
    ensures first == (Success(a1), Success(b1), Success(c1))
    ensures second.0 == (if a2.Some? then Success(a2.value) else Failure(LangChainMissing))
    ensures second.1 == (if b2.Some? then Success(b2.value) else Failure(Mem0Missing))
    ensures second.2 == (if c2.Some? then Success(c2.value) else Failure(OpenAIMissing))
  {
    var cell := new Registry<L, M, O>();
    before := Snapshot(cell);
    cell.SetManagers(Some(a1), Some(b1), Some(c1));
    first := Snapshot(cell);
    cell.SetManagers(a2, b2, c2);
    second := Snapshot(cell);
  }
}
