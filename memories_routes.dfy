/**
 * The memory-management endpoints: a shape normaliser for whatever the
 * memory backend returns from a listing, and the mapping of the manager's
 * answers (or its exceptions) onto HTTP responses.
 */
module MemoriesRoutes {
  import opened Wrappers
  import opened PyStr
  import opened PyValue
  import opened MemoryStore

  /** A JSON body, or an `HTTPException` with its status and detail. */
  datatype Response = Ok(body: Value) | HttpError(status: int, detail: string)

  /** The outcome of awaiting a manager call: a value, or an exception with its `str(e)`. */
  type Outcome = Result<Value, string>

  /** `_normalize_memories`: a `{"results": …}` wrapper gives its value, a list gives itself, anything else `[]`. */
  function NormalizeMemories(raw: Value): Value {
    if HasKey(raw, "results") then raw.fields["results"]
    else if raw.List? then raw
    else List([])
  }

  /** `get_memories`. */
  function GetMemories(raw: Outcome): Response {
    match raw
    case Success(v) => Ok(Dict(map["memories" := NormalizeMemories(v)]))
    case Failure(e) => HttpError(500, "Failed to retrieve memories: " + e)
  }

  function NotFound(memoryId: string): Response {
    HttpError(404, "Memory '" + memoryId + "' not found")
  }

  function Done(memoryId: string): Response {
    Ok(Dict(map["success" := Bool(true), "memory_id" := Str(memoryId)]))
  }

  /** `update_memory`: a falsy answer becomes 404, any other exception 500. */
  function UpdateMemory(memoryId: string, success: Outcome): Response {
    match success
    case Success(v) => if !Truthy(v) then NotFound(memoryId) else Done(memoryId)
    case Failure(e) => HttpError(500, "Failed to update memory: " + e)
  }

  /** `clear_all_memories`: reports the manager's count as it is. */
  function ClearAllMemories(deleted: Outcome): Response {
    match deleted
    case Success(v) => Ok(Dict(map["success" := Bool(true), "deleted" := v]))
    case Failure(e) => HttpError(500, "Failed to clear memories: " + e)
  }

  /** `delete_memory`: a falsy answer becomes 404, any other exception 500. */
  function DeleteMemory(memoryId: string, success: Outcome): Response {
    match success
    case Success(v) => if !Truthy(v) then NotFound(memoryId) else Done(memoryId)
    case Failure(e) => HttpError(500, "Failed to delete memory: " + e)
  }

  // ---------------------------------------------------------------- lemmas

  /** Normalising undoes the `{"results": …}` wrapper. */
  lemma NormalizeUnwraps(items: seq<Value>)
    ensures NormalizeMemories(ResultsWrapper(items)) == List(items)
  {
  }

  /** A bare list is already normal, so normalising is idempotent on lists. */
  lemma NormalizeKeepsList(items: seq<Value>)
    ensures NormalizeMemories(List(items)) == List(items)
    ensures NormalizeMemories(NormalizeMemories(List(items))) == List(items)
  {
  }

  /** Every shape that is neither a wrapper nor a list normalises to the empty list. */
  lemma NormalizeOtherwiseEmpty(raw: Value)
    requires !HasKey(raw, "results") && !raw.List?
    ensures NormalizeMemories(raw) == List([])
  {
  }

  /**
   * The route answers 404 exactly when the manager's answer is falsy, echoes
   * the id otherwise, and turns an exception into 500; the 404 is re-raised
   * as it is and never becomes a 500.
   */
  lemma UpdateNotFoundIff(memoryId: string, success: Outcome)
    ensures UpdateMemory(memoryId, success) == NotFound(memoryId) <==> success.Success? && !Truthy(success.value)
    ensures success.Success? && Truthy(success.value) ==>
      UpdateMemory(memoryId, success).Ok? && UpdateMemory(memoryId, success).body.fields["memory_id"] == Str(memoryId)
    ensures success.Failure? ==> UpdateMemory(memoryId, success) == HttpError(500, "Failed to update memory: " + success.error)
    ensures UpdateMemory(memoryId, success).HttpError? && UpdateMemory(memoryId, success).status == 500 <==> success.Failure?
  {
  }

  lemma DeleteNotFoundIff(memoryId: string, success: Outcome)
    ensures DeleteMemory(memoryId, success) == NotFound(memoryId) <==> success.Success? && !Truthy(success.value)
    ensures success.Success? && Truthy(success.value) ==>
      DeleteMemory(memoryId, success).Ok? && DeleteMemory(memoryId, success).body.fields["memory_id"] == Str(memoryId)
    ensures success.Failure? ==> DeleteMemory(memoryId, success) == HttpError(500, "Failed to delete memory: " + success.error)
    ensures DeleteMemory(memoryId, success).HttpError? && DeleteMemory(memoryId, success).status == 500 <==> success.Failure?
  {
  }

  /** `clear_all` reports exactly the count the manager returned, and an exception as 500. */
  lemma ClearAllReportsCount(n: int, e: string)
    ensures ClearAllMemories(Success(Int(n))).Ok?
    ensures ClearAllMemories(Success(Int(n))).body.fields["deleted"] == Int(n)
    ensures ClearAllMemories(Failure(e)) == HttpError(500, "Failed to clear memories: " + e)
  {
  }

  // ---------------------------------------------------------------- endpoints over the fallback store

  /** `get_memories` over the fallback store: the listing of that user, unwrapped. */
  method GetMemoriesEndpoint(manager: MemoryManager, userId: string) returns (resp: Response)
    requires manager.Valid()
    ensures resp == Ok(Dict(map["memories" := List(ListingItems(EntriesOf(manager.memory.store, userId)))]))
  {
    var raw := manager.GetAll(userId);
    resp := GetMemories(Success(raw));
  }

  /** `update_memory` over the fallback store: 404 iff no entry carries the id. */
  method UpdateMemoryEndpoint(manager: MemoryManager, memoryId: string, text: string) returns (resp: Response)
    requires manager.Valid()
    modifies manager.memory
    ensures manager.Valid()
    ensures resp == if HasId(old(manager.memory.store), memoryId) then Done(memoryId) else NotFound(memoryId)
    ensures manager.memory.store == SetMemory(old(manager.memory.store), memoryId, text)
  {
    var ok := manager.UpdateMemory(memoryId, text);
    resp := UpdateMemory(memoryId, Success(Bool(ok)));
  }

  /** `delete_memory` over the fallback store: 404 iff no entry carries the id. */
  method DeleteMemoryEndpoint(manager: MemoryManager, memoryId: string) returns (resp: Response)
    requires manager.Valid()
    modifies manager.memory
    ensures manager.Valid()
    ensures resp == if HasId(old(manager.memory.store), memoryId) then Done(memoryId) else NotFound(memoryId)
    ensures manager.memory.store == RemoveId(old(manager.memory.store), memoryId)
  {
    var ok := manager.DeleteMemory(memoryId);
    resp := DeleteMemory(memoryId, Success(Bool(ok)));
  }

  /** `clear_all_memories` over the fallback store: reports how many entries that user had. */
  method ClearAllEndpoint(manager: MemoryManager, userId: string) returns (resp: Response)
    requires manager.Valid()
    modifies manager.memory
    ensures manager.Valid()
    ensures resp == Ok(Dict(map["success" := Bool(true), "deleted" := Int(|EntriesOf(old(manager.memory.store), userId)|)]))
    ensures manager.memory.store == old(manager.memory.store)[userId := []]
  {
    var n := manager.DeleteAll(userId);
    resp := ClearAllMemories(Success(Int(n)));
  }
}
