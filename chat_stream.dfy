/**
 * The streaming chat route, `generate()`: document context and the list of
 * sources, the user memory block, the ordered prompt messages, the relay of
 * the client's events as server-sent-event frames until the first `done`,
 * the extra sources event, and the decisions taken after the stream (the
 * assistant record, the title trigger, the background memory writes).
 *
 * The database, the vector store and the LLM are parameters: the retrieval
 * outcome, the value the memory search gives, the client's events with the
 * way its stream ended, and whether the assistant record was committed.
 */
module ChatStream {
  import opened Wrappers
  import opened PyStr
  import opened PyValue
  import opened JsonText
  import opened GenerationEvents
  import MemoriesRoutes
  import MemoryGate
  import opened MemoryStore

  /** The request fields `generate` reads. `model`, `temperature` and `maxTokens` are only passed on. */
  datatype ChatRequest = ChatRequest(
    chatId: string, userId: string, message: string,
    searchMode: Option<string>, systemPrompt: string, useMemory: bool)

  /** One retrieval hit: its text and its string metadata. */
  datatype DocResult = DocResult(content: string, metadata: map<string, string>)

  /** One attribution entry, `{"filename": …, "chatId": …}`. */
  datatype Source = Source(filename: string, chatId: string)

  datatype ChatMessage = ChatMessage(role: string, content: string)

  /** The assistant row the route tries to save: the full response and the sources as JSON, or None. */
  datatype AssistantRecord = AssistantRecord(content: string, sources: Option<string>)

  /** The background memory task: not created, or created with the writes that pass its guards. */
  datatype MemoryTask = NotScheduled | Scheduled(writes: seq<Message>)

  /** Everything observable about one run of `generate`. `record` is None when the stream raised. */
  datatype Outcome = Outcome(
    messages: seq<ChatMessage>, frames: seq<string>, record: Option<AssistantRecord>,
    titleScheduled: bool, memoryTask: MemoryTask)

  const DocHeader := "\n\n--- Relevant Documents ---\n"
  const MemoryHeader := "\n\n--- User Memory Context ---\n"
  /** The `k` of the document search and the `limit` of the memory search. */
  const DocLimit := 3
  const MemoryLimit := 5

  // ---------------------------------------------------------------- documents

  predicate SearchesDocuments(mode: Option<string>) {
    mode == Some("embeddings") || mode == Some("all")
  }

  /** `result['metadata'].get('filename', 'Unknown')`. */
  function FileName(r: DocResult): string {
    if "filename" in r.metadata then r.metadata["filename"] else "Unknown"
  }

  /** The source entry for a hit; its chat id falls back to the request's. */
  function SourceOf(r: DocResult, chatId: string): Source {
    Source(FileName(r), if "chatId" in r.metadata then r.metadata["chatId"] else chatId)
  }

  function DocPiece(r: DocResult): string {
    "\n" + r.content + "\n" + "(Source: " + FileName(r) + ")\n"
  }

  function DocPieces(rs: seq<DocResult>): string {
    if |rs| == 0 then "" else DocPieces(rs[..|rs| - 1]) + DocPiece(rs[|rs| - 1])
  }

  /** The document block: empty when there are no hits, else the header and one piece per hit. */
  function DocContext(rs: seq<DocResult>): string {
    if |rs| == 0 then "" else DocHeader + DocPieces(rs)
  }

  function Filenames(ss: seq<Source>): (r: seq<string>)
    ensures |r| == |ss|
  {
    seq(|ss|, i requires 0 <= i < |ss| => ss[i].filename)
  }

  /** The sources list as the loop grows it: a hit is added unless its filename is already listed. */
  function Sources(rs: seq<DocResult>, chatId: string): seq<Source> {
    if |rs| == 0 then []
    else
      var prev := Sources(rs[..|rs| - 1], chatId);
      if FileName(rs[|rs| - 1]) in Filenames(prev) then prev else prev + [SourceOf(rs[|rs| - 1], chatId)]
  }

  /** Hit `i` is the first one with its filename. */
  predicate FirstAt(rs: seq<DocResult>, i: int)
    requires 0 <= i < |rs|
  {
    forall j :: 0 <= j < i ==> FileName(rs[j]) != FileName(rs[i])
  }

  /** The positions of first occurrences, in increasing order: an independent account of the sources. */
  function FirstIndices(rs: seq<DocResult>): (r: seq<nat>)
    ensures forall k :: 0 <= k < |r| ==> r[k] < |rs|
  {
    if |rs| == 0 then []
    else FirstIndices(rs[..|rs| - 1]) + (if FirstAt(rs, |rs| - 1) then [|rs| - 1] else [])
  }

  /** One hit more extends the block by its piece and the sources by its entry unless the filename is listed. */
  lemma DocStep(results: seq<DocResult>, i: int, chatId: string, docContext: string, sources: seq<Source>)
    requires 0 <= i < |results|
    requires docContext == DocHeader + DocPieces(results[..i])
    requires sources == Sources(results[..i], chatId)
    ensures docContext + DocPiece(results[i]) == DocHeader + DocPieces(results[..i + 1])
    ensures FileName(results[i]) in Filenames(sources) ==> sources == Sources(results[..i + 1], chatId)
    ensures FileName(results[i]) !in Filenames(sources) ==> sources + [SourceOf(results[i], chatId)] == Sources(results[..i + 1], chatId)
  {
    assert results[..i + 1][..i] == results[..i];
    AppendAssoc(DocHeader, DocPieces(results[..i]), DocPiece(results[i]));
  }

  /** The document loop: the block and the deduplicated sources, built hit by hit. */
  method BuildDocContext(results: seq<DocResult>, chatId: string) returns (docContext: string, sources: seq<Source>)
    ensures docContext == DocContext(results)
    ensures sources == Sources(results, chatId)
  {
    docContext := "";
    sources := [];
    if |results| == 0 {
      return;
    }
    docContext := DocHeader;
    var i := 0;
    while i < |results|
      invariant 0 <= i <= |results|
      invariant docContext == DocHeader + DocPieces(results[..i])
      invariant sources == Sources(results[..i], chatId)
    {
      var r := results[i];
      DocStep(results, i, chatId, docContext, sources);
      var filename := FileName(r);
      docContext := docContext + DocPiece(r);
      if filename !in Filenames(sources) {
        sources := sources + [SourceOf(r, chatId)];
      }
      i := i + 1;
    }
    assert results[..i] == results;
  }

  // ---------------------------------------------------------------- memory

  /** What `for mem in memories_list` visits; a truthy non-list yields no dict with a "memory" key. */
  function MemoryItems(list: Value): seq<Value> {
    if list.List? then list.items else []
  }

  function MemoryLine(m: Value): string {
    if HasKey(m, "memory") then "- " + Render(m.fields["memory"]) + "\n" else ""
  }

  function MemoryLines(items: seq<Value>): string {
    if |items| == 0 then "" else MemoryLines(items[..|items| - 1]) + MemoryLine(items[|items| - 1])
  }

  /** The memory block for a search result: the same normaliser as the memories routes, then the lines. */
  function MemoryContext(raw: Value): string {
    var list := MemoriesRoutes.NormalizeMemories(raw);
    if Truthy(list) then MemoryHeader + MemoryLines(MemoryItems(list)) else ""
  }

  /** One item more adds its line, which is empty unless the item is a dict with "memory". */
  lemma MemoryStep(items: seq<Value>, i: int)
    requires 0 <= i < |items|
    ensures MemoryLines(items[..i + 1]) == MemoryLines(items[..i]) + MemoryLine(items[i])
    ensures !HasKey(items[i], "memory") ==> MemoryLines(items[..i + 1]) == MemoryLines(items[..i])
  {
    assert items[..i + 1][..i] == items[..i];
  }

  /** The memory loop over the normalised result. */
  method BuildMemoryContext(raw: Value) returns (context: string)
    ensures context == MemoryContext(raw)
  {
    context := "";
    var list := List([]);
    if HasKey(raw, "results") {
      list := raw.fields["results"];
    } else if raw.List? {
      list := raw;
    }
    if !Truthy(list) {
      return;
    }
    context := MemoryHeader;
    var items := MemoryItems(list);
    var i := 0;
    while i < |items|
      invariant 0 <= i <= |items|
      invariant context == MemoryHeader + MemoryLines(items[..i])
    {
      var mem := items[i];
      MemoryStep(items, i);
      if mem.Dict? && "memory" in mem.fields {
        AppendAssoc(MemoryHeader, MemoryLines(items[..i]), MemoryLine(mem));
        context := context + MemoryLine(mem);
      }
      i := i + 1;
    }
    assert items[..i] == items;
  }

  // ---------------------------------------------------------------- messages

  /** The prompt: system prompt, memory block if any, document block if any, then the user message. */
  function AssembleMessages(systemPrompt: string, memoryContext: string, docContext: string, message: string): seq<ChatMessage> {
    [ChatMessage("system", systemPrompt)]
    + (if memoryContext != "" then [ChatMessage("system", memoryContext)] else [])
    + (if docContext != "" then [ChatMessage("system", docContext)] else [])
    + [ChatMessage("user", message)]
  }

  // ---------------------------------------------------------------- relay

  /** One server-sent event. */
  function Frame(json: string): string {
    "data: " + json + "\n\n"
  }

  /** `json.dumps(chunk)` for a client event, keys in the order the clients build them. */
  function EventJson(e: Event): string {
    ObjectText([Member("token", Quote(e.token)), Member("done", BoolText(e.done))]
      + (if e.error.Some? then [Member("error", Quote(e.error.value))] else []))
  }

  function Frames(es: seq<Event>): (r: seq<string>)
    ensures |r| == |es|
  {
    seq(|es|, i requires 0 <= i < |es| => Frame(EventJson(es[i])))
  }

  function SourceJson(s: Source): string {
    ObjectText([Member("filename", Quote(s.filename)), Member("chatId", Quote(s.chatId))])
  }

  /** `json.dumps(sources)`. */
  function SourcesJson(ss: seq<Source>): string {
    ArrayText(seq(|ss|, i requires 0 <= i < |ss| => SourceJson(ss[i])))
  }

  function SourcesFrame(ss: seq<Source>): string {
    Frame(ObjectText([Member("token", Quote("")), Member("done", "true"), Member("sources", SourcesJson(ss))]))
  }

  /** The frame of the route's own exception handler. */
  function ErrorFrame(message: string): string {
    Frame(ObjectText([Member("error", Quote(message)), Member("done", "true")]))
  }

  /** How many events the relay forwards: up to and including the first `done`, or all of them. */
  function RelayCount(chunks: seq<Event>): (n: nat)
    ensures n <= |chunks|
  {
    if |chunks| == 0 then 0 else if chunks[0].done then 1 else 1 + RelayCount(chunks[1..])
  }

  lemma TokensSnoc(es: seq<Event>, e: Event)
    ensures Concat(Tokens(es + [e])) == Concat(Tokens(es)) + e.token
  {
    assert Tokens(es + [e])[..|es|] == Tokens(es);
  }

  lemma FramesSnoc(es: seq<Event>, e: Event)
    ensures Frames(es + [e]) == Frames(es) + [Frame(EventJson(e))]
  {
  }

  lemma RelayStep(chunks: seq<Event>, i: nat)
    requires i < |chunks|
    ensures RelayCount(chunks[i..]) == if chunks[i].done then 1 else 1 + RelayCount(chunks[i + 1..])
  {
    assert chunks[i..][1..] == chunks[i + 1..];
  }

  /** The relay loop: forward each event as a frame, accumulate its token, stop after the first `done`. */
  method Relay(chunks: seq<Event>) returns (frames: seq<string>, fullResponse: string, relayed: nat)
    ensures relayed == RelayCount(chunks)
    ensures frames == Frames(chunks[..relayed])
    ensures fullResponse == Concat(Tokens(chunks[..relayed]))
  {
    frames := [];
    fullResponse := "";
    var i := 0;
    while i < |chunks|
      invariant 0 <= i <= |chunks|
      invariant RelayCount(chunks) == i + RelayCount(chunks[i..])
      invariant frames == Frames(chunks[..i])
      invariant fullResponse == Concat(Tokens(chunks[..i]))
    {
      var chunk := chunks[i];
      assert chunks[..i + 1] == chunks[..i] + [chunk];
      TokensSnoc(chunks[..i], chunk);
      FramesSnoc(chunks[..i], chunk);
      RelayStep(chunks, i);
      fullResponse := fullResponse + chunk.token;
      frames := frames + [Frame(EventJson(chunk))];
      i := i + 1;
      if chunk.done {
        relayed := i;
        return;
      }
    }
    relayed := i;
  }

  // ---------------------------------------------------------------- after the stream

  /** The background task's writes: each text only if it strips to at least three characters, user first. */
  function PlannedWrites(message: string, fullResponse: string): seq<Message> {
    (if !TooShortToStore(message) then [Message("user", message)] else [])
    + (if !TooShortToStore(fullResponse) then [Message("assistant", fullResponse)] else [])
  }

  predicate TriggersTitle(saved: bool, messageCount: int, title: string) {
    saved && messageCount == 4 && title == "New Chat"
  }

  /**
   * `generate()`. `retrieval` is what the document search gives (Failure
   * for an exception), `memoryResult` the value the memory search gives,
   * `chunks` the client's events and `raised` the exception its stream
   * raised after them, if any; `saved` says whether the assistant record was
   * committed and `messageCount`, `title` describe the chat afterwards.
   */
  method Generate(req: ChatRequest, retrieval: Result<seq<DocResult>, string>, memoryResult: Value,
                  chunks: seq<Event>, raised: Option<string>,
                  saved: bool, messageCount: int, title: string)
    returns (out: Outcome)
    ensures var docs := if SearchesDocuments(req.searchMode) && retrieval.Success? then retrieval.value else [];
      out.messages == AssembleMessages(req.systemPrompt, if req.useMemory then MemoryContext(memoryResult) else "",
                                       DocContext(docs), req.message)
    ensures var n := RelayCount(chunks);
      raised.Some? && !(n > 0 && chunks[n - 1].done) ==>
        out.frames == Frames(chunks[..n]) + [ErrorFrame(raised.value)]
        && out.record == None && !out.titleScheduled && out.memoryTask == NotScheduled
    ensures var n := RelayCount(chunks);
      var docs := if SearchesDocuments(req.searchMode) && retrieval.Success? then retrieval.value else [];
      var sources := Sources(docs, req.chatId);
      var full := Concat(Tokens(chunks[..n]));
      !(raised.Some? && !(n > 0 && chunks[n - 1].done)) ==>
        out.frames == Frames(chunks[..n]) + (if |sources| > 0 then [SourcesFrame(sources)] else [])
        && out.record == Some(AssistantRecord(full, if |sources| > 0 then Some(SourcesJson(sources)) else None))
        && out.titleScheduled == TriggersTitle(saved, messageCount, title)
        && out.memoryTask == (if req.useMemory then Scheduled(PlannedWrites(req.message, full)) else NotScheduled)
  {
    var docContext, sources := "", [];
    if SearchesDocuments(req.searchMode) && retrieval.Success? {
      docContext, sources := BuildDocContext(retrieval.value, req.chatId);
    }
    var memoryContext := "";
    if req.useMemory {
      memoryContext := BuildMemoryContext(memoryResult);
    }
    var messages := AssembleMessages(req.systemPrompt, memoryContext, docContext, req.message);
    var frames, fullResponse, relayed := Relay(chunks);
    if raised.Some? && !(relayed > 0 && chunks[relayed - 1].done) {
      return Outcome(messages, frames + [ErrorFrame(raised.value)], None, false, NotScheduled);
    }
    if |sources| > 0 {
      frames := frames + [SourcesFrame(sources)];
    }
    var record := AssistantRecord(fullResponse, if |sources| > 0 then Some(SourcesJson(sources)) else None);
    var titleScheduled := saved && messageCount == 4 && title == "New Chat";
    var task := if req.useMemory then Scheduled(PlannedWrites(req.message, fullResponse)) else NotScheduled;
    out := Outcome(messages, frames, Some(record), titleScheduled, task);
  }

  // ---------------------------------------------------------------- lemmas: documents

  lemma DocContextEmptyIff(rs: seq<DocResult>)
    ensures DocContext(rs) == "" <==> |rs| == 0
    ensures |rs| > 0 ==> DocHeader <= DocContext(rs)
  {
  }

  lemma FilenamesSnoc(ss: seq<Source>, s: Source)
    ensures Filenames(ss + [s]) == Filenames(ss) + [s.filename]
  {
  }

  /** The filenames listed are exactly the filenames of the hits. */
  lemma {:induction false} SourcesCover(rs: seq<DocResult>, chatId: string)
    ensures forall x :: x in Filenames(Sources(rs, chatId)) <==> exists j :: 0 <= j < |rs| && FileName(rs[j]) == x
  {
    if |rs| > 0 {
      var init := rs[..|rs| - 1];
      SourcesCover(init, chatId);
      var prev := Sources(init, chatId);
      var last := FileName(rs[|rs| - 1]);
      FilenamesSnoc(prev, SourceOf(rs[|rs| - 1], chatId));
      var names := Filenames(Sources(rs, chatId));
      assert names == if last in Filenames(prev) then Filenames(prev) else Filenames(prev) + [last];
      forall x
        ensures x in names <==> exists j :: 0 <= j < |rs| && FileName(rs[j]) == x
      {
        if x in names {
          if x in Filenames(prev) {
            var j :| 0 <= j < |init| && FileName(init[j]) == x;
            assert FileName(rs[j]) == x;
          } else {
            assert last == x;
          }
        }
        if exists j :: 0 <= j < |rs| && FileName(rs[j]) == x {
          var j :| 0 <= j < |rs| && FileName(rs[j]) == x;
          if j < |rs| - 1 {
            assert FileName(init[j]) == x;
          }
        }
      }
    }
  }

  /** No filename is listed twice. */
  lemma {:induction false} SourcesDistinct(rs: seq<DocResult>, chatId: string)
    ensures Distinct(Filenames(Sources(rs, chatId)))
  {
    if |rs| > 0 {
      var prev := Sources(rs[..|rs| - 1], chatId);
      SourcesDistinct(rs[..|rs| - 1], chatId);
      if FileName(rs[|rs| - 1]) !in Filenames(prev) {
        var fs := Filenames(Sources(rs, chatId));
        assert fs == Filenames(prev) + [FileName(rs[|rs| - 1])];
      }
    }
  }

  /**
   * The sources are the hits that are first with their filename, in the
   * order they were found, each with the chat id of that first hit.
   */
  lemma {:induction false} SourcesFirstSeen(rs: seq<DocResult>, chatId: string)
    ensures var ss, fi := Sources(rs, chatId), FirstIndices(rs);
      |ss| == |fi| && forall k :: 0 <= k < |ss| ==> ss[k] == SourceOf(rs[fi[k]], chatId)
  {
    if |rs| > 0 {
      var init := rs[..|rs| - 1];
      SourcesFirstSeen(init, chatId);
      SourcesCover(init, chatId);
      var last := rs[|rs| - 1];
      assert FileName(last) in Filenames(Sources(init, chatId)) <==> !FirstAt(rs, |rs| - 1) by {
        if !FirstAt(rs, |rs| - 1) {
          var j :| 0 <= j < |rs| - 1 && FileName(rs[j]) == FileName(last);
          assert FileName(init[j]) == FileName(last);
        }
      }
      var prev, pfi := Sources(init, chatId), FirstIndices(init);
      assert forall k :: 0 <= k < |pfi| ==> rs[pfi[k]] == init[pfi[k]];
      if FirstAt(rs, |rs| - 1) {
        assert Sources(rs, chatId) == prev + [SourceOf(last, chatId)];
        assert FirstIndices(rs) == pfi + [|rs| - 1];
      } else {
        assert Sources(rs, chatId) == prev;
        assert FirstIndices(rs) == pfi;
      }
    }
  }

  /** The first-occurrence positions increase, are all first occurrences, and miss none. */
  lemma {:induction false} FirstIndicesExact(rs: seq<DocResult>)
    ensures var fi := FirstIndices(rs);
      (forall a, b :: 0 <= a < b < |fi| ==> fi[a] < fi[b])
      && (forall k :: 0 <= k < |fi| ==> FirstAt(rs, fi[k]))
      && (forall i :: 0 <= i < |rs| && FirstAt(rs, i) ==> i in fi)
  {
    if |rs| > 0 {
      var init := rs[..|rs| - 1];
      FirstIndicesExact(init);
      forall i | 0 <= i < |init|
        ensures FirstAt(rs, i) == FirstAt(init, i)
      {
        assert forall j :: 0 <= j < i ==> rs[j] == init[j];
      }
    }
  }

  // ---------------------------------------------------------------- lemmas: memory

  /** Without the `{"results": …}` wrapper or a list there is no memory block at all. */
  lemma NoMemoryBlockForOtherShapes(raw: Value)
    requires !HasKey(raw, "results") && !raw.List?
    ensures MemoryContext(raw) == ""
  {
  }

  /** The items that are dicts carrying "memory", in their order. */
  function MemoryDicts(items: seq<Value>): (ms: seq<Value>)
    ensures |ms| <= |items|
    ensures forall k :: 0 <= k < |ms| ==> HasKey(ms[k], "memory")
  {
    if |items| == 0 then []
    else
      var last := items[|items| - 1];
      MemoryDicts(items[..|items| - 1]) + (if HasKey(last, "memory") then [last] else [])
  }

  /** One bullet `- <memory>` line per dict. */
  function Bullets(ms: seq<Value>): (lines: seq<string>)
    requires forall k :: 0 <= k < |ms| ==> HasKey(ms[k], "memory")
  {
    seq(|ms|, k requires 0 <= k < |ms| && HasKey(ms[k], "memory") => "- " + Render(ms[k].fields["memory"]) + "\n")
  }

  /** A dict carrying "memory" appended to the dicts appends its bullet. */
  lemma BulletsSnoc(ds: seq<Value>, m: Value)
    requires forall k :: 0 <= k < |ds| ==> HasKey(ds[k], "memory")
    requires HasKey(m, "memory")
    ensures Bullets(ds + [m]) == Bullets(ds) + [MemoryLine(m)]
  {
  }

  /** The last item adds itself to the dicts exactly when it carries "memory". */
  lemma MemoryDictsSnoc(items: seq<Value>)
    requires |items| > 0
    ensures var n := |items| - 1;
      MemoryDicts(items) == MemoryDicts(items[..n]) + (if HasKey(items[n], "memory") then [items[n]] else [])
  {
  }

  /**
   * The memory lines are the bullets of exactly the dicts carrying "memory",
   * concatenated in order; every other item contributes nothing.
   */
  lemma {:induction false} MemoryLinesAreBullets(items: seq<Value>)
    ensures MemoryLines(items) == Concat(Bullets(MemoryDicts(items)))
  {
    if |items| > 0 {
      var n := |items| - 1;
      var prefix := items[..n];
      MemoryLinesAreBullets(prefix);
      MemoryDictsSnoc(items);
      var ds := MemoryDicts(prefix);
      assert MemoryLines(items) == MemoryLines(prefix) + MemoryLine(items[n]);
      if HasKey(items[n], "memory") {
        assert MemoryDicts(items) == ds + [items[n]];
        BulletsSnoc(ds, items[n]);
        ConcatSnoc(Bullets(ds), MemoryLine(items[n]));
      } else {
        assert MemoryDicts(items) == ds + [] == ds;
        assert MemoryLines(items) == MemoryLines(prefix) + "" == MemoryLines(prefix);
      }
    }
  }

  /** For the fallback store's search result the block is present iff the user has entries. */
  lemma StoreSearchGivesBlock(entries: seq<Entry>, limit: int)
    requires limit > 0
    ensures MemoryContext(ResultsWrapper(SearchItems(entries, limit))) != "" <==> |entries| > 0
  {
    SearchCount(entries, limit);
  }

  // ---------------------------------------------------------------- lemmas: messages and relay

  /** The system prompt comes first and the user message last; the memory block precedes the document block. */
  lemma MessageOrder(systemPrompt: string, memoryContext: string, docContext: string, message: string)
    ensures var ms := AssembleMessages(systemPrompt, memoryContext, docContext, message);
      |ms| == 2 + (if memoryContext != "" then 1 else 0) + (if docContext != "" then 1 else 0)
      && ms[0] == ChatMessage("system", systemPrompt) && ms[|ms| - 1] == ChatMessage("user", message)
      && (memoryContext != "" ==> ms[1] == ChatMessage("system", memoryContext))
      && (docContext != "" ==> ms[|ms| - 2] == ChatMessage("system", docContext))
      && forall i :: 0 <= i < |ms| - 1 ==> ms[i].role == "system"
  {
  }

  /** The relay stops exactly after the first `done`, and forwards everything when there is none. */
  lemma {:induction false} RelayStopsAtFirstDone(chunks: seq<Event>)
    ensures var n := RelayCount(chunks);
      (forall i :: 0 <= i < n - 1 ==> !chunks[i].done)
      && ((exists i :: 0 <= i < |chunks| && chunks[i].done) <==> n > 0 && chunks[n - 1].done)
      && (!(n > 0 && chunks[n - 1].done) ==> n == |chunks|)
  {
    if |chunks| > 0 && !chunks[0].done {
      var rest := chunks[1..];
      RelayStopsAtFirstDone(rest);
      assert forall i :: 1 <= i < |chunks| ==> chunks[i] == rest[i - 1];
      if exists i :: 0 <= i < |chunks| && chunks[i].done {
        var i :| 0 <= i < |chunks| && chunks[i].done;
        assert rest[i - 1].done;
      }
    }
  }

  /** Relaying a client's whole stream forwards every event and accumulates the concatenated chunks. */
  lemma RelayWholeStream(chunks: seq<string>, ending: Ending)
    ensures var s := StreamOf(chunks, ending);
      RelayCount(s) == |s| && Concat(Tokens(s[..RelayCount(s)])) == Concat(chunks)
  {
    var s := StreamOf(chunks, ending);
    StreamWellFormed(chunks, ending);
    RelayStopsAtFirstDone(s);
    StreamText(chunks, ending);
    assert s[..|s|] == s;
  }

  lemma EventJsonPrintable(e: Event)
    ensures Printable(EventJson(e))
  {
    QuotePrintable(e.token);
    MemberPrintable("token", Quote(e.token));
    MemberPrintable("done", BoolText(e.done));
    if e.error.Some? {
      QuotePrintable(e.error.value);
      MemberPrintable("error", Quote(e.error.value));
    }
    var ms := [Member("token", Quote(e.token)), Member("done", BoolText(e.done))]
      + (if e.error.Some? then [Member("error", Quote(e.error.value))] else []);
    ObjectPrintable(ms);
  }

  /** A frame holds a single event: its only line break is the blank line that ends it. */
  lemma FrameIsOneEvent(json: string)
    requires Printable(json)
    ensures var f := Frame(json);
      EndsWith(f, "\n\n") && "data: " <= f && forall i :: 0 <= i < |f| - 2 ==> f[i] != '\n'
  {
    var f := Frame(json);
    assert forall i :: 6 <= i < |f| - 2 ==> f[i] == json[i - 6];
  }

  lemma EventFrameIsOneEvent(e: Event)
    ensures var f := Frame(EventJson(e));
      EndsWith(f, "\n\n") && forall i :: 0 <= i < |f| - 2 ==> f[i] != '\n'
  {
    EventJsonPrintable(e);
    FrameIsOneEvent(EventJson(e));
  }

  lemma ErrorFrameIsOneEvent(message: string)
    ensures var f := ErrorFrame(message);
      EndsWith(f, "\n\n") && forall i :: 0 <= i < |f| - 2 ==> f[i] != '\n'
  {
    QuotePrintable(message);
    MemberPrintable("error", Quote(message));
    MemberPrintable("done", "true");
    ObjectPrintable([Member("error", Quote(message)), Member("done", "true")]);
    FrameIsOneEvent(ObjectText([Member("error", Quote(message)), Member("done", "true")]));
  }

  // ---------------------------------------------------------------- lemmas: after the stream

  /** Every planned write strips to at least three characters; the user text is written iff it does. */
  lemma PlannedWritesGuarded(message: string, fullResponse: string)
    ensures var ws := PlannedWrites(message, fullResponse);
      (forall i :: 0 <= i < |ws| ==> !TooShortToStore(ws[i].content))
      && (Message("user", message) in ws <==> !TooShortToStore(message))
      && (Message("assistant", fullResponse) in ws <==> !TooShortToStore(fullResponse))
      && |ws| <= 2 && (|ws| == 2 ==> ws[0].role == "user")
  {
  }

  /** A blank or whitespace-only response is never written to memory. */
  lemma BlankResponseNotWritten(message: string, fullResponse: string)
    requires AllSpace(fullResponse)
    ensures forall i :: 0 <= i < |PlannedWrites(message, fullResponse)| ==>
      PlannedWrites(message, fullResponse)[i].role == "user"
  {
    AllSpaceStrip(fullResponse);
  }
  // ---------------------------------------------------------------- the memory search, awaited or not

  /** What calling an `async def` without `await` gives: a coroutine object, truthy and neither dict nor list. */
  const SearchCoroutine := Object("<coroutine object Mem0MemoryManager.search_memory>")

  /** The memory lookup as written: the coroutine itself reaches the normaliser. */
  method UnawaitedMemoryContext(manager: MemoryManager, userId: string, query: string) returns (context: string)
    ensures context == ""
  {
    var relevant := SearchCoroutine;
    context := BuildMemoryContext(relevant);
  }

  /** The memory lookup with the search awaited, over the fallback store. */
  method AwaitedMemoryContext(manager: MemoryManager, userId: string, query: string) returns (context: string)
    requires manager.Valid()
    ensures context == MemoryContext(ResultsWrapper(SearchItems(EntriesOf(manager.memory.store, userId), MemoryLimit)))
    ensures context != "" <==> |EntriesOf(manager.memory.store, userId)| > 0
  {
    var relevant := manager.SearchMemory(userId, query, MemoryLimit);
    context := BuildMemoryContext(relevant);
    StoreSearchGivesBlock(EntriesOf(manager.memory.store, userId), MemoryLimit);
  }

  /** A user with stored memories still gets no memory block when the search is not awaited. */
  lemma UnawaitedSearchDropsMemories(entries: seq<Entry>)
    requires |entries| > 0
    ensures MemoryContext(SearchCoroutine) == ""
    ensures MemoryContext(ResultsWrapper(SearchItems(entries, MemoryLimit))) != ""
  {
    StoreSearchGivesBlock(entries, MemoryLimit);
  }

  // ---------------------------------------------------------------- the background memory writes

  /** The chat id tag the background task puts on each write. */
  function ChatTag(chatId: string): Metadata {
    map["chat_id" := chatId]
  }

  /**
   * The store and counter after awaiting `add_message` for each write in
   * turn: an entry is appended exactly for the texts the gate accepts.
   */
  function StoreAll(t: Table, counter: nat, userId: string, writes: seq<Message>, md: Metadata): (Table, nat) {
    if |writes| == 0 then (t, counter)
    else
      var (t', c') := StoreAll(t, counter, userId, writes[..|writes| - 1], md);
      var w := writes[|writes| - 1];
      if MemoryGate.ShouldPersist(w.content)
      then (Append(t', userId, Entry(MemId(c'), [Message(w.role, w.content)], UserMessageMetadata(Some(md)), None)), c' + 1)
      else (t', c')
  }

  /** How many of the writes the gate accepts. */
  function Accepted(writes: seq<Message>): nat {
    if |writes| == 0 then 0
    else Accepted(writes[..|writes| - 1]) + (if MemoryGate.ShouldPersist(writes[|writes| - 1].content) then 1 else 0)
  }

  /** The background task with each write awaited. */
  method StoreMemories(manager: MemoryManager, userId: string, chatId: string, writes: seq<Message>)
    requires manager.Valid()
    modifies manager.memory
    ensures manager.Valid()
    ensures (manager.memory.store, manager.memory.counter)
      == StoreAll(old(manager.memory.store), old(manager.memory.counter), userId, writes, ChatTag(chatId))
  {
    var i := 0;
    while i < |writes|
      invariant 0 <= i <= |writes|
      invariant manager.Valid()
      invariant (manager.memory.store, manager.memory.counter)
        == StoreAll(old(manager.memory.store), old(manager.memory.counter), userId, writes[..i], ChatTag(chatId))
    {
      assert writes[..i + 1][..i] == writes[..i];
      var _ := manager.AddMessage(userId, writes[i].content, writes[i].role, Some(ChatTag(chatId)));
      i := i + 1;
    }
    assert writes[..i] == writes;
  }

  /**
   * The background task as written: `run_in_threadpool` calls the async
   * `add_message` in a worker thread, which only creates a coroutine, and
   * that coroutine is never awaited. The store is not touched.
   */
  method StoreMemoriesAsWritten(manager: MemoryManager, userId: string, chatId: string, writes: seq<Message>)
    returns (pending: seq<Value>)
    ensures |pending| == |writes|
    ensures forall i :: 0 <= i < |pending| ==> pending[i] == Object("<coroutine object Mem0MemoryManager.add_message>")
  {
    pending := [];
    var i := 0;
    while i < |writes|
      invariant 0 <= i <= |writes| && |pending| == i
      invariant forall k :: 0 <= k < i ==> pending[k] == Object("<coroutine object Mem0MemoryManager.add_message>")
    {
      pending := pending + [Object("<coroutine object Mem0MemoryManager.add_message>")];
      i := i + 1;
    }
  }

  /** Awaited writes append one entry per accepted text to that user's list and touch no other user. */
  lemma {:induction false} StoreAllEffect(t: Table, counter: nat, userId: string, writes: seq<Message>, md: Metadata)
    ensures var (t', c') := StoreAll(t, counter, userId, writes, md);
      c' == counter + Accepted(writes)
      && |EntriesOf(t', userId)| == |EntriesOf(t, userId)| + Accepted(writes)
      && EntriesOf(t, userId) <= EntriesOf(t', userId)
      && forall v :: v != userId ==> EntriesOf(t', v) == EntriesOf(t, v)
  {
    if |writes| > 0 {
      StoreAllEffect(t, counter, userId, writes[..|writes| - 1], md);
    }
  }

  /** Whenever the gate accepts one planned text, awaiting would have stored it but the threadpool call stores nothing. */
  lemma ThreadpoolLosesWrites(t: Table, counter: nat, userId: string, writes: seq<Message>, md: Metadata)
    requires Accepted(writes) > 0
    ensures StoreAll(t, counter, userId, writes, md).0 != t
  {
    StoreAllEffect(t, counter, userId, writes, md);
  }
}
