/**
 * The in-memory fallback store used when the memory library is missing
 * (`MemoryStub`), and the manager methods that guard writes to it with the
 * semantic gate. The store keeps, per user, the list of entries in insertion
 * order, and one counter shared by every user from which entry ids are made.
 */
module MemoryStore {
  import opened Wrappers
  import opened PyStr
  import opened PyValue
  import MemoryGate

  datatype Message = Message(role: string, content: string)

  type Metadata = map<string, string>

  /**
   * One stored entry. `memory` is the key that `update` adds to the entry's
   * dict; the stub's own readers never look at it.
   */
  datatype Entry = Entry(id: string, messages: seq<Message>, metadata: Metadata, memory: Option<string>)

  /** The stub's `_store`: user id to that user's entries, oldest first. */
  type Table = map<string, seq<Entry>>

  /** `f"mem_{k}"`. */
  function MemId(k: nat): string {
    "mem_" + Decimal(k)
  }

  /** `self._store.get(user_id, [])`. */
  function EntriesOf(t: Table, user: string): seq<Entry> {
    if user in t then t[user] else []
  }

  /** `self._store.setdefault(user_id, []).append(entry)`. */
  function Append(t: Table, user: string, e: Entry): (r: Table)
    ensures r.Keys == t.Keys + {user}
    ensures r[user] == EntriesOf(t, user) + [e]
    ensures forall v :: v in t && v != user ==> r[v] == t[v]
  {
    t[user := EntriesOf(t, user) + [e]]
  }

  function Ids(es: seq<Entry>): (r: seq<string>)
    ensures |r| == |es|
  {
    seq(|es|, i requires 0 <= i < |es| => es[i].id)
  }

  predicate Distinct(xs: seq<string>) {
    forall i, j :: 0 <= i < j < |xs| ==> xs[i] != xs[j]
  }

  /** `" | ".join(m.get("content", "") for m in messages)`. */
  function MemoryText(e: Entry): string {
    Join(" | ", seq(|e.messages|, i requires 0 <= i < |e.messages| => e.messages[i].content))
  }

  /** One item of a search result: `{"memory": …, "metadata": …}`. */
  function SearchSummary(e: Entry): Value {
    Dict(map["memory" := Str(MemoryText(e)), "metadata" := StrDict(e.metadata)])
  }

  /** One item of a listing: `{"id": …, "memory": …, "metadata": …}`. */
  function Listing(e: Entry): Value {
    Dict(map["id" := Str(e.id), "memory" := Str(MemoryText(e)), "metadata" := StrDict(e.metadata)])
  }

  /** The items of `search`: the window `entries[-limit:]`, newest first. */
  function SearchItems(entries: seq<Entry>, limit: int): seq<Value> {
    var w := SliceFrom(entries, -limit);
    seq(|w|, k requires 0 <= k < |w| => SearchSummary(w[|w| - 1 - k]))
  }

  /** The items of `get_all`: every entry, oldest first. */
  function ListingItems(entries: seq<Entry>): seq<Value> {
    seq(|entries|, k requires 0 <= k < |entries| => Listing(entries[k]))
  }

  /** Some entry of some user carries this id. */
  predicate HasId(t: Table, id: string) {
    exists u :: u in t && id in Ids(t[u])
  }

  /** `[i for i in items if i.get("id") != memory_id]`. */
  function WithoutId(es: seq<Entry>, id: string): seq<Entry> {
    if |es| == 0 then []
    else (if es[0].id != id then [es[0]] else []) + WithoutId(es[1..], id)
  }

  /** Every user's list with the entries carrying `id` removed. */
  function RemoveId(t: Table, id: string): Table {
    map u | u in t :: WithoutId(t[u], id)
  }

  /** The entries carrying `id` after `item.update({"memory": text})`. */
  function WithMemory(es: seq<Entry>, id: string, text: string): seq<Entry> {
    seq(|es|, i requires 0 <= i < |es| => if es[i].id == id then es[i].(memory := Some(text)) else es[i])
  }

  function SetMemory(t: Table, id: string, text: string): Table {
    map u | u in t :: WithMemory(t[u], id, text)
  }

  /**
   * The store invariant: no stored id is `mem_k` for a `k` the counter has
   * not yet handed out, ids are distinct within each user's list, and no id
   * occurs under two users.
   */
  ghost predicate WellNumbered(t: Table, counter: nat) {
    (forall u, k :: u in t && counter <= k ==> MemId(k) !in Ids(t[u]))
    && (forall u :: u in t ==> Distinct(Ids(t[u])))
    && (forall u, v, x :: u in t && v in t && u != v && x in Ids(t[u]) ==> x !in Ids(t[v]))
  }

  /** `not text or not text.strip() or len(text.strip()) < 3`. */
  predicate TooShortToStore(text: string) {
    text == "" || Strip(text) == "" || |Strip(text)| < 3
  }

  /** `metadata or {}` with the tag `add_message` puts on it. */
  function UserMessageMetadata(metadata: Option<Metadata>): (m: Metadata)
    ensures m.Keys == metadata.GetOr(map[]).Keys + {"content_type"}
    ensures m["content_type"] == "user_message"
  {
    metadata.GetOr(map[])["content_type" := "user_message"]
  }

  /** `metadata or {}` with the two tags `add_conversation_pair` puts on it. */
  function ConversationMetadata(metadata: Option<Metadata>): (m: Metadata)
    ensures m.Keys == metadata.GetOr(map[]).Keys + {"content_type", "interaction_type"}
    ensures m["content_type"] == "conversation" && m["interaction_type"] == "chat_exchange"
  {
    metadata.GetOr(map[])["content_type" := "conversation"]["interaction_type" := "chat_exchange"]
  }

  // ---------------------------------------------------------------- lemmas

  /** Distinct counters give distinct ids. */
  lemma MemIdInjective(a: nat, b: nat)
    requires MemId(a) == MemId(b)
    ensures a == b
  {
    assert Decimal(a) == MemId(a)[4..] == MemId(b)[4..] == Decimal(b);
    DecimalInjective(a, b);
  }

  /** An empty store is well numbered from zero. */
  lemma EmptyWellNumbered()
    ensures WellNumbered(map[], 0)
  {
  }

  /**
   * Adding an entry with the id `mem_{counter}` and bumping the counter keeps
   * the store well numbered; the new id was not in use anywhere.
   */
  lemma AppendFresh(t: Table, counter: nat, user: string, e: Entry)
    requires WellNumbered(t, counter) && e.id == MemId(counter)
    ensures !HasId(t, e.id)
    ensures WellNumbered(Append(t, user, e), counter + 1)
  {
    var r := Append(t, user, e);
    assert Ids(r[user]) == Ids(EntriesOf(t, user)) + [e.id];
    forall u, k | u in r && counter + 1 <= k
      ensures MemId(k) !in Ids(r[u])
    {
      if u == user && MemId(k) == e.id {
        MemIdInjective(k, counter);
      }
    }
  }

  lemma DistinctTail(xs: seq<string>)
    requires Distinct(xs) && |xs| > 0
    ensures Distinct(xs[1..]) && xs[0] !in xs[1..]
  {
    forall i, j | 0 <= i < j < |xs| - 1
      ensures xs[1..][i] != xs[1..][j]
    {
      assert xs[1..][i] == xs[i + 1] && xs[1..][j] == xs[j + 1];
    }
    forall i | 0 <= i < |xs| - 1
      ensures xs[1..][i] != xs[0]
    {
      assert xs[1..][i] == xs[i + 1];
    }
  }

  lemma DistinctCons(x: string, xs: seq<string>)
    requires Distinct(xs) && x !in xs
    ensures Distinct([x] + xs)
  {
    forall i, j | 0 <= i < j < |xs| + 1
      ensures ([x] + xs)[i] != ([x] + xs)[j]
    {
      assert ([x] + xs)[j] == xs[j - 1];
      if i > 0 {
        assert ([x] + xs)[i] == xs[i - 1];
      }
    }
  }

  lemma IdsAppend(a: seq<Entry>, b: seq<Entry>)
    ensures Ids(a + b) == Ids(a) + Ids(b)
  {
  }

  /** One step of the comprehension of `delete`: the first entry is kept iff its id differs. */
  lemma WithoutIdCons(es: seq<Entry>, id: string)
    requires |es| > 0
    ensures Ids(es) == [es[0].id] + Ids(es[1..])
    ensures Ids(WithoutId(es, id)) == (if es[0].id != id then [es[0].id] else []) + Ids(WithoutId(es[1..], id))
  {
    assert [es[0]] + es[1..] == es;
    IdsAppend([es[0]], es[1..]);
    IdsAppend(if es[0].id != id then [es[0]] else [], WithoutId(es[1..], id));
  }

  lemma {:induction false} WithoutIdMembers(es: seq<Entry>, id: string)
    ensures forall x :: x in Ids(WithoutId(es, id)) <==> x in Ids(es) && x != id
  {
    if |es| > 0 {
      WithoutIdMembers(es[1..], id);
      WithoutIdCons(es, id);
    }
  }

  lemma {:induction false} WithoutIdDistinct(es: seq<Entry>, id: string)
    requires Distinct(Ids(es))
    ensures Distinct(Ids(WithoutId(es, id)))
  {
    if |es| > 0 {
      WithoutIdCons(es, id);
      var ids := Ids(es);
      assert ids[1..] == Ids(es[1..]);
      DistinctTail(ids);
      WithoutIdDistinct(es[1..], id);
      if es[0].id != id {
        WithoutIdMembers(es[1..], id);
        DistinctCons(es[0].id, Ids(WithoutId(es[1..], id)));
      }
    }
  }

  lemma {:induction false} WithoutIdLength(es: seq<Entry>, id: string)
    ensures |WithoutId(es, id)| <= |es|
    ensures |WithoutId(es, id)| < |es| <==> id in Ids(es)
    ensures id !in Ids(es) ==> WithoutId(es, id) == es
  {
    if |es| > 0 {
      WithoutIdLength(es[1..], id);
      WithoutIdCons(es, id);
    }
  }

  /** What the list comprehension of `delete` keeps: every entry whose id differs, in order. */
  lemma WithoutIdIds(es: seq<Entry>, id: string)
    ensures forall x :: x in Ids(WithoutId(es, id)) <==> x in Ids(es) && x != id
    ensures Distinct(Ids(es)) ==> Distinct(Ids(WithoutId(es, id)))
    ensures |WithoutId(es, id)| < |es| <==> id in Ids(es)
    ensures id !in Ids(es) ==> WithoutId(es, id) == es
  {
    WithoutIdMembers(es, id);
    if Distinct(Ids(es)) {
      WithoutIdDistinct(es, id);
    }
    WithoutIdLength(es, id);
  }

  /** Deleting by id keeps the store well numbered; afterwards the id is gone and every other id stays. */
  lemma RemoveIdWellNumbered(t: Table, counter: nat, id: string)
    requires WellNumbered(t, counter)
    ensures WellNumbered(RemoveId(t, id), counter)
    ensures !HasId(RemoveId(t, id), id)
    ensures forall x :: x != id ==> (HasId(RemoveId(t, id), x) <==> HasId(t, x))
  {
    var r := RemoveId(t, id);
    forall u | u in t
      ensures forall x :: x in Ids(r[u]) <==> x in Ids(t[u]) && x != id
      ensures Distinct(Ids(r[u]))
    {
      WithoutIdIds(t[u], id);
    }
  }

  /**
   * Ids are unique, so at most one user owns a given id: removing it from
   * every list, or updating it in every list, touches that user's list only.
   */
  lemma OwnerUnique(t: Table, counter: nat, id: string, owner: string, text: string)
    requires WellNumbered(t, counter) && owner in t && id in Ids(t[owner])
    ensures forall u :: u in t && u != owner ==> id !in Ids(t[u])
    ensures RemoveId(t, id) == t[owner := WithoutId(t[owner], id)]
    ensures SetMemory(t, id, text) == t[owner := WithMemory(t[owner], id, text)]
  {
    assert forall u :: u in t && u != owner ==> id !in Ids(t[u]);
    RemoveIdElsewhere(t, id, owner);
    SetMemoryElsewhere(t, id, text, owner);
  }

  /** When only `owner` holds the id, deleting it touches only that user's list. */
  lemma RemoveIdElsewhere(t: Table, id: string, owner: string)
    requires owner in t && forall u :: u in t && u != owner ==> id !in Ids(t[u])
    ensures RemoveId(t, id) == t[owner := WithoutId(t[owner], id)]
  {
    forall u | u in t && u != owner
      ensures WithoutId(t[u], id) == t[u]
    {
      WithoutIdIds(t[u], id);
    }
  }

  /** When only `owner` holds the id, updating it touches only that user's list. */
  lemma SetMemoryElsewhere(t: Table, id: string, text: string, owner: string)
    requires owner in t && forall u :: u in t && u != owner ==> id !in Ids(t[u])
    ensures SetMemory(t, id, text) == t[owner := WithMemory(t[owner], id, text)]
  {
    forall u | u in t && u != owner
      ensures WithMemory(t[u], id, text) == t[u]
    {
      WithMemoryAbsent(t[u], id, text);
    }
  }

  /** Within a list of distinct ids, updating by id changes exactly the one entry found. */
  lemma WithMemoryAt(es: seq<Entry>, id: string, text: string, i: nat)
    requires Distinct(Ids(es)) && i < |es| && es[i].id == id
    ensures WithMemory(es, id, text) == es[i := es[i].(memory := Some(text))]
  {
    forall j | 0 <= j < |es| && j != i
      ensures es[j].id != id
    {
      assert Ids(es)[i] == id;
      if j < i {
        assert Ids(es)[j] != Ids(es)[i];
      } else {
        assert Ids(es)[i] != Ids(es)[j];
      }
    }
  }

  /** An update changes nothing in a list that lacks the id. */
  lemma WithMemoryAbsent(es: seq<Entry>, id: string, text: string)
    requires id !in Ids(es)
    ensures WithMemory(es, id, text) == es
  {
    forall i | 0 <= i < |es|
      ensures es[i].id != id
    {
      assert Ids(es)[i] == es[i].id;
    }
  }

  /** An update names no entry when the id is absent. */
  lemma SetMemoryAbsent(t: Table, id: string, text: string)
    requires !HasId(t, id)
    ensures SetMemory(t, id, text) == t
  {
    forall u | u in t
      ensures WithMemory(t[u], id, text) == t[u]
    {
      WithMemoryAbsent(t[u], id, text);
    }
  }

  /** Updating the `memory` key never changes an id, so the store stays well numbered. */
  lemma SetMemoryWellNumbered(t: Table, counter: nat, id: string, text: string)
    requires WellNumbered(t, counter)
    ensures WellNumbered(SetMemory(t, id, text), counter)
    ensures forall x :: HasId(SetMemory(t, id, text), x) <==> HasId(t, x)
  {
    var r := SetMemory(t, id, text);
    forall u | u in t
      ensures Ids(r[u]) == Ids(t[u])
    {
      assert Ids(WithMemory(t[u], id, text)) == Ids(t[u]);
    }
    forall x
      ensures HasId(r, x) <==> HasId(t, x)
    {
      if HasId(t, x) {
        var u :| u in t && x in Ids(t[u]);
        assert x in Ids(r[u]);
      }
    }
  }

  /**
   * `search` returns `min(limit, n)` items for a positive limit, all `n` for
   * a zero limit (`[-0:]` is the whole list), and drops the first `-limit`
   * entries for a negative one.
   */
  lemma SearchCount(entries: seq<Entry>, limit: int)
    ensures |SearchItems(entries, limit)| ==
      if limit > 0 then Min(limit, |entries|)
      else if limit == 0 then |entries|
      else |entries| - Min(-limit, |entries|)
  {
  }

  /** Item `k` of a search result summarises the `k`-th newest entry. */
  lemma SearchNewestFirst(entries: seq<Entry>, limit: int, k: nat)
    requires k < |SearchItems(entries, limit)|
    ensures SearchItems(entries, limit)[k] == SearchSummary(entries[|entries| - 1 - k])
  {
    var w := SliceFrom(entries, -limit);
    assert w[|w| - 1 - k] == entries[|entries| - |w| + (|w| - 1 - k)];
  }

  /** A search result depends only on the summaries of the entries. */
  lemma SearchItemsBySummary(es: seq<Entry>, es': seq<Entry>, limit: int)
    requires |es| == |es'| && forall i :: 0 <= i < |es| ==> SearchSummary(es[i]) == SearchSummary(es'[i])
    ensures SearchItems(es, limit) == SearchItems(es', limit)
  {
    SliceFromSameLength(es, es', -limit);
    var a, b := SearchItems(es, limit), SearchItems(es', limit);
    forall k | 0 <= k < |a|
      ensures a[k] == b[k]
    {
      SearchNewestFirst(es, limit, k);
      SearchNewestFirst(es', limit, k);
    }
  }

  /**
   * `update` writes a key the stub's readers never look at: no search and no
   * listing can tell an updated store from the one before.
   */
  lemma UpdateInvisible(t: Table, id: string, text: string, user: string, limit: int)
    ensures SearchItems(EntriesOf(SetMemory(t, id, text), user), limit) == SearchItems(EntriesOf(t, user), limit)
    ensures ListingItems(EntriesOf(SetMemory(t, id, text), user)) == ListingItems(EntriesOf(t, user))
  {
    var es := EntriesOf(t, user);
    var es' := EntriesOf(SetMemory(t, id, text), user);
    assert |es'| == |es|;
    forall i | 0 <= i < |es|
      ensures SearchSummary(es'[i]) == SearchSummary(es[i]) && Listing(es'[i]) == Listing(es[i])
    {
      assert es'[i].id == es[i].id && es'[i].messages == es[i].messages && es'[i].metadata == es[i].metadata;
    }
    SearchItemsBySummary(es', es, limit);
  }

  // ---------------------------------------------------------------- the stub

  /** `MemoryStub`: the fallback store, updated in place. */
  class MemoryStub {
    var store: Table
    var counter: nat

    ghost predicate Valid()
      reads this
    {
      WellNumbered(store, counter)
    }

    constructor ()
      ensures Valid() && store == map[] && counter == 0
    {
      store := map[];
      counter := 0;
    }

    /** `add`: appends one entry to this user's list under the next id and returns the id. */
    method Add(messages: seq<Message>, userId: string, metadata: Option<Metadata>) returns (id: string)
      requires Valid()
      modifies this
      ensures Valid()
      ensures id == MemId(old(counter)) && counter == old(counter) + 1
      ensures !HasId(old(store), id)
      ensures store == Append(old(store), userId, Entry(id, messages, metadata.GetOr(map[]), None))
    {
      id := MemId(counter);
      var entry := Entry(id, messages, metadata.GetOr(map[]), None);
      AppendFresh(store, counter, userId, entry);
      store := Append(store, userId, entry);
      counter := counter + 1;
    }

    /** `search`: the query is ignored; the last `limit` entries of the user, newest first. */
    method Search(query: string, userId: string, limit: int) returns (r: Value)
      ensures r == ResultsWrapper(SearchItems(EntriesOf(store, userId), limit))
    {
      var all := EntriesOf(store, userId);
      var window := SliceFrom(all, -limit);
      var results: seq<Value> := [];
      var i := |window|;
      while i > 0
        invariant 0 <= i <= |window|
        invariant |results| == |window| - i
        invariant forall k :: 0 <= k < |results| ==> results[k] == SearchSummary(window[|window| - 1 - k])
      {
        i := i - 1;
        results := results + [SearchSummary(window[i])];
      }
      ghost var expected := SearchItems(all, limit);
      assert |expected| == |window|;
      assert forall k :: 0 <= k < |window| ==> expected[k] == SearchSummary(window[|window| - 1 - k]);
      assert results == expected;
      r := ResultsWrapper(results);
    }

    /** `get_all`: every entry of the user with its id, oldest first. */
    method GetAll(userId: string) returns (r: Value)
      ensures r == ResultsWrapper(ListingItems(EntriesOf(store, userId)))
    {
      var items := EntriesOf(store, userId);
      var results: seq<Value> := [];
      var i := 0;
      while i < |items|
        invariant 0 <= i <= |items|
        invariant |results| == i
        invariant forall k :: 0 <= k < i ==> results[k] == Listing(items[k])
      {
        results := results + [Listing(items[i])];
        i := i + 1;
      }
      assert results == ListingItems(items);
      r := ResultsWrapper(results);
    }

    /** `update` with the data `{"memory": text}`: true iff some entry carries the id. */
    method Update(memoryId: string, text: string) returns (ok: bool)
      requires Valid()
      modifies this
      ensures Valid() && counter == old(counter)
      ensures ok == HasId(old(store), memoryId)
      ensures store == SetMemory(old(store), memoryId, text)
    {
      SetMemoryWellNumbered(store, counter, memoryId, text);
      var pending := store.Keys;
      while pending != {}
        invariant pending <= store.Keys && store == old(store) && counter == old(counter)
        invariant forall u :: u in store && u !in pending ==> memoryId !in Ids(store[u])
        decreases |pending|
      {
        var u :| u in pending;
        var items := store[u];
        var i := 0;
        while i < |items|
          invariant 0 <= i <= |items|
          invariant forall j :: 0 <= j < i ==> items[j].id != memoryId
        {
          if items[i].id == memoryId {
            assert Ids(items)[i] == memoryId;
            OwnerUnique(store, counter, memoryId, u, text);
            WithMemoryAt(items, memoryId, text, i);
            store := store[u := items[i := items[i].(memory := Some(text))]];
            return true;
          }
          i := i + 1;
        }
        assert memoryId !in Ids(items) by {
          forall j | 0 <= j < |items|
            ensures Ids(items)[j] != memoryId
          {
          }
        }
        pending := pending - {u};
      }
      SetMemoryAbsent(store, memoryId, text);
      return false;
    }

    /** `delete`: true iff some entry carries the id; that entry is removed. */
    method Delete(memoryId: string) returns (ok: bool)
      requires Valid()
      modifies this
      ensures Valid() && counter == old(counter)
      ensures ok == HasId(old(store), memoryId)
      ensures store == RemoveId(old(store), memoryId)
    {
      RemoveIdWellNumbered(store, counter, memoryId);
      var pending := store.Keys;
      while pending != {}
        invariant pending <= store.Keys && store == old(store) && counter == old(counter)
        invariant forall u :: u in store && u !in pending ==> memoryId !in Ids(store[u])
        decreases |pending|
      {
        var u :| u in pending;
        var items := store[u];
        var kept := WithoutId(items, memoryId);
        WithoutIdIds(items, memoryId);
        if |kept| < |items| {
          OwnerUnique(store, counter, memoryId, u, "");
          store := store[u := kept];
          return true;
        }
        pending := pending - {u};
      }
      forall u | u in store
        ensures WithoutId(store[u], memoryId) == store[u]
      {
        WithoutIdIds(store[u], memoryId);
      }
      return false;
    }

    /** `delete_all`: empties this user's list and returns how many entries it held. */
    method DeleteAll(userId: string) returns (count: nat)
      requires Valid()
      modifies this
      ensures Valid() && counter == old(counter)
      ensures count == |EntriesOf(old(store), userId)|
      ensures store == old(store)[userId := []]
    {
      count := |EntriesOf(store, userId)|;
      store := store[userId := []];
    }

    /** `add_conversation_pair` of the stub: both texts must strip to at least three characters. */
    method AddConversationPair(userId: string, userMessage: string, assistantMessage: string, metadata: Option<Metadata>)
      returns (r: Option<string>)
      requires Valid()
      modifies this
      ensures Valid()
      ensures (TooShortToStore(userMessage) || TooShortToStore(assistantMessage)) ==>
        r == None && store == old(store) && counter == old(counter)
      ensures !(TooShortToStore(userMessage) || TooShortToStore(assistantMessage)) ==>
        r == Some(MemId(old(counter))) && counter == old(counter) + 1
        && store == Append(old(store), userId,
             Entry(r.value, [Message("user", userMessage), Message("assistant", assistantMessage)], metadata.GetOr(map[]), None))
    {
      if TooShortToStore(userMessage) || TooShortToStore(assistantMessage) {
        return None;
      }
      var id := Add([Message("user", userMessage), Message("assistant", assistantMessage)], userId, metadata);
      return Some(id);
    }
  }

  // ---------------------------------------------------------------- the manager

  /**
   * `Mem0MemoryManager` over the fallback store: every write first goes
   * through the semantic gate.
   */
  class MemoryManager {
    var memory: MemoryStub

    ghost predicate Valid()
      reads this, memory
    {
      memory.Valid()
    }

    constructor ()
      ensures Valid() && fresh(memory) && memory.store == map[] && memory.counter == 0
    {
      memory := new MemoryStub();
    }

    /**
     * `add_message`: nothing is stored and the result is None unless the gate
     * accepts the text; otherwise one entry holding the single message is
     * appended, tagged `content_type = "user_message"`, and its id returned.
     */
    method AddMessage(userId: string, message: string, role: string, metadata: Option<Metadata>)
      returns (r: Option<string>)
      requires Valid()
      modifies memory
      ensures Valid()
      ensures !MemoryGate.ShouldPersist(message) ==>
        r == None && memory.store == old(memory.store) && memory.counter == old(memory.counter)
      ensures MemoryGate.ShouldPersist(message) ==>
        r == Some(MemId(old(memory.counter))) && memory.counter == old(memory.counter) + 1
        && memory.store == Append(old(memory.store), userId,
             Entry(r.value, [Message(role, message)], UserMessageMetadata(metadata), None))
    {
      if !MemoryGate.ShouldPersist(message) {
        return None;
      }
      var id := memory.Add([Message(role, message)], userId, Some(UserMessageMetadata(metadata)));
      return Some(id);
    }

    /**
     * `add_conversation_pair`: the user text must pass the gate and the
     * assistant text must strip to at least three characters; otherwise
     * nothing is stored and the result is None.
     */
    method AddConversationPair(userId: string, userMessage: string, assistantMessage: string, metadata: Option<Metadata>)
      returns (r: Option<string>)
      requires Valid()
      modifies memory
      ensures Valid()
      ensures (!MemoryGate.ShouldPersist(userMessage) || TooShortToStore(assistantMessage)) ==>
        r == None && memory.store == old(memory.store) && memory.counter == old(memory.counter)
      ensures (MemoryGate.ShouldPersist(userMessage) && !TooShortToStore(assistantMessage)) ==>
        r == Some(MemId(old(memory.counter))) && memory.counter == old(memory.counter) + 1
        && memory.store == Append(old(memory.store), userId,
             Entry(r.value, [Message("user", userMessage), Message("assistant", assistantMessage)],
                   ConversationMetadata(metadata), None))
    {
      if !MemoryGate.ShouldPersist(userMessage) {
        return None;
      }
      if TooShortToStore(assistantMessage) {
        return None;
      }
      var conversation := [Message("user", userMessage), Message("assistant", assistantMessage)];
      var id := memory.Add(conversation, userId, Some(ConversationMetadata(metadata)));
      return Some(id);
    }

    /** `search_memory`: the store's own search result, passed through. */
    method SearchMemory(userId: string, query: string, limit: int) returns (r: Value)
      requires Valid()
      ensures r == ResultsWrapper(SearchItems(EntriesOf(memory.store, userId), limit))
    {
      r := memory.Search(query, userId, limit);
    }

    /** `get_all`: the store's listing, passed through. */
    method GetAll(userId: string) returns (r: Value)
      requires Valid()
      ensures r == ResultsWrapper(ListingItems(EntriesOf(memory.store, userId)))
    {
      r := memory.GetAll(userId);
    }

    /** `update_memory` with the data `{"memory": text}`. */
    method UpdateMemory(memoryId: string, text: string) returns (ok: bool)
      requires Valid()
      modifies memory
      ensures Valid() && memory.counter == old(memory.counter)
      ensures ok == HasId(old(memory.store), memoryId)
      ensures memory.store == SetMemory(old(memory.store), memoryId, text)
    {
      ok := memory.Update(memoryId, text);
    }

    /** `delete_memory`. */
    method DeleteMemory(memoryId: string) returns (ok: bool)
      requires Valid()
      modifies memory
      ensures Valid() && memory.counter == old(memory.counter)
      ensures ok == HasId(old(memory.store), memoryId)
      ensures memory.store == RemoveId(old(memory.store), memoryId)
    {
      ok := memory.Delete(memoryId);
    }

    /** `delete_all`: the store has a native `delete_all`, so it is used directly. */
    method DeleteAll(userId: string) returns (count: nat)
      requires Valid()
      modifies memory
      ensures Valid() && memory.counter == old(memory.counter)
      ensures count == |EntriesOf(old(memory.store), userId)|
      ensures memory.store == old(memory.store)[userId := []]
    {
      count := memory.DeleteAll(userId);
    }
  }
}
