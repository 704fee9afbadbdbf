/**
 * The event protocol both LLM clients speak to the chat route: zero or more
 * `{"token": t, "done": false}` events with non-empty `t`, then exactly one
 * terminal event with `done` true, which carries `error` when generation
 * failed. The token source is a sequence of raw chunk texts together with
 * the way it ended.
 */
module GenerationEvents {
  import opened Wrappers
  import opened PyStr

  /** One yielded dict; `error` present only on a failing terminal event. */
  datatype Event = Event(token: string, done: bool, error: Option<string>)

  /** How the token source stopped: it ran out, or it raised with this `str(e)`. */
  datatype Ending = Exhausted | Raised(message: string)

  function TokenEvent(t: string): Event {
    Event(t, false, None)
  }

  function ErrorEvent(message: string): Event {
    Event("", true, Some(message))
  }

  /** The terminal event for a way of ending: plain `done`, or `done` with the error. */
  function Terminal(ending: Ending): (e: Event)
    ensures e.done && e.token == ""
    ensures e.error.Some? <==> ending.Raised?
  {
    match ending
    case Exhausted => Event("", true, None)
    case Raised(m) => ErrorEvent(m)
  }

  /** The chunk texts that survive `if token:`, in order. */
  function NonEmpty(chunks: seq<string>): (r: seq<string>)
    ensures |r| <= |chunks|
    ensures forall i :: 0 <= i < |r| ==> r[i] != ""
  {
    if |chunks| == 0 then []
    else NonEmpty(chunks[..|chunks| - 1]) + (if chunks[|chunks| - 1] != "" then [chunks[|chunks| - 1]] else [])
  }

  function TokenEvents(tokens: seq<string>): seq<Event> {
    seq(|tokens|, i requires 0 <= i < |tokens| => TokenEvent(tokens[i]))
  }

  /** Everything a client yields for a token source that ends this way. */
  function StreamOf(chunks: seq<string>, ending: Ending): seq<Event> {
    TokenEvents(NonEmpty(chunks)) + [Terminal(ending)]
  }

  /** Exactly one event has `done` set, and it is the last one. */
  predicate Terminated(events: seq<Event>) {
    |events| > 0 && events[|events| - 1].done
    && forall i :: 0 <= i < |events| - 1 ==> !events[i].done
  }

  /** Every event before the terminal one carries a non-empty token and no error. */
  predicate ProperTokens(events: seq<Event>) {
    forall i :: 0 <= i < |events| - 1 ==> events[i].token != "" && events[i].error == None
  }

  function Tokens(events: seq<Event>): seq<string> {
    seq(|events|, i requires 0 <= i < |events| => events[i].token)
  }

  /** The text a consumer accumulates from these events. */
  function Text(events: seq<Event>): string {
    Concat(Tokens(events))
  }

  /**
   * The streaming loop both clients run: one token event per non-empty
   * chunk text, in order, then `done`, or `done` with the error if the
   * source raised.
   */
  method EmitTokens(chunks: seq<string>, ending: Ending) returns (events: seq<Event>)
    ensures events == StreamOf(chunks, ending)
  {
    events := [];
    var i := 0;
    while i < |chunks|
      invariant 0 <= i <= |chunks|
      invariant events == TokenEvents(NonEmpty(chunks[..i]))
    {
      assert chunks[..i + 1][..i] == chunks[..i];
      if chunks[i] != "" {
        events := events + [TokenEvent(chunks[i])];
      }
      i := i + 1;
    }
    assert chunks[..i] == chunks;
    if ending.Raised? {
      events := events + [ErrorEvent(ending.message)];
      return;
    }
    events := events + [Event("", true, None)];
  }

  // ---------------------------------------------------------------- lemmas

  /** A stream is terminated exactly once, with non-empty tokens before, and the error only on failure. */
  lemma StreamWellFormed(chunks: seq<string>, ending: Ending)
    ensures Terminated(StreamOf(chunks, ending)) && ProperTokens(StreamOf(chunks, ending))
    ensures |StreamOf(chunks, ending)| == |NonEmpty(chunks)| + 1
    ensures var s := StreamOf(chunks, ending); s[|s| - 1] == Terminal(ending)
  {
  }

  lemma {:induction false} NonEmptyAppend(a: seq<string>, b: seq<string>)
    ensures NonEmpty(a + b) == NonEmpty(a) + NonEmpty(b)
  {
    if |b| > 0 {
      assert (a + b)[..|a + b| - 1] == a + b[..|b| - 1];
      NonEmptyAppend(a, b[..|b| - 1]);
    } else {
      assert a + b == a;
    }
  }

  lemma {:induction false} ConcatAppend(a: seq<string>, b: seq<string>)
    ensures Concat(a + b) == Concat(a) + Concat(b)
  {
    if |b| > 0 {
      assert (a + b)[..|a + b| - 1] == a + b[..|b| - 1];
      ConcatAppend(a, b[..|b| - 1]);
    } else {
      assert a + b == a;
    }
  }

  /** Dropping empty chunks never changes the concatenated text. */
  lemma {:induction false} NonEmptyConcat(chunks: seq<string>)
    ensures Concat(NonEmpty(chunks)) == Concat(chunks)
  {
    if |chunks| > 0 {
      var init, last := chunks[..|chunks| - 1], chunks[|chunks| - 1];
      NonEmptyConcat(init);
      var kept := if last != "" then [last] else [];
      ConcatAppend(NonEmpty(init), kept);
      assert Concat(kept) == last by {
        if last != "" {
          assert kept[..0] == [];
        }
      }
    }
  }

  /** What a consumer reads from the whole stream is the concatenation of the chunks. */
  lemma StreamText(chunks: seq<string>, ending: Ending)
    ensures Text(StreamOf(chunks, ending)) == Concat(chunks)
  {
    var s := StreamOf(chunks, ending);
    var ts := NonEmpty(chunks);
    assert Tokens(s) == ts + [""];
    ConcatAppend(ts, [""]);
    assert Concat([""]) == "" by {
      assert [""][..0] == [];
    }
    NonEmptyConcat(chunks);
  }

  /**
   * Tokens already yielded are never retracted: whatever the source yields
   * after `a` and however it ends, the events for `a` come first, unchanged.
   */
  lemma TokensNotRetracted(a: seq<string>, b: seq<string>, ending: Ending)
    ensures TokenEvents(NonEmpty(a)) <= StreamOf(a + b, ending)
  {
    NonEmptyAppend(a, b);
    var s := StreamOf(a + b, ending);
    var pre := TokenEvents(NonEmpty(a));
    assert forall i :: 0 <= i < |pre| ==> s[i] == pre[i];
  }
}
