/**
 * The semantic gate in front of long-term memory: a deterministic chain of
 * string heuristics deciding whether an utterance is durable enough to store.
 * Every rule looks at the stripped, lower-cased text only.
 */
module MemoryGate {
  import opened PyStr

  /** Short texts survive only when they contain one of these. */
  const KeyIndicators: seq<string> := ["prefer", "like", "use", "work", "specialize", "live in", "am a", "my"]
  const Greetings: seq<string> := ["hi", "hello", "hey", "thanks", "thank you", "bye", "goodbye", "ok", "okay"]
  const Fillers: seq<string> := ["hmm", "uh", "um", "ah", "well", "i see", "got it", "makes sense"]
  /** A short question survives only when it contains one of these. */
  const PreferenceMarkers: seq<string> := ["should i", "do i", "can i", "would i", "my", "i prefer"]
  const VaguePatterns: seq<string> := ["it depends", "maybe", "perhaps", "i guess", "not sure", "might be"]

  const ShortWordLimit: nat := 10
  const QuestionWordLimit: nat := 15

  /** `message.strip().lower()`. */
  function Normalize(message: string): string {
    Lower(Strip(message))
  }

  /** Fewer than ten words and no declarative self-reference. */
  predicate TooShort(n: string) {
    WordCount(n) < ShortWordLimit && !AnyContains(n, KeyIndicators)
  }

  /** The whole text is a bare greeting or filler. */
  predicate GreetingOrFiller(n: string) {
    n in Greetings || n in Fillers
  }

  /** A short question that reveals no preference. */
  predicate BareQuestion(n: string) {
    EndsWith(n, "?") && WordCount(n) < QuestionWordLimit && !AnyContains(n, PreferenceMarkers)
  }

  /** Short hedged or vague phrasing. */
  predicate Vague(n: string) {
    AnyContains(n, VaguePatterns) && WordCount(n) < QuestionWordLimit
  }

  /** `Mem0MemoryManager._should_persist`. */
  predicate ShouldPersist(message: string) {
    if Strip(message) == "" then false
    else
      var n := Normalize(message);
      !TooShort(n) && !GreetingOrFiller(n) && !BareQuestion(n) && !Vague(n)
  }

  // ---------------------------------------------------------------- lemmas

  /** Empty or whitespace-only text is never stored. */
  lemma BlankRejected(message: string)
    requires AllSpace(message)
    ensures !ShouldPersist(message)
  {
    AllSpaceStrip(message);
  }

  /** The verdict is a function of the normalised text alone. */
  lemma DependsOnlyOnNormalized(a: string, b: string)
    requires Normalize(a) == Normalize(b)
    ensures ShouldPersist(a) == ShouldPersist(b)
  {
    assert |Strip(a)| == |Normalize(a)| == |Normalize(b)| == |Strip(b)|;
  }

  /** Changing the case of letters never changes the verdict. */
  lemma CaseInsensitive(a: string, b: string)
    requires Lower(a) == Lower(b)
    ensures ShouldPersist(a) == ShouldPersist(b)
  {
    StripLower(a);
    StripLower(b);
    LowerIdempotent(Strip(a));
    LowerIdempotent(Strip(b));
    assert Normalize(a) == Lower(Strip(Lower(a))) == Lower(Strip(Lower(b))) == Normalize(b);
    DependsOnlyOnNormalized(a, b);
  }

  /** Leading and trailing whitespace never changes the verdict. */
  lemma PaddingInsensitive(ws1: string, message: string, ws2: string)
    requires AllSpace(ws1) && AllSpace(ws2)
    ensures ShouldPersist(ws1 + message + ws2) == ShouldPersist(message)
  {
    StripPadded(ws1, message, ws2);
  }

  /** Each rejection rule on its own rejects. */
  lemma RulesReject(message: string)
    ensures TooShort(Normalize(message)) ==> !ShouldPersist(message)
    ensures GreetingOrFiller(Normalize(message)) ==> !ShouldPersist(message)
    ensures BareQuestion(Normalize(message)) ==> !ShouldPersist(message)
    ensures Vague(Normalize(message)) ==> !ShouldPersist(message)
  {
  }

  lemma {:induction false} NoneContained(s: string, patterns: seq<string>)
    requires forall p :: p in patterns ==> !Contains(s, p)
    ensures !AnyContains(s, patterns)
  {
    if |patterns| > 0 {
      assert patterns[0] in patterns;
      NoneContained(s, patterns[1..]);
    }
  }

  /** Non-blank text that no rule rejects is stored. */
  lemma AcceptedWhenNoRuleFires(message: string)
    requires Strip(message) != ""
    requires !TooShort(Normalize(message)) && !GreetingOrFiller(Normalize(message))
    requires !BareQuestion(Normalize(message)) && !Vague(Normalize(message))
    ensures ShouldPersist(message)
  {
  }

  /**
   * Every text of fifteen words or more is stored: the length-bounded rules
   * cannot fire and no greeting or filler has fifteen characters.
   */
  lemma LongTextAccepted(message: string)
    requires WordCount(Normalize(message)) >= QuestionWordLimit
    ensures ShouldPersist(message)
  {
    var n := Normalize(message);
    WordCountAtMostLength(n);
    assert |n| >= 15;
    assert Strip(message) != [];
    forall g | GreetingOrFiller(g)
      ensures |g| < 15
    {
    }
    assert !GreetingOrFiller(n);
  }

  /** Neither of the first two characters of "makes sense" starts an occurrence of "am a". */
  lemma MakesSenseFirstStep()
    ensures Contains("makes sense", "am a") == Contains("akes sense", "am a")
  {
    assert "makes sense"[1..] == "akes sense" && "makes sense"[0] != "am a"[0];
    ContainsStep("makes sense", "am a");
  }

  lemma MakesSenseSecondStep()
    ensures Contains("akes sense", "am a") == Contains("kes sense", "am a")
  {
    assert "akes sense"[1..] == "kes sense" && "akes sense"[1] != "am a"[1];
    ContainsStep("akes sense", "am a");
  }

  /** What is left after them has no 'a' at all. */
  lemma KesSenseWithoutAmA()
    ensures !Contains("kes sense", "am a")
  {
    MissingCharExcludes("kes sense", "am a", 0);
  }

  /** "makes sense" holds every character of "am a", but never in that order. */
  lemma MakesSenseWithoutAmA()
    ensures !Contains("makes sense", "am a")
  {
    MakesSenseFirstStep();
    MakesSenseSecondStep();
    KesSenseWithoutAmA();
  }

  /** Letters of the indicators that no greeting or filler uses. */
  lemma GreetingLettersAbsent(g: string)
    requires GreetingOrFiller(g)
    ensures 'p' !in g && 'r' !in g && 'v' !in g
  {
  }

  /** Letter pairs of the indicators that no greeting or filler uses together. */
  lemma GreetingLettersApart(g: string)
    requires GreetingOrFiller(g)
    ensures 'k' in g ==> 'l' !in g
    ensures 'u' in g ==> 's' !in g
  {
  }

  lemma GreetingLettersApartToo(g: string)
    requires GreetingOrFiller(g)
    ensures 'm' in g ==> 'y' !in g
    ensures 'a' in g && g != "makes sense" ==> 'm' !in g
  {
  }

  /** No greeting or filler contains a key indicator. */
  lemma NoIndicatorInGreeting(g: string, p: string)
    requires GreetingOrFiller(g) && p in KeyIndicators
    ensures !Contains(g, p)
  {
    GreetingLettersAbsent(g);
    GreetingLettersApart(g);
    GreetingLettersApartToo(g);
    if p == "prefer" || p == "specialize" {
      MissingCharExcludes(g, p, 1);
    } else if p == "work" || p == "live in" {
      MissingCharExcludes(g, p, 2);
    } else if p == "like" {
      MissingCharExcludes(g, p, if 'k' in g then 0 else 2);
    } else if p == "use" {
      MissingCharExcludes(g, p, if 'u' in g then 1 else 0);
    } else if p == "my" {
      MissingCharExcludes(g, p, if 'm' in g then 1 else 0);
    } else if g == "makes sense" {
      MakesSenseWithoutAmA();
    } else {
      MissingCharExcludes(g, p, if 'a' in g then 1 else 0);
    }
  }

  /**
   * The greeting-and-filler rule never decides anything: every bare greeting
   * or filler is already rejected as too short by the word-count rule.
   */
  lemma GreetingRuleSubsumed(n: string)
    requires GreetingOrFiller(n)
    ensures TooShort(n)
  {
    WordCountAtMostHalf(n);
    forall p | p in KeyIndicators
      ensures !Contains(n, p)
    {
      NoIndicatorInGreeting(n, p);
    }
    NoneContained(n, KeyIndicators);
  }

  /** "Hello": one word, no indicator, so the gate rejects it. */
  lemma HelloRejected()
    ensures !ShouldPersist("Hello")
  {
    var m := "Hello";
    assert LStrip(m) == m;
    assert RStrip(m) == m;
    assert Normalize(m) == "hello";
    var n := "hello";
    WordCountAtMostLength(n);
    forall p | p in KeyIndicators
      ensures !Contains(n, p)
    {
      MissingCharExcludes(n, p, if p == "like" || p == "live in" then 1 else 0);
    }
    assert TooShort(n) by {
      NoneContained(n, KeyIndicators);
    }
  }

  /** No greeting or filler is longer than eleven characters. */
  lemma GreetingShort(g: string)
    requires GreetingOrFiller(g)
    ensures |g| < 12
  {
  }

  lemma PreferenceNormalized()
    ensures Normalize("I prefer tea") == "i prefer tea"
  {
    var m := "I prefer tea";
    assert LStrip(m) == m;
    assert RStrip(m) == m;
  }

  lemma PreferenceNotVague()
    ensures !Vague("i prefer tea")
  {
    var n := "i prefer tea";
    forall p | p in VaguePatterns
      ensures !Contains(n, p)
    {
      MissingCharExcludes(n, p, if p == "it depends" || p == "perhaps" then 3 else if p == "i guess" then 2 else 0);
    }
    NoneContained(n, VaguePatterns);
  }

  lemma PreferenceIndicated()
    ensures !TooShort("i prefer tea")
  {
    var n := "i prefer tea";
    assert "prefer" <= n[2..];
    assert Contains(n[1..], "prefer");
  }

  lemma PreferenceNoOtherRule()
    ensures !BareQuestion("i prefer tea") && !GreetingOrFiller("i prefer tea")
  {
    var n := "i prefer tea";
    assert n[|n| - 1..] == "a";
    if GreetingOrFiller(n) {
      GreetingShort(n);
    }
  }

  /** "I prefer tea": only three words, but a key indicator keeps it, and no rule rejects it. */
  lemma PreferenceAccepted()
    ensures ShouldPersist("I prefer tea")
  {
    PreferenceNormalized();
    PreferenceNotVague();
    PreferenceIndicated();
    PreferenceNoOtherRule();
    AcceptedWhenNoRuleFires("I prefer tea");
  }
}
