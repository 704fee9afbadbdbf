/**
 * The handful of Python `str` operations the core relies on:
 * `strip`, `lower`, `split` (word counting), `in`, `endswith`, `join`
 * and the decimal rendering of an `int` inside an f-string.
 */
module PyStr {

  /** `c.isspace()`: exactly the characters Python's `str.split()` and `str.strip()` treat as whitespace. */
  predicate IsSpace(c: char) {
    c == ' ' || ('\t' <= c <= '\r') || ('\U{1c}' <= c <= '\U{1f}')
    || c == '\U{85}' || c == '\U{a0}' || c == '\U{1680}'
    || ('\U{2000}' <= c <= '\U{200a}') || c == '\U{2028}' || c == '\U{2029}'
    || c == '\U{202f}' || c == '\U{205f}' || c == '\U{3000}'
  }

  predicate AllSpace(s: string) {
    forall i :: 0 <= i < |s| ==> IsSpace(s[i])
  }

  function LStrip(s: string): (r: string)
    ensures |r| <= |s|
  {
    if |s| > 0 && IsSpace(s[0]) then LStrip(s[1..]) else s
  }

  function RStrip(s: string): (r: string)
    ensures |r| <= |s|
  {
    if |s| > 0 && IsSpace(s[|s| - 1]) then RStrip(s[..|s| - 1]) else s
  }

  /** `s.strip()` with no argument. */
  function Strip(s: string): string {
    RStrip(LStrip(s))
  }

  /** `c.lower()` on the ASCII letters. */
  function LowerChar(c: char): char {
    if 'A' <= c <= 'Z' then (c as int + 32) as char else c
  }

  /** `s.lower()`, character by character. */
  function Lower(s: string): (r: string)
    ensures |r| == |s|
  {
    seq(|s|, i requires 0 <= i < |s| => LowerChar(s[i]))
  }

  /** `len(s.split())`: the number of maximal runs of non-whitespace characters. */
  function WordCount(s: string): nat {
    if |s| == 0 then 0
    else WordCount(s[..|s| - 1]) + (if WordEndsAt(s, |s| - 1) then 1 else 0)
  }

  /** Position `i` holds the last character of a word once `s[..i+1]` is all that has been read. */
  predicate WordEndsAt(s: string, i: nat)
    requires i < |s|
  {
    !IsSpace(s[i]) && (i == 0 || IsSpace(s[i - 1]))
  }

  /** `sub in s`. */
  predicate Contains(s: string, sub: string) {
    sub <= s || (|s| > 0 && Contains(s[1..], sub))
  }

  /** `any(p in s for p in patterns)`. */
  predicate AnyContains(s: string, patterns: seq<string>) {
    |patterns| > 0 && (Contains(s, patterns[0]) || AnyContains(s, patterns[1..]))
  }

  /** `s.endswith(suffix)`. */
  predicate EndsWith(s: string, suffix: string) {
    |suffix| <= |s| && s[|s| - |suffix|..] == suffix
  }

  /** `sep.join(parts)`. */
  function Join(sep: string, parts: seq<string>): string {
    if |parts| == 0 then ""
    else if |parts| == 1 then parts[0]
    else Join(sep, parts[..|parts| - 1]) + sep + parts[|parts| - 1]
  }

  /** Concatenation of every part, `"".join(parts)`. */
  function Concat(parts: seq<string>): string {
    if |parts| == 0 then "" else Concat(parts[..|parts| - 1]) + parts[|parts| - 1]
  }

  /** One more part adds that part at the end. */
  lemma ConcatSnoc(parts: seq<string>, last: string)
    ensures Concat(parts + [last]) == Concat(parts) + last
  {
    assert (parts + [last])[..|parts|] == parts;
  }

  function DigitChar(d: nat): (c: char)
    requires d < 10
    ensures '0' <= c <= '9'
  {
    ('0' as int + d) as char
  }

  /** `str(n)` for a non-negative `int`. */
  function Decimal(n: nat): (r: string)
    ensures |r| >= 1
    ensures n >= 10 ==> |r| >= 2
  {
    if n < 10 then [DigitChar(n)] else Decimal(n / 10) + [DigitChar(n % 10)]
  }

  /** `str(i)` for any `int`. */
  function IntToString(i: int): string {
    if i < 0 then "-" + Decimal(-i) else Decimal(i)
  }

  /** `s[start:]`, with Python's rule for negative and out-of-range starts: always a suffix of `s`. */
  function SliceFrom<T>(s: seq<T>, start: int): (r: seq<T>)
    ensures |r| <= |s| && r == s[|s| - |r|..]
  {
    if start < 0 then (if -start >= |s| then s else s[|s| + start..])
    else if start >= |s| then [] else s[start..]
  }

  /** Appending a suffix to a built-up text can be regrouped; stated once so that loops need not rediscover it. */
  lemma AppendAssoc(a: string, b: string, c: string)
    ensures (a + b) + c == a + (b + c)
  {
  }

  /** The length of a Python slice `s[start:]` depends only on the length of `s`. */
  lemma SliceFromSameLength<T>(s: seq<T>, t: seq<T>, start: int)
    requires |s| == |t|
    ensures |SliceFrom(s, start)| == |SliceFrom(t, start)|
  {
  }

  function Min(a: int, b: int): int {
    if a <= b then a else b
  }

  // ---------------------------------------------------------------- lemmas

  /** Different numbers print differently: `str` is injective on naturals. */
  lemma {:induction false} DecimalInjective(a: nat, b: nat)
    requires Decimal(a) == Decimal(b)
    ensures a == b
  {
    if a >= 10 && b >= 10 {
      var da, db := Decimal(a), Decimal(b);
      assert da[|da| - 1] == DigitChar(a % 10) && db[|db| - 1] == DigitChar(b % 10);
      assert Decimal(a / 10) == da[..|da| - 1] == db[..|db| - 1] == Decimal(b / 10);
      DecimalInjective(a / 10, b / 10);
    }
  }

  lemma {:induction false} WordCountAtMostLength(s: string)
    ensures WordCount(s) <= |s|
  {
    if |s| > 0 {
      WordCountAtMostLength(s[..|s| - 1]);
    }
  }

  lemma LowerCharKeepsSpace(c: char)
    ensures IsSpace(LowerChar(c)) == IsSpace(c)
  {
  }

  lemma {:induction false} LStripLower(s: string)
    ensures LStrip(Lower(s)) == Lower(LStrip(s))
  {
    if |s| > 0 {
      LowerCharKeepsSpace(s[0]);
      assert Lower(s)[1..] == Lower(s[1..]);
      LStripLower(s[1..]);
    }
  }

  lemma {:induction false} RStripLower(s: string)
    ensures RStrip(Lower(s)) == Lower(RStrip(s))
  {
    if |s| > 0 {
      LowerCharKeepsSpace(s[|s| - 1]);
      assert Lower(s)[..|s| - 1] == Lower(s[..|s| - 1]);
      RStripLower(s[..|s| - 1]);
    }
  }

  /** Lower-casing never touches whitespace, so it commutes with `strip`. */
  lemma StripLower(s: string)
    ensures Strip(Lower(s)) == Lower(Strip(s))
  {
    LStripLower(s);
    RStripLower(LStrip(s));
  }

  lemma LowerIdempotent(s: string)
    ensures Lower(Lower(s)) == Lower(s)
  {
  }

  lemma {:induction false} LStripPadded(ws: string, s: string)
    requires AllSpace(ws)
    ensures LStrip(ws + s) == LStrip(s)
  {
    if |ws| > 0 {
      assert (ws + s)[0] == ws[0] && IsSpace(ws[0]);
      assert (ws + s)[1..] == ws[1..] + s;
      assert LStrip(ws + s) == LStrip(ws[1..] + s);
      LStripPadded(ws[1..], s);
    } else {
      assert ws + s == s;
    }
  }

  lemma {:induction false} RStripPadded(s: string, ws: string)
    requires AllSpace(ws)
    ensures RStrip(s + ws) == RStrip(s)
  {
    if |ws| > 0 {
      assert (s + ws)[|s + ws| - 1] == ws[|ws| - 1] && IsSpace(ws[|ws| - 1]);
      assert (s + ws)[..|s + ws| - 1] == s + ws[..|ws| - 1];
      assert RStrip(s + ws) == RStrip(s + ws[..|ws| - 1]);
      RStripPadded(s, ws[..|ws| - 1]);
    } else {
      assert s + ws == s;
    }
  }

  lemma {:induction false} LStripKeepsTrailing(s: string, ws: string)
    requires AllSpace(ws) && !AllSpace(s)
    ensures LStrip(s + ws) == LStrip(s) + ws
  {
    assert |s| > 0;
    assert (s + ws)[0] == s[0];
    if IsSpace(s[0]) {
      assert (s + ws)[1..] == s[1..] + ws;
      assert !AllSpace(s[1..]) by {
        var k :| 0 <= k < |s| && !IsSpace(s[k]);
        assert s[1..][k - 1] == s[k];
      }
      LStripKeepsTrailing(s[1..], ws);
    }
  }

  lemma {:induction false} AllSpaceStrip(s: string)
    requires AllSpace(s)
    ensures LStrip(s) == "" && Strip(s) == ""
  {
    if |s| > 0 {
      assert IsSpace(s[0]);
      AllSpaceStrip(s[1..]);
    }
  }

  lemma {:induction false} LStripFirst(s: string)
    ensures LStrip(s) != [] ==> !IsSpace(LStrip(s)[0])
  {
    if |s| > 0 && IsSpace(s[0]) {
      LStripFirst(s[1..]);
    }
  }

  lemma {:induction false} RStripShape(s: string)
    ensures RStrip(s) == s[..|RStrip(s)|]
    ensures RStrip(s) != [] ==> !IsSpace(RStrip(s)[|RStrip(s)| - 1])
  {
    if |s| > 0 && IsSpace(s[|s| - 1]) {
      RStripShape(s[..|s| - 1]);
    }
  }

  /** Surrounding whitespace never changes what `strip` returns. */
  lemma StripPadded(ws1: string, s: string, ws2: string)
    requires AllSpace(ws1) && AllSpace(ws2)
    ensures Strip(ws1 + s + ws2) == Strip(s)
  {
    assert ws1 + s + ws2 == ws1 + (s + ws2);
    LStripPadded(ws1, s + ws2);
    if AllSpace(s) {
      assert AllSpace(s + ws2);
      AllSpaceStrip(s + ws2);
      AllSpaceStrip(s);
    } else {
      LStripKeepsTrailing(s, ws2);
      RStripPadded(LStrip(s), ws2);
    }
  }

  predicate OccursAt(s: string, sub: string, i: int) {
    0 <= i <= |s| - |sub| && s[i..i + |sub|] == sub
  }

  /** Where `sub in s` holds, it holds at some position. */
  lemma {:induction false} ContainsAt(s: string, sub: string) returns (i: nat)
    requires Contains(s, sub)
    ensures OccursAt(s, sub, i)
  {
    if sub <= s {
      assert s[0..|sub|] == sub;
      i := 0;
    } else {
      var j := ContainsAt(s[1..], sub);
      assert s[j + 1..j + 1 + |sub|] == s[1..][j..j + |sub|];
      i := j + 1;
    }
  }

  /** Words are separated by whitespace, so a text of n characters holds at most (n + 1) / 2 words. */
  lemma {:induction false} WordCountAtMostHalf(s: string)
    ensures 2 * WordCount(s) <= |s| + (if |s| > 0 && !IsSpace(s[|s| - 1]) then 1 else 0)
  {
    if |s| > 0 {
      var t := s[..|s| - 1];
      WordCountAtMostHalf(t);
      if |t| > 0 {
        assert t[|t| - 1] == s[|s| - 2];
      }
    }
  }

  /** A text contains only substrings no longer than itself, made of its own characters. */
  lemma {:induction false} ContainsBounds(s: string, sub: string)
    requires Contains(s, sub)
    ensures |sub| <= |s|
    ensures forall k :: 0 <= k < |sub| ==> sub[k] in s
  {
    if !(sub <= s) {
      ContainsBounds(s[1..], sub);
      forall k | 0 <= k < |sub|
        ensures sub[k] in s
      {
        var j :| 0 <= j < |s[1..]| && s[1..][j] == sub[k];
        assert s[j + 1] == sub[k];
      }
    } else {
      forall k | 0 <= k < |sub|
        ensures sub[k] in s
      {
        assert s[k] == sub[k];
      }
    }
  }

  /** A text cannot contain a pattern one of whose characters it lacks. */
  lemma MissingCharExcludes(s: string, sub: string, k: nat)
    requires k < |sub| && sub[k] !in s
    ensures !Contains(s, sub)
  {
    if Contains(s, sub) {
      ContainsBounds(s, sub);
    }
  }

  /** A pattern that is no prefix of a non-empty text can only occur past its first character. */
  lemma ContainsStep(s: string, sub: string)
    requires |s| > 0 && !(sub <= s)
    ensures Contains(s, sub) == Contains(s[1..], sub)
  {
  }

  /** `s.strip().strip() == s.strip()`. */
  lemma StripIdempotent(s: string)
    ensures Strip(Strip(s)) == Strip(s)
  {
    var l := LStrip(s);
    var r := RStrip(l);
    LStripFirst(s);
    RStripShape(l);
    if r != [] {
      assert r[0] == l[0];
      assert LStrip(r) == r;
      assert RStrip(r) == r;
    }
  }
}
