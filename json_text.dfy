/**
 * The text `json.dumps` produces with its default settings for the few
 * shapes the chat route serialises: strings (with `ensure_ascii`), booleans,
 * objects with keys in insertion order, and arrays, using the separators
 * `", "` and `": "`.
 */
module JsonText {
  import opened PyStr

  /** Every character is printable ASCII, space to tilde. */
  predicate Printable(s: string) {
    forall i :: 0 <= i < |s| ==> ' ' <= s[i] <= '~'
  }

  function HexDigit(d: nat): (c: char)
    requires d < 16
    ensures ' ' <= c <= '~'
  {
    if d < 10 then DigitChar(d) else ('a' as int + d - 10) as char
  }

  /** Four lower-case hex digits, as in `'\\u{0:04x}'`. */
  function Hex4(n: nat): (r: string)
    requires n < 0x1_0000
    ensures |r| == 4 && Printable(r)
  {
    [HexDigit(n / 0x1000), HexDigit(n / 0x100 % 16), HexDigit(n / 0x10 % 16), HexDigit(n % 16)]
  }

  /**
   * The escape of one character: the two-character escapes for `"`, `\`,
   * newline, carriage return, tab, backspace and form feed, the character
   * itself when it is printable ASCII, `\uXXXX` otherwise, and a surrogate
   * pair of those beyond the Basic Multilingual Plane.
   */
  function EscapeChar(c: char): string {
    if c == '"' then "\\\""
    else if c == '\\' then "\\\\"
    else if c == '\n' then "\\n"
    else if c == '\r' then "\\r"
    else if c == '\t' then "\\t"
    else if c == '\U{8}' then "\\b"
    else if c == '\U{c}' then "\\f"
    else if ' ' <= c <= '~' then [c]
    else if (c as int) < 0x1_0000 then "\\u" + Hex4(c as int)
    else
      var v := c as int - 0x1_0000;
      "\\u" + Hex4(0xD800 + v / 0x400) + "\\u" + Hex4(0xDC00 + v % 0x400)
  }

  function Escape(s: string): string {
    if |s| == 0 then "" else Escape(s[..|s| - 1]) + EscapeChar(s[|s| - 1])
  }

  /** `json.dumps(s)` for a `str`. */
  function Quote(s: string): string {
    "\"" + Escape(s) + "\""
  }

  function BoolText(b: bool): string {
    if b then "true" else "false"
  }

  /** One `"key": value` pair of an object. */
  function Member(key: string, value: string): string {
    Quote(key) + ": " + value
  }

  function ObjectText(members: seq<string>): string {
    "{" + Join(", ", members) + "}"
  }

  function ArrayText(items: seq<string>): string {
    "[" + Join(", ", items) + "]"
  }

  // ---------------------------------------------------------------- lemmas

  lemma PrintableAppend(a: string, b: string)
    requires Printable(a) && Printable(b)
    ensures Printable(a + b)
  {
    assert forall i :: |a| <= i < |a + b| ==> (a + b)[i] == b[i - |a|];
  }

  lemma EscapeCharPrintable(c: char)
    ensures Printable(EscapeChar(c))
  {
    if (c as int) >= 0x1_0000 && !(' ' <= c <= '~') {
      var v := c as int - 0x1_0000;
      PrintableAppend("\\u", Hex4(0xD800 + v / 0x400));
      PrintableAppend("\\u" + Hex4(0xD800 + v / 0x400), "\\u");
      PrintableAppend("\\u" + Hex4(0xD800 + v / 0x400) + "\\u", Hex4(0xDC00 + v % 0x400));
    } else if (c as int) < 0x1_0000 && !(' ' <= c <= '~') && !(c in "\"\\\n\r\t\U{8}\U{c}") {
      PrintableAppend("\\u", Hex4(c as int));
    }
  }

  /** With `ensure_ascii` the encoding of any string is printable ASCII, so it never holds a raw line break. */
  lemma {:induction false} EscapePrintable(s: string)
    ensures Printable(Escape(s))
  {
    if |s| > 0 {
      EscapePrintable(s[..|s| - 1]);
      EscapeCharPrintable(s[|s| - 1]);
      PrintableAppend(Escape(s[..|s| - 1]), EscapeChar(s[|s| - 1]));
    }
  }

  lemma QuotePrintable(s: string)
    ensures Printable(Quote(s))
  {
    EscapePrintable(s);
    PrintableAppend("\"", Escape(s));
    PrintableAppend("\"" + Escape(s), "\"");
  }

  /** Text that is printable and holds no quote or backslash is encoded as itself between quotes. */
  lemma {:induction false} EscapePlain(s: string)
    requires Printable(s)
    requires forall i :: 0 <= i < |s| ==> s[i] != '"' && s[i] != '\\'
    ensures Escape(s) == s
  {
    if |s| > 0 {
      EscapePlain(s[..|s| - 1]);
      assert s[..|s| - 1] + [s[|s| - 1]] == s;
    }
  }

  lemma {:induction false} JoinPrintable(sep: string, parts: seq<string>)
    requires Printable(sep)
    requires forall i :: 0 <= i < |parts| ==> Printable(parts[i])
    ensures Printable(Join(sep, parts))
  {
    if |parts| > 1 {
      JoinPrintable(sep, parts[..|parts| - 1]);
      PrintableAppend(Join(sep, parts[..|parts| - 1]), sep);
      PrintableAppend(Join(sep, parts[..|parts| - 1]) + sep, parts[|parts| - 1]);
    }
  }

  lemma MemberPrintable(key: string, value: string)
    requires Printable(value)
    ensures Printable(Member(key, value))
  {
    QuotePrintable(key);
    PrintableAppend(Quote(key), ": ");
    PrintableAppend(Quote(key) + ": ", value);
  }

  lemma ObjectPrintable(members: seq<string>)
    requires forall i :: 0 <= i < |members| ==> Printable(members[i])
    ensures Printable(ObjectText(members))
  {
    JoinPrintable(", ", members);
    PrintableAppend("{", Join(", ", members));
    PrintableAppend("{" + Join(", ", members), "}");
  }

  lemma ArrayPrintable(items: seq<string>)
    requires forall i :: 0 <= i < |items| ==> Printable(items[i])
    ensures Printable(ArrayText(items))
  {
    JoinPrintable(", ", items);
    PrintableAppend("[", Join(", ", items));
    PrintableAppend("[" + Join(", ", items), "]");
  }
}
