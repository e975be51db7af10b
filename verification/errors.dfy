/** The Python exceptions the modelled code can raise, and their `str()` text. */
module Errors {
  import opened Wrappers

  datatype Error =
    /** `d[key]` on a dict without `key`. */
    | KeyError(key: string)
    /** Subscripting, iterating or testing membership on a value of the wrong type. */
    | TypeError(message: string)
    /** Calling a method (`.get`, `.encode`) a value does not have. */
    | AttributeError(message: string)
    /** An exception raised inside a library the model does not look into: the HTTP client,
        the WASM sandbox, base64, UTF-8, JSON text parsing, a vendor SDK. */
    | Raised(message: string)

  /** `str(exc)`: a KeyError renders as the `repr` of its key, the others as their message. */
  function Text(e: Error): (s: string)
    ensures e.KeyError? ==> s == Repr(e.key)
    ensures !e.KeyError? ==> s == e.message
  {
    match e
    case KeyError(k) => Repr(k)
    case TypeError(m) => m
    case AttributeError(m) => m
    case Raised(m) => m
  }

  // CPython's `repr` of a str.

  /** The quote `repr` encloses a text in: a double quote when the text holds a single quote
      and no double quote, a single quote otherwise. */
  function QuoteFor(s: string): (q: char)
    ensures q == '\'' || q == '"'
  {
    if '\'' in s && '"' !in s then '"' else '\''
  }

  /** An ASCII control character, which `repr` writes as an escape. */
  predicate Control(c: char) {
    c as int < 32 || c as int == 127
  }

  /** A text `repr` shows as it is: no backslash, no control character, and not both kinds
      of quote. */
  predicate Plain(s: string) {
    && (forall i :: 0 <= i < |s| ==> s[i] != '\\' && !Control(s[i]))
    && !('\'' in s && '"' in s)
  }

  /** The lower-case hexadecimal digit of `n`. */
  function HexDigit(n: int): (c: char)
    requires 0 <= n < 16
  {
    "0123456789abcdef"[n]
  }

  function HexValue(c: char): (r: Option<int>)
    ensures r.Some? ==> 0 <= r.value < 16
  {
    if '0' <= c <= '9' then Some(c as int - '0' as int)
    else if 'a' <= c <= 'f' then Some(c as int - 'a' as int + 10)
    else None
  }

  lemma HexDigitValue(n: int)
    requires 0 <= n < 16
    ensures HexValue(HexDigit(n)) == Some(n)
  {
  }

  /** How `repr` writes one character of a text quoted with `q`. */
  function EscapeChar(c: char, q: char): (t: string)
    ensures |t| > 0
  {
    if c == '\\' || c == q then ['\\', c]
    else if c == '\t' then "\\t"
    else if c == '\n' then "\\n"
    else if c == '\r' then "\\r"
    else if Control(c) then ['\\', 'x', HexDigit(c as int / 16), HexDigit(c as int % 16)]
    else [c]
  }

  function Escape(s: string, q: char): (t: string)
    ensures |t| >= |s|
  {
    if |s| == 0 then [] else EscapeChar(s[0], q) + Escape(s[1..], q)
  }

  /** `repr(s)`. */
  function Repr(s: string): (r: string)
    ensures |r| >= |s| + 2 && r[0] == QuoteFor(s) && r[|r| - 1] == QuoteFor(s)
  {
    [QuoteFor(s)] + Escape(s, QuoteFor(s)) + [QuoteFor(s)]
  }

  /** Reading back the inside of a string literal with the escapes `repr` writes. */
  function Unescape(t: string): (r: Option<string>)
    decreases |t|
  {
    if |t| == 0 then Some([])
    else if t[0] != '\\' then Prepend([t[0]], Unescape(t[1..]))
    else if |t| < 2 then None
    else if t[1] == '\\' || t[1] == '\'' || t[1] == '"' then Prepend([t[1]], Unescape(t[2..]))
    else if t[1] == 't' then Prepend("\t", Unescape(t[2..]))
    else if t[1] == 'n' then Prepend("\n", Unescape(t[2..]))
    else if t[1] == 'r' then Prepend("\r", Unescape(t[2..]))
    else if t[1] == 'x' && |t| >= 4 && HexValue(t[2]).Some? && HexValue(t[3]).Some? then
      Prepend([(HexValue(t[2]).value * 16 + HexValue(t[3]).value) as char], Unescape(t[4..]))
    else None
  }

  function Prepend(a: string, r: Option<string>): Option<string> {
    if r.Some? then Some(a + r.value) else None
  }

  /** A text without backslashes, control characters or both quotes is shown as it is,
      between its quotes. */
  lemma {:induction false} PlainShownAsIs(s: string)
    requires Plain(s)
    ensures Repr(s) == [QuoteFor(s)] + s + [QuoteFor(s)]
  {
    EscapePlain(s, QuoteFor(s));
  }

  lemma {:induction false} EscapePlain(s: string, q: char)
    requires forall i :: 0 <= i < |s| ==> s[i] != '\\' && !Control(s[i]) && s[i] != q
    ensures Escape(s, q) == s
    decreases |s|
  {
    if |s| > 0 {
      EscapePlain(s[1..], q);
      assert [s[0]] + s[1..] == s;
    }
  }

  /** Reading one written character and then the rest reads the character and the rest. */
  lemma UnescapeChar(c: char, q: char, t: string)
    requires q == '\'' || q == '"'
    ensures Unescape(EscapeChar(c, q) + t) == Prepend([c], Unescape(t))
  {
    var e := EscapeChar(c, q);
    if c == '\\' || c == q {
      assert (e + t)[2..] == t;
    } else if c == '\t' || c == '\n' || c == '\r' {
      assert (e + t)[2..] == t;
    } else if Control(c) {
      var hi := c as int / 16;
      var lo := c as int % 16;
      HexDigitValue(hi);
      HexDigitValue(lo);
      assert (e + t)[2] == HexDigit(hi) && (e + t)[3] == HexDigit(lo);
      assert (e + t)[4..] == t;
      assert (hi * 16 + lo) as char == c;
    } else {
      assert (e + t)[1..] == t;
    }
  }

  lemma {:induction false} EscapeRoundTrip(s: string, q: char)
    requires q == '\'' || q == '"'
    ensures Unescape(Escape(s, q)) == Some(s)
    decreases |s|
  {
    if |s| > 0 {
      EscapeRoundTrip(s[1..], q);
      UnescapeChar(s[0], q, Escape(s[1..], q));
      assert [s[0]] + s[1..] == s;
    }
  }

  /** `repr` loses nothing: the text between its quotes reads back to the key. */
  lemma ReprRoundTrip(s: string)
    ensures var r := Repr(s); Unescape(r[1..|r| - 1]) == Some(s)
  {
    var r := Repr(s);
    assert r[1..|r| - 1] == Escape(s, QuoteFor(s));
    EscapeRoundTrip(s, QuoteFor(s));
  }

  /** Two keys with the same text are the same key. */
  lemma ReprInjective(a: string, b: string)
    requires Repr(a) == Repr(b)
    ensures a == b
  {
    ReprRoundTrip(a);
    ReprRoundTrip(b);
  }
}
