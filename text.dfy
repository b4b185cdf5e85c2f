/** The string operations of the JavaScript runtime that the dashboard relies on:
    `String.prototype.includes`, `toLowerCase` (ASCII letters only), `trim`,
    `Number.prototype.toString` on integers and the string escaping of `JSON.stringify`. */
module Text {
  import opened Collections

  /** sub occurs in s starting at position i. */
  predicate OccursAt(s: string, sub: string, i: nat) {
    i + |sub| <= |s| && s[i..i + |sub|] == sub
  }

  /** `s.includes(sub)`. */
  function Includes(s: string, sub: string): bool
    decreases |s|
  {
    if |sub| > |s| then false
    else if s[..|sub|] == sub then true
    else Includes(s[1..], sub)
  }

  /** Includes answers exactly whether sub occurs somewhere in s. */
  lemma {:induction false} IncludesIffOccurs(s: string, sub: string)
    ensures Includes(s, sub) <==> exists i: nat :: OccursAt(s, sub, i)
    decreases |s|
  {
    if |sub| > |s| {
    } else if s[..|sub|] == sub {
      assert OccursAt(s, sub, 0);
    } else {
      IncludesIffOccurs(s[1..], sub);
      if i: nat :| OccursAt(s, sub, i) {
        assert i != 0;
        assert s[1..][i - 1..i - 1 + |sub|] == s[i..i + |sub|];
        assert OccursAt(s[1..], sub, i - 1);
      }
      if i: nat :| OccursAt(s[1..], sub, i) {
        assert s[1..][i..i + |sub|] == s[i + 1..i + 1 + |sub|];
        assert OccursAt(s, sub, i + 1);
      }
    }
  }

  /** A one-character needle is found exactly when the character occurs. */
  lemma IncludesChar(s: string, c: char)
    ensures Includes(s, [c]) <==> c in s
  {
    IncludesIffOccurs(s, [c]);
    if c in s {
      var i :| 0 <= i < |s| && s[i] == c;
      assert OccursAt(s, [c], i);
    }
    if i: nat :| OccursAt(s, [c], i) {
      assert s[i] == s[i..i + 1][0];
    }
  }

  /** Occurrences survive around concatenation. */
  lemma IncludesInConcat(a: string, sub: string, b: string)
    ensures Includes(a + sub + b, sub)
  {
    IncludesIffOccurs(a + sub + b, sub);
    assert (a + sub + b)[|a|..|a| + |sub|] == sub;
    assert OccursAt(a + sub + b, sub, |a|);
  }

  /** `toLowerCase` restricted to ASCII letters. */
  function LowerChar(c: char): char {
    if 'A' <= c <= 'Z' then (c as int - 'A' as int + 'a' as int) as char else c
  }

  function Lower(s: string): (r: string)
    ensures |r| == |s|
    ensures forall i :: 0 <= i < |r| ==> !('A' <= r[i] <= 'Z')
    ensures forall i :: 0 <= i < |r| && !('A' <= s[i] <= 'Z') ==> r[i] == s[i]
    ensures forall i :: 0 <= i < |r| && 'A' <= s[i] <= 'Z' ==> r[i] == (s[i] as int + 32) as char
  {
    seq(|s|, i requires 0 <= i < |s| => LowerChar(s[i]))
  }

  /** a and b spell the same text up to the case of ASCII letters. */
  predicate SameIgnoringCase(a: string, b: string) {
    && |a| == |b|
    && forall i :: 0 <= i < |a| ==>
         || a[i] == b[i]
         || ('A' <= a[i] <= 'Z' && b[i] as int == a[i] as int + 32)
         || ('A' <= b[i] <= 'Z' && a[i] as int == b[i] as int + 32)
  }

  /** Strings that differ only in the case of ASCII letters lowercase alike. */
  lemma SameIgnoringCaseLower(a: string, b: string)
    requires SameIgnoringCase(a, b)
    ensures Lower(a) == Lower(b)
  {
  }

  /** Lowercasing twice is lowercasing once. */
  lemma LowerIdempotent(s: string)
    ensures Lower(Lower(s)) == Lower(s)
  {
  }

  /** The empty needle is found in every string. */
  lemma IncludesEmpty(s: string)
    ensures Includes(s, [])
  {
  }

  /** WhiteSpace and LineTerminator code points of ECMAScript: what `trim` removes. */
  predicate IsJsWhiteSpace(c: char) {
    c == '\t' || c == '\n' || c == '\U{B}' || c == '\U{C}' || c == '\r' || c == ' '
    || c == '\U{A0}' || c == '\U{1680}' || ('\U{2000}' <= c <= '\U{200A}')
    || c == '\U{2028}' || c == '\U{2029}' || c == '\U{202F}' || c == '\U{205F}'
    || c == '\U{3000}' || c == '\U{FEFF}'
  }

  function TrimStart(s: string): string {
    if s != [] && IsJsWhiteSpace(s[0]) then TrimStart(s[1..]) else s
  }

  function TrimEnd(s: string): string {
    if s != [] && IsJsWhiteSpace(s[|s| - 1]) then TrimEnd(s[..|s| - 1]) else s
  }

  /** `s.trim()`. */
  function Trim(s: string): string {
    TrimEnd(TrimStart(s))
  }

  predicate Blank(s: string) {
    forall i :: 0 <= i < |s| ==> IsJsWhiteSpace(s[i])
  }

  lemma {:induction false} TrimStartEmpty(s: string)
    ensures TrimStart(s) == [] <==> Blank(s)
    ensures TrimStart(s) != [] ==> !IsJsWhiteSpace(TrimStart(s)[0])
  {
    if s != [] && IsJsWhiteSpace(s[0]) {
      TrimStartEmpty(s[1..]);
      assert Blank(s) <==> Blank(s[1..]);
    }
  }

  lemma {:induction false} TrimEndEmpty(s: string)
    ensures TrimEnd(s) == [] <==> Blank(s)
  {
    if s != [] && IsJsWhiteSpace(s[|s| - 1]) {
      TrimEndEmpty(s[..|s| - 1]);
      assert Blank(s) <==> Blank(s[..|s| - 1]);
    }
  }

  /** `s.trim()` is empty, hence falsy, exactly when s holds nothing but white space. */
  lemma TrimEmptyIffBlank(s: string)
    ensures Trim(s) == [] <==> Blank(s)
  {
    TrimStartEmpty(s);
    TrimEndEmpty(TrimStart(s));
  }

  function DigitChar(d: nat): (c: char)
    requires d < 10
    ensures '0' <= c <= '9'
  {
    ('0' as int + d) as char
  }

  function DigitValue(c: char): nat
    requires '0' <= c <= '9'
  {
    c as int - '0' as int
  }

  predicate AllDigits(s: string) {
    forall i :: 0 <= i < |s| ==> '0' <= s[i] <= '9'
  }

  /** `n.toString()` for a non-negative integer below 10^21: decimal digits, no
      leading zero. */
  function NatToString(n: nat): (r: string)
    ensures r != [] && AllDigits(r)
    ensures r[0] == '0' ==> r == "0"
  {
    if n < 10 then [DigitChar(n)] else NatToString(n / 10) + [DigitChar(n % 10)]
  }

  /** Reads a string of decimal digits as a number. */
  function ParseDecimal(s: string): nat
    requires AllDigits(s)
  {
    if s == [] then 0 else ParseDecimal(s[..|s| - 1]) * 10 + DigitValue(s[|s| - 1])
  }

  /** The decimal text of n reads back as n. */
  lemma {:induction false} ParseNatToString(n: nat)
    ensures ParseDecimal(NatToString(n)) == n
  {
    if n >= 10 {
      var r := NatToString(n);
      assert r[..|r| - 1] == NatToString(n / 10);
      ParseNatToString(n / 10);
    }
  }

  /** `i.toString()` for an integer of magnitude below 10^21. */
  function IntToString(i: int): (r: string)
    ensures i >= 0 ==> r == NatToString(i)
    ensures i < 0 ==> |r| >= 2 && r[0] == '-' && r[1..] == NatToString(-i)
  {
    if i < 0 then "-" + NatToString(-i) else NatToString(i)
  }

  function HexDigit(d: nat): (c: char)
    requires d < 16
  {
    if d < 10 then DigitChar(d) else ('a' as int + d - 10) as char
  }

  predicate IsHexDigit(c: char) {
    '0' <= c <= '9' || 'a' <= c <= 'f' || 'A' <= c <= 'F'
  }

  function HexValue(c: char): (v: nat)
    requires IsHexDigit(c)
    ensures v < 16
  {
    if c <= '9' then c as int - '0' as int
    else if c <= 'F' then c as int - 'A' as int + 10
    else c as int - 'a' as int + 10
  }

  /** How `JSON.stringify` writes one character inside a string literal. */
  function JsonEscapeChar(c: char): string {
    if c == '"' then "\\\""
    else if c == '\\' then "\\\\"
    else if c == '\U{8}' then "\\b"
    else if c == '\U{C}' then "\\f"
    else if c == '\n' then "\\n"
    else if c == '\r' then "\\r"
    else if c == '\t' then "\\t"
    else if c < ' ' then "\\u00" + [HexDigit(c as int / 16), HexDigit(c as int % 16)]
    else [c]
  }

  function JsonEscape(s: string): string {
    if s == [] then [] else JsonEscapeChar(s[0]) + JsonEscape(s[1..])
  }

  /** `JSON.stringify(s)` for a string s. */
  function JsonQuote(s: string): (r: string)
    ensures |r| >= 2 && r[0] == '"' && r[|r| - 1] == '"'
  {
    "\"" + JsonEscape(s) + "\""
  }

  function Cons(c: char, r: Option<string>): Option<string> {
    if r.Some? then Some([c] + r.value) else None
  }

  /** Reads the body of a JSON string literal back into the string it denotes;
      None for text that is not a well-formed body. */
  function JsonUnescape(t: string): Option<string>
    decreases |t|
  {
    if t == [] then Some([])
    else if t[0] == '\\' then
      if |t| < 2 then None
      else if t[1] == '"' then Cons('"', JsonUnescape(t[2..]))
      else if t[1] == '\\' then Cons('\\', JsonUnescape(t[2..]))
      else if t[1] == '/' then Cons('/', JsonUnescape(t[2..]))
      else if t[1] == 'b' then Cons('\U{8}', JsonUnescape(t[2..]))
      else if t[1] == 'f' then Cons('\U{C}', JsonUnescape(t[2..]))
      else if t[1] == 'n' then Cons('\n', JsonUnescape(t[2..]))
      else if t[1] == 'r' then Cons('\r', JsonUnescape(t[2..]))
      else if t[1] == 't' then Cons('\t', JsonUnescape(t[2..]))
      else if t[1] == 'u' && |t| >= 6 && IsHexDigit(t[2]) && IsHexDigit(t[3])
              && IsHexDigit(t[4]) && IsHexDigit(t[5]) then
        var v := HexValue(t[2]) * 4096 + HexValue(t[3]) * 256 + HexValue(t[4]) * 16 + HexValue(t[5]);
        if 0xD800 <= v < 0xE000 then None else Cons(v as char, JsonUnescape(t[6..]))
      else None
    else if t[0] == '"' || t[0] < ' ' then None
    else Cons(t[0], JsonUnescape(t[1..]))
  }

  lemma HexRoundTrip(d: nat)
    requires d < 16
    ensures IsHexDigit(HexDigit(d)) && HexValue(HexDigit(d)) == d
  {
  }

  /** Reading back one escaped character consumes exactly its escape. */
  lemma UnescapeChar(c: char, rest: string)
    ensures JsonUnescape(JsonEscapeChar(c) + rest) == Cons(c, JsonUnescape(rest))
  {
    var t := JsonEscapeChar(c) + rest;
    if c == '"' || c == '\\' || c == '\U{8}' || c == '\U{C}' || c == '\n' || c == '\r' || c == '\t' {
      assert t[2..] == rest;
    } else if c < ' ' {
      var hi, lo := c as int / 16, c as int % 16;
      HexRoundTrip(hi);
      HexRoundTrip(lo);
      assert t[6..] == rest;
      assert t[2] == '0' && t[3] == '0' && t[4] == HexDigit(hi) && t[5] == HexDigit(lo);
      assert (0 * 4096 + 0 * 256 + hi * 16 + lo) as char == c;
    } else {
      assert t[1..] == rest;
    }
  }

  /** The length of the body of a JSON string literal that t starts with: t up to
      its first quote that no backslash escapes (all of t when there is none). */
  function StringBodyLength(t: string): (n: nat)
    ensures n <= |t|
    ensures n < |t| ==> t[n] == '"'
    decreases |t|
  {
    if t == [] || t[0] == '"' then 0
    else if t[0] == '\\' && |t| >= 2 then 2 + StringBodyLength(t[2..])
    else 1 + StringBodyLength(t[1..])
  }

  /** A character that is neither a quote nor a backslash is part of the body. */
  lemma BodyLengthPlain(d: char, rest: string)
    requires d != '"' && d != '\\'
    ensures StringBodyLength([d] + rest) == 1 + StringBodyLength(rest)
  {
    assert ([d] + rest)[1..] == rest;
  }

  /** A backslash and the character after it are part of the body. */
  lemma BodyLengthBackslash(d: char, rest: string)
    ensures StringBodyLength(['\\', d] + rest) == 2 + StringBodyLength(rest)
  {
    assert (['\\', d] + rest)[2..] == rest;
  }

  /** A six-character `\\u` escape is part of the body. */
  lemma BodyLengthUnicode(t: string)
    requires |t| >= 6 && t[0] == '\\' && t[1] == 'u'
    requires forall k :: 2 <= k < 6 ==> IsHexDigit(t[k])
    ensures StringBodyLength(t) == 6 + StringBodyLength(t[6..])
  {
    BodyLengthStep(t[5..]);
    assert t[5..][1..] == t[6..];
    BodyLengthStep(t[4..]);
    assert t[4..][1..] == t[5..];
    BodyLengthStep(t[3..]);
    assert t[3..][1..] == t[4..];
    BodyLengthStep(t[2..]);
    assert t[2..][1..] == t[3..];
  }

  /** A hex digit is one character of the body. */
  lemma BodyLengthStep(t: string)
    requires t != [] && IsHexDigit(t[0])
    ensures StringBodyLength(t) == 1 + StringBodyLength(t[1..])
  {
  }

  /** Scanning over one escaped character consumes exactly its escape. */
  lemma BodyLengthOfEscapeChar(c: char, rest: string)
    ensures StringBodyLength(JsonEscapeChar(c) + rest)
            == |JsonEscapeChar(c)| + StringBodyLength(rest)
  {
    var e := JsonEscapeChar(c);
    if c == '"' || c == '\\' || c == '\U{8}' || c == '\U{C}' || c == '\n' || c == '\r' || c == '\t' {
      assert |e| == 2 && e[0] == '\\';
      assert e == ['\\', e[1]];
      BodyLengthBackslash(e[1], rest);
    } else if c < ' ' {
      var hi, lo := c as int / 16, c as int % 16;
      HexRoundTrip(hi);
      HexRoundTrip(lo);
      var t := e + rest;
      assert e == ['\\', 'u', '0', '0', HexDigit(hi), HexDigit(lo)];
      assert t[6..] == rest;
      BodyLengthUnicode(t);
    } else {
      assert e == [c];
      BodyLengthPlain(c, rest);
    }
  }

  /** The body `JSON.stringify` writes for s ends exactly at the closing quote. */
  lemma {:induction false} BodyLengthOfEscape(s: string, after: string)
    requires after != [] && after[0] == '"'
    ensures StringBodyLength(JsonEscape(s) + after) == |JsonEscape(s)|
  {
    if s == [] {
      assert JsonEscape(s) + after == after;
    } else {
      var tail := JsonEscape(s[1..]) + after;
      EscapeThen(s, after);
      BodyLengthOfEscapeChar(s[0], tail);
      BodyLengthOfEscape(s[1..], after);
    }
  }

  /** The escape of s, then more text: the first character's escape comes first. */
  lemma EscapeThen(s: string, after: string)
    requires s != []
    ensures JsonEscape(s) + after == JsonEscapeChar(s[0]) + (JsonEscape(s[1..]) + after)
  {
  }

  /** Decoding what `JSON.stringify` writes gives back the original string. */
  lemma {:induction false} JsonEscapeRoundTrip(s: string)
    ensures JsonUnescape(JsonEscape(s)) == Some(s)
  {
    if s != [] {
      UnescapeChar(s[0], JsonEscape(s[1..]));
      JsonEscapeRoundTrip(s[1..]);
      assert [s[0]] + s[1..] == s;
    }
  }
}
