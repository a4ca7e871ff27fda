/**
 * The JSON text of one log record. `_write_messages` writes
 * `json.dumps({"type": ..., "content": ..., "kwargs": ...})` and `_load_messages`
 * reads it back with `json.loads`. Encoding follows `json.dumps` with its
 * defaults (", " and ": " separators, `ensure_ascii`, lower-case `\uXXXX`
 * escapes, surrogate pairs above the Basic Multilingual Plane); decoding
 * accepts that canonical layout, with the escapes and the strictness about raw
 * control characters of `json.loads`.
 */
module Json {
  import opened Wrappers
  import opened Dicts
  import opened Text

  /** The JSON values a message's `additional_kwargs` hold in this model. */
  datatype Value = Null | Bool(b: bool) | Int(i: int) | Str(s: string)

  /** The object written for one message: its `type`, `content` and `kwargs`. */
  datatype Record = Record(tag: string, content: string, kwargs: Dict<Value>)

  // ---------------------------------------------------------------- hex digits

  function HexDigit(d: nat): (c: char)
    requires d < 16
    ensures c != '\n'
  {
    if d < 10 then ('0' as int + d) as char else ('a' as int + d - 10) as char
  }

  function HexValue(c: char): (r: Option<nat>)
    ensures r.Some? ==> r.value < 16
  {
    if '0' <= c <= '9' then Some(c as int - '0' as int)
    else if 'a' <= c <= 'f' then Some(c as int - 'a' as int + 10)
    else if 'A' <= c <= 'F' then Some(c as int - 'A' as int + 10)
    else None
  }

  /** The four lower-case hex digits of a `\uXXXX` escape. */
  function Hex4(n: nat): (r: string)
    requires n < 0x10000
    ensures |r| == 4 && '\n' !in r
  {
    var m1 := n / 16;
    var m2 := m1 / 16;
    [HexDigit(m2 / 16), HexDigit(m2 % 16), HexDigit(m1 % 16), HexDigit(n % 16)]
  }

  function ParseHex4(s: string): (r: Option<nat>)
    ensures r.Some? ==> |s| >= 4 && r.value < 0x10000
  {
    if |s| < 4 then None
    else
      var a :- HexValue(s[0]);
      var b :- HexValue(s[1]);
      var c :- HexValue(s[2]);
      var d :- HexValue(s[3]);
      Some(((a * 16 + b) * 16 + c) * 16 + d)
  }

  lemma HexDigitValue(d: nat)
    requires d < 16
    ensures HexValue(HexDigit(d)) == Some(d)
  {
  }

  lemma Hex4RoundTrip(n: nat, rest: string)
    requires n < 0x10000
    ensures ParseHex4(Hex4(n) + rest) == Some(n)
  {
    var m1 := n / 16;
    var m2 := m1 / 16;
    HexDigitValue(m2 / 16);
    HexDigitValue(m2 % 16);
    HexDigitValue(m1 % 16);
    HexDigitValue(n % 16);
    var s := Hex4(n) + rest;
    assert s[0] == HexDigit(m2 / 16) && s[1] == HexDigit(m2 % 16);
    assert s[2] == HexDigit(m1 % 16) && s[3] == HexDigit(n % 16);
  }

  // ---------------------------------------------------------------- strings

  /** How `json.dumps` writes one character inside a string. */
  function EscapeChar(c: char): (r: string)
    ensures r != [] && '\n' !in r
  {
    var n := c as int;
    if c == '"' then "\\\""
    else if c == '\\' then "\\\\"
    else if c == '\n' then "\\n"
    else if c == '\r' then "\\r"
    else if c == '\t' then "\\t"
    else if n == 0x08 then "\\b"
    else if n == 0x0c then "\\f"
    else if 0x20 <= n < 0x7f then [c]
    else if n < 0x10000 then "\\" + ("u" + Hex4(n))
    else "\\" + ("u" + Hex4(HighSurrogate(n)) + ("\\u" + Hex4(LowSurrogate(n))))
  }

  /** The UTF-16 surrogate pair of a code point above the Basic Multilingual Plane. */
  function HighSurrogate(n: nat): (h: nat)
    requires 0x10000 <= n < 0x110000
    ensures 0xd800 <= h < 0xdc00
  {
    0xd800 + (n - 0x10000) / 0x400
  }

  function LowSurrogate(n: nat): (l: nat)
    requires 0x10000 <= n < 0x110000
    ensures 0xdc00 <= l < 0xe000
  {
    0xdc00 + (n - 0x10000) % 0x400
  }

  /** The code point a surrogate pair stands for. */
  function CombineSurrogates(hi: nat, lo: nat): (n: nat)
    requires 0xd800 <= hi < 0xdc00 && 0xdc00 <= lo < 0xe000
    ensures 0x10000 <= n < 0x110000
  {
    0x10000 + (hi - 0xd800) * 0x400 + (lo - 0xdc00)
  }

  lemma SurrogatesRoundTrip(n: nat)
    requires 0x10000 <= n < 0x110000
    ensures CombineSurrogates(HighSurrogate(n), LowSurrogate(n)) == n
  {
  }

  function EscapeString(s: string): (r: string)
    ensures '\n' !in r
  {
    if s == [] then []
    else
      EscapeChar(s[0]) + EscapeString(s[1..])
  }

  /** A JSON string literal. */
  function Quote(s: string): (r: string)
    ensures |r| >= 2 && r[0] == '"' && '\n' !in r
  {
    "\"" + EscapeString(s) + "\""
  }

  /** The character an escape sequence (after its backslash) stands for. */
  function ParseEscape(s: string): (r: Option<(char, string)>)
    ensures r.Some? ==> |r.value.1| < |s|
  {
    if s == [] then None
    else if s[0] == '"' then Some(('"', s[1..]))
    else if s[0] == '\\' then Some(('\\', s[1..]))
    else if s[0] == '/' then Some(('/', s[1..]))
    else if s[0] == 'b' then Some((0x08 as char, s[1..]))
    else if s[0] == 'f' then Some((0x0c as char, s[1..]))
    else if s[0] == 'n' then Some(('\n', s[1..]))
    else if s[0] == 'r' then Some(('\r', s[1..]))
    else if s[0] == 't' then Some(('\t', s[1..]))
    else if s[0] == 'u' then
      var hi :- ParseHex4(s[1..]);
      if 0xd800 <= hi < 0xdc00 then
        if |s| >= 7 && s[5] == '\\' && s[6] == 'u' then
          var lo :- ParseHex4(s[7..]);
          if 0xdc00 <= lo < 0xe000 then Some((CombineSurrogates(hi, lo) as char, s[11..]))
          else None
        else None
      else if 0xdc00 <= hi < 0xe000 then None
      else Some((hi as char, s[5..]))
    else None
  }

  /** The body of a string literal up to its closing quote, and what follows. */
  function ParseChars(s: string): (r: Option<(string, string)>)
    ensures r.Some? ==> |r.value.1| < |s|
    decreases |s|
  {
    if s == [] then None
    else if s[0] == '"' then Some(([], s[1..]))
    else if s[0] == '\\' then
      var e :- ParseEscape(s[1..]);
      var t :- ParseChars(e.1);
      Some(([e.0] + t.0, t.1))
    else if s[0] as int < 0x20 then None
    else
      var t :- ParseChars(s[1..]);
      Some(([s[0]] + t.0, t.1))
  }

  function ParseString(s: string): (r: Option<(string, string)>)
    ensures r.Some? ==> |r.value.1| < |s|
  {
    if s != [] && s[0] == '"' then ParseChars(s[1..]) else None
  }

  lemma ShortEscapeRoundTrip(c: char, x: char, rest: string)
    requires ParseEscape([x] + rest) == Some((c, rest))
    ensures ParseChars(['\\', x] + rest) == (match ParseChars(rest)
      case None => None
      case Some(t) => Some(([c] + t.0, t.1)))
  {
    assert (['\\', x] + rest)[1..] == [x] + rest;
  }

  lemma BmpEscapeRoundTrip(n: nat, rest: string)
    requires n < 0x10000 && (n < 0xd800 || 0xe000 <= n)
    ensures ParseEscape("u" + Hex4(n) + rest) == Some((n as char, rest))
  {
    var e := "u" + Hex4(n) + rest;
    assert e[1..] == Hex4(n) + rest;
    Hex4RoundTrip(n, rest);
    assert e[5..] == rest;
  }

  lemma AstralEscapeRoundTrip(hi: nat, lo: nat, rest: string)
    requires 0xd800 <= hi < 0xdc00 && 0xdc00 <= lo < 0xe000
    ensures ParseEscape("u" + Hex4(hi) + ("\\u" + Hex4(lo)) + rest)
      == Some((CombineSurrogates(hi, lo) as char, rest))
  {
    var t := "\\u" + Hex4(lo) + rest;
    var e := "u" + Hex4(hi) + ("\\u" + Hex4(lo)) + rest;
    assert e == "u" + (Hex4(hi) + t) by {
      Assoc("u" + Hex4(hi), "\\u" + Hex4(lo), rest);
      Assoc("u", Hex4(hi), t);
    }
    Hex4RoundTrip(hi, t);
    assert e[5..] == t;
    assert t[2..] == Hex4(lo) + rest;
    Hex4RoundTrip(lo, rest);
    assert e[7..] == Hex4(lo) + rest;
    assert e[11..] == rest;
  }

  lemma RawCharRoundTrip(c: char, rest: string, t: string, after: string)
    requires 0x20 <= c as int < 0x7f && c != '"' && c != '\\'
    requires ParseChars(rest) == Some((t, after))
    ensures ParseChars(EscapeChar(c) + rest) == Some(([c] + t, after))
  {
    assert EscapeChar(c) == [c];
    assert ([c] + rest)[1..] == rest;
  }

  lemma ShortCharRoundTrip(c: char, rest: string, t: string, after: string)
    requires c == '"' || c == '\\' || c == '\n' || c == '\r' || c == '\t' || c as int == 0x08 || c as int == 0x0c
    requires ParseChars(rest) == Some((t, after))
    ensures ParseChars(EscapeChar(c) + rest) == Some(([c] + t, after))
  {
    var x := EscapeChar(c)[1];
    assert EscapeChar(c) == ['\\', x];
    assert ParseEscape([x] + rest) == Some((c, rest));
    ShortEscapeRoundTrip(c, x, rest);
  }

  lemma BmpCharRoundTrip(c: char, rest: string, t: string, after: string)
    requires 0x7f <= c as int < 0x10000 || (c as int < 0x20 && c != '\n' && c != '\r' && c != '\t'
      && c as int != 0x08 && c as int != 0x0c)
    requires ParseChars(rest) == Some((t, after))
    ensures ParseChars(EscapeChar(c) + rest) == Some(([c] + t, after))
  {
    var n := c as int;
    var e := "u" + Hex4(n);
    assert EscapeChar(c) == "\\" + e;
    BmpEscapeRoundTrip(n, rest);
    EscapeHead(e, rest);
    EscapeStep(EscapeChar(c) + rest, c, rest, t, after);
  }

  lemma AstralCharRoundTrip(c: char, rest: string, t: string, after: string)
    requires 0x10000 <= c as int
    requires ParseChars(rest) == Some((t, after))
    ensures ParseChars(EscapeChar(c) + rest) == Some(([c] + t, after))
  {
    var n := c as int;
    var hi, lo := HighSurrogate(n), LowSurrogate(n);
    var e := "u" + Hex4(hi) + ("\\u" + Hex4(lo));
    assert EscapeChar(c) == "\\" + e;
    EscapeHead(e, rest);
    AstralEscapeRoundTrip(hi, lo, rest);
    SurrogatesRoundTrip(n);
    EscapeStep(EscapeChar(c) + rest, c, rest, t, after);
  }

  /** A backslash, the escape `e`, then `rest`. */
  lemma EscapeHead(e: string, rest: string)
    ensures ("\\" + e + rest)[0] == '\\'
    ensures ("\\" + e + rest)[1..] == e + rest
  {
    assert ("\\" + e + rest)[1..] == e + rest;
  }

  /** An escape sequence followed by the rest of a string literal. */
  lemma EscapeStep(s: string, c: char, r: string, t: string, after: string)
    requires s != [] && s[0] == '\\'
    requires ParseEscape(s[1..]) == Some((c, r)) && ParseChars(r) == Some((t, after))
    ensures ParseChars(s) == Some(([c] + t, after))
  {
  }

  /** Each character's escape reads back as that character. */
  lemma EscapeCharRoundTrip(c: char, rest: string, t: string, after: string)
    requires ParseChars(rest) == Some((t, after))
    ensures ParseChars(EscapeChar(c) + rest) == Some(([c] + t, after))
  {
    var n := c as int;
    if c == '"' || c == '\\' || c == '\n' || c == '\r' || c == '\t' || n == 0x08 || n == 0x0c {
      ShortCharRoundTrip(c, rest, t, after);
    } else if 0x20 <= n < 0x7f {
      RawCharRoundTrip(c, rest, t, after);
    } else if n < 0x10000 {
      BmpCharRoundTrip(c, rest, t, after);
    } else {
      AstralCharRoundTrip(c, rest, t, after);
    }
  }

  lemma {:induction false} CharsRoundTrip(s: string, rest: string)
    ensures ParseChars(EscapeString(s) + "\"" + rest) == Some((s, rest))
  {
    if s == [] {
      assert EscapeString(s) + "\"" + rest == "\"" + rest;
      assert ("\"" + rest)[1..] == rest;
    } else {
      var tail := EscapeString(s[1..]) + "\"" + rest;
      CharsRoundTrip(s[1..], rest);
      EscapeCharRoundTrip(s[0], tail, s[1..], rest);
      assert EscapeString(s) + "\"" + rest == EscapeChar(s[0]) + tail;
      assert [s[0]] + s[1..] == s;
    }
  }

  lemma StringRoundTrip(s: string, rest: string)
    ensures ParseString(Quote(s) + rest) == Some((s, rest))
  {
    CharsRoundTrip(s, rest);
    assert (Quote(s) + rest)[1..] == EscapeString(s) + "\"" + rest;
  }

  // ---------------------------------------------------------------- numbers

  predicate IsDigit(c: char) { '0' <= c <= '9' }

  function DigitChar(d: nat): (c: char)
    requires d < 10
    ensures IsDigit(c)
  {
    ('0' as int + d) as char
  }

  /** The decimal digits of `n`, without leading zeros. */
  function NatText(n: nat): (r: string)
    ensures r != [] && forall i :: 0 <= i < |r| ==> IsDigit(r[i])
    ensures n > 0 ==> r[0] != '0'
  {
    (if n < 10 then [] else NatText(n / 10)) + [DigitChar(n % 10)]
  }

  function IntText(i: int): string {
    if i < 0 then "-" + NatText(-i) else NatText(i)
  }

  /** The length of the run of digits at the start of `s`. */
  function DigitRun(s: string): (k: nat)
    ensures k <= |s|
  {
    if s != [] && IsDigit(s[0]) then 1 + DigitRun(s[1..]) else 0
  }

  function DigitsValue(ds: string): nat
    requires forall i :: 0 <= i < |ds| ==> IsDigit(ds[i])
  {
    if ds == [] then 0
    else
      assert IsDigit(ds[|ds| - 1]);
      DigitsValue(ds[..|ds| - 1]) * 10 + (ds[|ds| - 1] as int - '0' as int)
  }

  /** A JSON natural number: `0`, or a digit run that does not start with `0`. */
  function ParseNat(s: string): (r: Option<(nat, string)>)
    ensures r.Some? ==> |r.value.1| < |s|
  {
    var k := DigitRun(s);
    if k == 0 then None
    else if s[0] == '0' then Some((0, s[1..]))
    else
      assert forall i :: 0 <= i < k ==> IsDigit(s[..k][i]) by {
        DigitRunDigits(s);
      }
      Some((DigitsValue(s[..k]), s[k..]))
  }

  function ParseInt(s: string): (r: Option<(int, string)>)
    ensures r.Some? ==> |r.value.1| < |s|
  {
    if s != [] && s[0] == '-' then
      var p :- ParseNat(s[1..]);
      var i: int := 0 - p.0 as int;
      Some((i, p.1))
    else
      var p :- ParseNat(s);
      Some((p.0 as int, p.1))
  }

  lemma {:induction false} DigitRunDigits(s: string)
    ensures forall i :: 0 <= i < DigitRun(s) ==> IsDigit(s[i])
  {
    if s != [] && IsDigit(s[0]) {
      DigitRunDigits(s[1..]);
    }
  }

  lemma {:induction false} DigitRunOf(ds: string, rest: string)
    requires forall i :: 0 <= i < |ds| ==> IsDigit(ds[i])
    requires rest == [] || !IsDigit(rest[0])
    ensures DigitRun(ds + rest) == |ds|
  {
    if ds == [] {
      assert ds + rest == rest;
    } else {
      DigitRunOf(ds[1..], rest);
      assert (ds + rest)[1..] == ds[1..] + rest;
    }
  }

  lemma {:induction false} NatTextValue(n: nat)
    ensures DigitsValue(NatText(n)) == n
  {
    var p := if n < 10 then [] else NatText(n / 10);
    var d := n % 10;
    assert NatText(n) == p + [DigitChar(d)];
    DigitsValueSnoc(p, DigitChar(d));
    if n >= 10 {
      NatTextValue(n / 10);
    }
  }

  /** Appending a digit multiplies the value so far by ten and adds the digit. */
  lemma DigitsValueSnoc(p: string, c: char)
    requires forall i :: 0 <= i < |p| ==> IsDigit(p[i])
    requires IsDigit(c)
    ensures forall i :: 0 <= i < |p + [c]| ==> IsDigit((p + [c])[i])
    ensures DigitsValue(p + [c]) == DigitsValue(p) * 10 + (c as int - '0' as int)
  {
    assert (p + [c])[..|p|] == p;
  }

  lemma NatRoundTrip(n: nat, rest: string)
    requires rest == [] || !IsDigit(rest[0])
    ensures ParseNat(NatText(n) + rest) == Some((n, rest))
  {
    var t := NatText(n);
    var s := t + rest;
    DigitRunOf(t, rest);
    assert s[..|t|] == t && s[|t|..] == rest;
    if n == 0 {
      assert t == "0";
      assert s[1..] == rest;
    } else {
      NatTextValue(n);
    }
  }

  // ---------------------------------------------------------------- values and objects

  function EncodeValue(v: Value): (r: string)
    ensures r != [] && '\n' !in r
  {
    match v
    case Null => "null"
    case Bool(b) => if b then "true" else "false"
    case Int(i) => IntText(i)
    case Str(s) => Quote(s)
  }

  function ParseValue(s: string): (r: Option<(Value, string)>)
    ensures r.Some? ==> |r.value.1| < |s|
  {
    if s == [] then None
    else if s[0] == 'n' then (if StartsWith("null", s) then Some((Null, s[4..])) else None)
    else if s[0] == 't' then (if StartsWith("true", s) then Some((Bool(true), s[4..])) else None)
    else if s[0] == 'f' then (if StartsWith("false", s) then Some((Bool(false), s[5..])) else None)
    else if s[0] == '"' then
      var p :- ParseChars(s[1..]);
      Some((Str(p.0), p.1))
    else
      var p :- ParseInt(s);
      Some((Int(p.0), p.1))
  }

  lemma LiteralRoundTrip(v: Value, rest: string)
    requires v.Null? || v.Bool?
    ensures ParseValue(EncodeValue(v) + rest) == Some((v, rest))
  {
    var t := EncodeValue(v);
    var s := t + rest;
    StartsWithAppend(t, rest);
    assert s[|t|..] == rest;
  }

  lemma IntRoundTrip(i: int, rest: string)
    requires rest == [] || !IsDigit(rest[0])
    ensures ParseInt(IntText(i) + rest) == Some((i, rest))
  {
    if i < 0 {
      NegativeRoundTrip(i, rest);
    } else {
      NatRoundTrip(i, rest);
      assert IsDigit((NatText(i) + rest)[0]);
    }
  }

  lemma NegativeRoundTrip(i: int, rest: string)
    requires i < 0
    requires rest == [] || !IsDigit(rest[0])
    ensures ParseInt(IntText(i) + rest) == Some((i, rest))
  {
    var t := NatText(-i) + rest;
    NatRoundTrip(-i, rest);
    assert IntText(i) + rest == "-" + t by {
      Assoc("-", NatText(-i), rest);
    }
    NegativeText(t);
  }

  lemma NegativeText(t: string)
    ensures ParseInt("-" + t) == (var p :- ParseNat(t); Some((0 - p.0 as int, p.1)))
  {
    assert ("-" + t)[1..] == t;
  }

  lemma IntValueRoundTrip(i: int, rest: string)
    requires rest == [] || !IsDigit(rest[0])
    ensures ParseValue(EncodeValue(Int(i)) + rest) == Some((Int(i), rest))
  {
    var s := IntText(i) + rest;
    IntRoundTrip(i, rest);
    assert s[0] == '-' || IsDigit(s[0]);
  }

  lemma StrValueRoundTrip(t: string, rest: string)
    ensures ParseValue(EncodeValue(Str(t)) + rest) == Some((Str(t), rest))
  {
    var s := Quote(t) + rest;
    CharsRoundTrip(t, rest);
    assert s[0] == '"';
    assert s[1..] == EscapeString(t) + "\"" + rest;
  }

  lemma ValueRoundTrip(v: Value, rest: string)
    requires rest == [] || !IsDigit(rest[0])
    ensures ParseValue(EncodeValue(v) + rest) == Some((v, rest))
  {
    match v
    case Null => LiteralRoundTrip(v, rest);
    case Bool(_) => LiteralRoundTrip(v, rest);
    case Int(i) => IntValueRoundTrip(i, rest);
    case Str(t) => StrValueRoundTrip(t, rest);
  }

  /** `s.startswith(p)`, compared one character at a time. */
  predicate StartsWith(p: string, s: string)
    ensures StartsWith(p, s) ==> |p| <= |s|
  {
    p == [] || (s != [] && p[0] == s[0] && StartsWith(p[1..], s[1..]))
  }

  lemma {:induction false} StartsWithAppend(p: string, rest: string)
    ensures StartsWith(p, p + rest)
  {
    if p != [] {
      assert (p + rest)[1..] == p[1..] + rest;
      StartsWithAppend(p[1..], rest);
    }
  }

  /** The rest of `s` after the literal `lit`, which `json.loads` requires there. */
  function Expect(lit: string, s: string): (r: Option<string>)
    ensures r.Some? ==> |r.value| == |s| - |lit|
  {
    if StartsWith(lit, s) then Some(s[|lit|..]) else None
  }

  lemma ExpectRoundTrip(lit: string, rest: string)
    ensures Expect(lit, lit + rest) == Some(rest)
  {
    StartsWithAppend(lit, rest);
    assert (lit + rest)[|lit|..] == rest;
  }

  function EncodeMember(k: string, v: Value): (r: string)
    ensures r != [] && r[0] == '"' && '\n' !in r
  {
    Quote(k) + (": " + EncodeValue(v))
  }

  function EncodeMembers(d: seq<(string, Value)>): (r: string)
    ensures d != [] ==> r != [] && r[0] == '"'
    ensures '\n' !in r
  {
    if d == [] then []
    else if |d| == 1 then EncodeMember(d[0].0, d[0].1)
    else
      EncodeMember(d[0].0, d[0].1) + (", " + EncodeMembers(d[1..]))
  }

  function EncodeObject(d: Dict<Value>): (r: string)
    ensures r != [] && r[0] == '{' && '\n' !in r
  {
    "{" + (EncodeMembers(d) + "}")
  }

  /**
   * The members of an object after its `{`; repeated keys keep the first
   * position and the last value, as in the dictionary `json.loads` builds.
   */
  function ParseMembers(s: string, acc: Dict<Value>): (r: Option<(Dict<Value>, string)>)
    ensures r.Some? ==> |r.value.1| < |s|
    decreases |s|
  {
    var key :- ParseString(s);
    var s1 :- Expect(": ", key.1);
    var val :- ParseValue(s1);
    var acc' := Put(acc, key.0, val.0);
    if StartsWith(", ", val.1) then ParseMembers(val.1[2..], acc')
    else if StartsWith("}", val.1) then Some((acc', val.1[1..]))
    else None
  }

  function ParseObject(s: string): (r: Option<(Dict<Value>, string)>)
    ensures r.Some? ==> |r.value.1| < |s|
  {
    if StartsWith("{}", s) then Some(([], s[2..]))
    else if StartsWith("{", s) then ParseMembers(s[1..], [])
    else None
  }

  /** One member parsed: what `ParseMembers` does after a key, a colon and a value. */
  lemma MembersStep(s: string, acc: Dict<Value>, k: string, s1: string, s2: string, v: Value, after: string)
    requires ParseString(s) == Some((k, s1))
    requires Expect(": ", s1) == Some(s2)
    requires ParseValue(s2) == Some((v, after))
    ensures ParseMembers(s, acc) ==
      if StartsWith(", ", after) then ParseMembers(after[2..], Put(acc, k, v))
      else if StartsWith("}", after) then Some((Put(acc, k, v), after[1..]))
      else None
  {
  }

  /** What follows the first member's value in the text of `d` closed by `}`. */
  function MembersAfter(d: seq<(string, Value)>, rest: string): string
    requires d != []
  {
    if |d| == 1 then "}" + rest else ", " + (EncodeMembers(d[1..]) + "}" + rest)
  }

  lemma MembersLayout(d: seq<(string, Value)>, rest: string)
    requires d != []
    ensures EncodeMembers(d) + "}" + rest
      == Quote(d[0].0) + (": " + (EncodeValue(d[0].1) + MembersAfter(d, rest)))
  {
    var q, e := Quote(d[0].0), EncodeValue(d[0].1);
    var x := if |d| == 1 then "}" else ", " + (EncodeMembers(d[1..]) + "}");
    assert EncodeMembers(d) + "}" == q + (": " + (e + x)) by {
      if |d| == 1 {
        Assoc(q, ": " + e, "}");
        Assoc(": ", e, "}");
      } else {
        var m := EncodeMembers(d[1..]);
        Assoc(q, ": " + e, ", " + m);
        Assoc(": ", e, ", " + m);
        Assoc(e, ", " + m, "}");
        Assoc(": ", e + (", " + m), "}");
        Assoc(q, ": " + (e + (", " + m)), "}");
        Assoc(", ", m, "}");
      }
    }
    assert MembersAfter(d, rest) == x + rest by {
      if |d| > 1 {
        Assoc(", ", EncodeMembers(d[1..]) + "}", rest);
      }
    }
    Assoc(q, ": " + (e + x), rest);
    Assoc(": ", e + x, rest);
    Assoc(e, x, rest);
  }

  lemma FirstMember(d: seq<(string, Value)>, acc: Dict<Value>, rest: string)
    requires d != []
    ensures var after := MembersAfter(d, rest);
      ParseMembers(EncodeMembers(d) + "}" + rest, acc) ==
        if StartsWith(", ", after) then ParseMembers(after[2..], Put(acc, d[0].0, d[0].1))
        else if StartsWith("}", after) then Some((Put(acc, d[0].0, d[0].1), after[1..]))
        else None
  {
    var k, v, after := d[0].0, d[0].1, MembersAfter(d, rest);
    var s := EncodeMembers(d) + "}" + rest;
    MembersLayout(d, rest);
    StringRoundTrip(k, ": " + (EncodeValue(v) + after));
    ExpectRoundTrip(": ", EncodeValue(v) + after);
    ValueRoundTrip(v, after);
    MembersStep(s, acc, k, ": " + (EncodeValue(v) + after), EncodeValue(v) + after, v, after);
  }

  /** A key that comes later in a dictionary is new to the part before it. */
  lemma PutFresh(acc: Dict<Value>, d: seq<(string, Value)>)
    requires d != [] && DistinctKeys(acc + d)
    ensures Put(acc, d[0].0, d[0].1) == acc + [d[0]]
  {
    assert Lookup(acc, d[0].0).None? by {
      forall i | 0 <= i < |acc| ensures acc[i].0 != d[0].0 {
        assert (acc + d)[i] == acc[i] && (acc + d)[|acc|] == d[0];
      }
    }
  }

  lemma LastMember(d: seq<(string, Value)>, acc: Dict<Value>, rest: string)
    requires |d| == 1
    ensures ParseMembers(EncodeMembers(d) + "}" + rest, acc) == Some((Put(acc, d[0].0, d[0].1), rest))
  {
    FirstMember(d, acc, rest);
    StartsWithAppend("}", rest);
    assert MembersAfter(d, rest)[1..] == rest;
  }

  lemma NextMember(d: seq<(string, Value)>, acc: Dict<Value>, rest: string)
    requires |d| > 1
    ensures ParseMembers(EncodeMembers(d) + "}" + rest, acc)
      == ParseMembers(EncodeMembers(d[1..]) + "}" + rest, Put(acc, d[0].0, d[0].1))
  {
    FirstMember(d, acc, rest);
    StartsWithAppend(", ", EncodeMembers(d[1..]) + "}" + rest);
    assert MembersAfter(d, rest)[2..] == EncodeMembers(d[1..]) + "}" + rest;
  }

  lemma {:induction false} MembersRoundTrip(d: seq<(string, Value)>, acc: Dict<Value>, rest: string)
    requires d != [] && DistinctKeys(acc + d)
    ensures ParseMembers(EncodeMembers(d) + "}" + rest, acc) == Some((acc + d, rest))
  {
    PutFresh(acc, d);
    var acc' := Put(acc, d[0].0, d[0].1);
    assert acc' + d[1..] == acc + d;
    if |d| == 1 {
      assert acc' == acc + d;
      LastMember(d, acc, rest);
    } else {
      NextMember(d, acc, rest);
      MembersRoundTrip(d[1..], acc', rest);
    }
  }

  lemma ObjectRoundTrip(d: Dict<Value>, rest: string)
    ensures ParseObject(EncodeObject(d) + rest) == Some((d, rest))
  {
    if d == [] {
      var s := EncodeObject(d) + rest;
      assert s == "{}" + rest;
      StartsWithAppend("{}", rest);
      assert s[2..] == rest;
    } else {
      var t := EncodeMembers(d) + "}" + rest;
      assert EncodeObject(d) + rest == "{" + t by {
        Assoc("{", EncodeMembers(d) + "}", rest);
      }
      ObjectStep(t);
      assert [] + d == d;
      MembersRoundTrip(d, [], rest);
    }
  }

  /** After an opening brace, a quote starts the first member. */
  lemma ObjectStep(t: string)
    requires t != [] && t[0] == '"'
    ensures ParseObject("{" + t) == ParseMembers(t, [])
  {
    StartsWithAppend("{", t);
    assert ("{" + t)[1..] == t;
    assert "{}"[1..] == "}" && !StartsWith("}", t);
  }

  // ---------------------------------------------------------------- records

  /** One line of the log, without its newline. */
  function EncodeRecord(r: Record): (line: string)
    ensures '\n' !in line
    ensures |line| >= 2 && line[0] == '{' && line[|line| - 1] == '}'
  {
    var t3 := EncodeObject(r.kwargs) + "}";
    var t2 := ", \"kwargs\": " + t3;
    var t1 := Quote(r.content) + t2;
    var t0 := ", \"content\": " + t1;
    var tag := Quote(r.tag) + t0;
    var line := "{\"type\": " + tag;
    ConcatKeepsLast(EncodeObject(r.kwargs), "}");
    ConcatKeepsLast(", \"kwargs\": ", t3);
    ConcatKeepsLast(Quote(r.content), t2);
    ConcatKeepsLast(", \"content\": ", t1);
    ConcatKeepsLast(Quote(r.tag), t0);
    ConcatKeepsLast("{\"type\": ", tag);
    line
  }

  /** What a concatenation keeps of its parts: no newline, and the last character. */
  lemma ConcatKeepsLast(a: string, b: string)
    requires '\n' !in a && '\n' !in b && b != []
    ensures '\n' !in a + b && (a + b)[|a + b| - 1] == b[|b| - 1]
  {
  }

  /** JSON white space, which `json.loads` allows around the document. */
  predicate IsJsonSpace(c: char) { c == ' ' || c == '\t' || c == '\n' || c == '\r' }

  function SkipSpace(s: string): (r: string)
    ensures |r| <= |s|
  {
    if s != [] && IsJsonSpace(s[0]) then SkipSpace(s[1..]) else s
  }

  lemma NoLeadingSpace(s: string)
    requires s != [] && !IsJsonSpace(s[0])
    ensures SkipSpace(s) == s
  {
  }

  /** `json.loads(line)` read as a log record; `None` where it raises or a key is missing. */
  function DecodeRecord(line: string): (r: Option<Record>)
    ensures SkipSpace(line) == [] ==> r.None?
    ensures r.Some? ==> StartsWith("{\"type\": ", SkipSpace(line))
  {
    var s0 :- Expect("{\"type\": ", SkipSpace(line));
    var tag :- ParseString(s0);
    var s1 :- Expect(", \"content\": ", tag.1);
    var content :- ParseString(s1);
    var s2 :- Expect(", \"kwargs\": ", content.1);
    var kwargs :- ParseObject(s2);
    if StartsWith("}", kwargs.1) && SkipSpace(kwargs.1[1..]) == [] then
      Some(Record(tag.0, content.0, kwargs.0))
    else None
  }

  /** Decoding recovers every record that encoding wrote. */
  lemma RecordRoundTrip(r: Record)
    ensures DecodeRecord(EncodeRecord(r)) == Some(r)
  {
    var t2 := EncodeObject(r.kwargs) + "}";
    var t1 := Quote(r.content) + (", \"kwargs\": " + t2);
    var t0 := Quote(r.tag) + (", \"content\": " + t1);
    var line := "{\"type\": " + t0;
    assert EncodeRecord(r) == line;
    NoLeadingSpace(line);
    ExpectRoundTrip("{\"type\": ", t0);
    StringRoundTrip(r.tag, ", \"content\": " + t1);
    ExpectRoundTrip(", \"content\": ", t1);
    StringRoundTrip(r.content, ", \"kwargs\": " + t2);
    ExpectRoundTrip(", \"kwargs\": ", t2);
    ObjectRoundTrip(r.kwargs, "}");
    StartsWithAppend("}", []);
    assert "}" + [] == "}";
    assert "}"[1..] == [];
  }
}
