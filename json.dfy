/**
 * The JavaScript values the dashboard keeps in its settings and the JSON text
 * it reads and writes through `JSON.stringify` and `JSON.parse`.
 *
 * `Stringify` is total and emits the canonical form (no whitespace, the
 * escapes `JSON.stringify` uses); `Parse` is partial and accepts that form
 * with insignificant whitespace. `ParseStringify` proves the round trip.
 */
module Json {
  import opened Wrappers

  /** A JSON-representable JavaScript value; numbers are integers here. */
  datatype Json =
    | JNull
    | JBool(b: bool)
    | JNum(n: int)
    | JStr(s: string)
    | JArr(items: seq<Json>)
    | JObj(members: seq<Member>)

  /** One property of an object, in source order. */
  datatype Member = Member(key: string, value: Json)

  // ---------------------------------------------------------------------
  // Characters

  predicate IsDigit(c: char) { '0' <= c <= '9' }

  /** The whitespace JSON allows between tokens. */
  predicate IsWs(c: char) { c == ' ' || c == '\t' || c == '\n' || c == '\r' }

  predicate IsHex(c: char) { '0' <= c <= '9' || 'a' <= c <= 'f' || 'A' <= c <= 'F' }

  function DigitChar(d: nat): (c: char)
    requires d < 10
    ensures IsDigit(c) && c as int - '0' as int == d
  {
    ('0' as int + d) as char
  }

  /** Lower-case hexadecimal digit, as `JSON.stringify` writes `\u00XX`. */
  function HexChar(d: nat): (c: char)
    requires d < 16
    ensures IsHex(c) && HexVal(c) == d
  {
    if d < 10 then ('0' as int + d) as char else ('a' as int + d - 10) as char
  }

  function HexVal(c: char): (d: nat)
    requires IsHex(c)
    ensures d < 16
  {
    if '0' <= c <= '9' then c as int - '0' as int
    else if 'a' <= c <= 'f' then c as int - 'a' as int + 10
    else c as int - 'A' as int + 10
  }

  // ---------------------------------------------------------------------
  // JSON.stringify

  /** Decimal text of a natural number, most significant digit first. */
  function NatText(n: nat): (t: string)
    ensures |t| > 0
    ensures forall i :: 0 <= i < |t| ==> IsDigit(t[i])
    decreases n
  {
    if n < 10 then [DigitChar(n)] else NatText(n / 10) + [DigitChar(n % 10)]
  }

  /** Decimal text of an integer, as `String(n)` and `JSON.stringify(n)` give it. */
  function IntText(n: int): string
  {
    if n < 0 then "-" + NatText(-n) else NatText(n)
  }

  function EscapeChar(c: char): string
  {
    if c == '"' then "\\\""
    else if c == '\\' then "\\\\"
    else if c == '\n' then "\\n"
    else if c == '\r' then "\\r"
    else if c == '\t' then "\\t"
    else if c == 8 as char then "\\b"
    else if c == 12 as char then "\\f"
    else if (c as int) < 0x20 then "\\u00" + [HexChar(c as int / 16), HexChar(c as int % 16)]
    else [c]
  }

  function Escape(s: string): string
  {
    if |s| == 0 then "" else EscapeChar(s[0]) + Escape(s[1..])
  }

  function Quote(s: string): string
  {
    "\"" + Escape(s) + "\""
  }

  function Stringify(j: Json): string
    decreases j
  {
    match j
    case JNull => "null"
    case JBool(b) => if b then "true" else "false"
    case JNum(n) => IntText(n)
    case JStr(s) => Quote(s)
    case JArr(xs) => "[" + Items(xs) + "]"
    case JObj(ms) => "{" + Members(ms) + "}"
  }

  function Items(xs: seq<Json>): string
    decreases xs
  {
    if |xs| == 0 then ""
    else if |xs| == 1 then Stringify(xs[0])
    else Stringify(xs[0]) + "," + Items(xs[1..])
  }

  function MemberText(m: Member): string
    decreases m
  {
    Quote(m.key) + ":" + Stringify(m.value)
  }

  function Members(ms: seq<Member>): string
    decreases ms
  {
    if |ms| == 0 then ""
    else if |ms| == 1 then MemberText(ms[0])
    else MemberText(ms[0]) + "," + Members(ms[1..])
  }

  // ---------------------------------------------------------------------
  // JavaScript coercions of values

  /** JavaScript truthiness: `false`, `null`, `0` and `""` are falsy. */
  predicate Truthy(v: Json)
  {
    match v
    case JNull => false
    case JBool(b) => b
    case JNum(n) => n != 0
    case JStr(s) => s != ""
    case _ => true
  }

  /** `String(v)`: the text JavaScript substitutes where a string is expected. */
  function JsString(v: Json): string
    decreases v
  {
    match v
    case JNull => "null"
    case JBool(b) => if b then "true" else "false"
    case JNum(n) => IntText(n)
    case JStr(s) => s
    case JArr(xs) => Joined(xs)
    case JObj(_) => "[object Object]"
  }

  /** `xs.join(",")`: a null element contributes the empty text. */
  function Joined(xs: seq<Json>): string
    decreases xs
  {
    if |xs| == 0 then ""
    else
      var head := if xs[0].JNull? then "" else JsString(xs[0]);
      if |xs| == 1 then head else head + "," + Joined(xs[1..])
  }

  /** For scalars other than strings, `String(v)` and `JSON.stringify(v)` coincide. */
  lemma JsStringOfScalar(v: Json)
    requires v.JNull? || v.JBool? || v.JNum?
    ensures JsString(v) == Stringify(v)
  {
  }

  // ---------------------------------------------------------------------
  // JSON.parse, over the remaining input

  function SkipWs(s: string): (r: string)
    ensures |r| <= |s|
    ensures |r| > 0 ==> !IsWs(r[0])
  {
    if |s| > 0 && IsWs(s[0]) then SkipWs(s[1..]) else s
  }

  /** Number of leading decimal digits of `s`. */
  function DigitCount(s: string): (k: nat)
    ensures k <= |s|
    ensures forall i :: 0 <= i < k ==> IsDigit(s[i])
    ensures k < |s| ==> !IsDigit(s[k])
  {
    if |s| > 0 && IsDigit(s[0]) then 1 + DigitCount(s[1..]) else 0
  }

  function DigitsValue(ds: string): nat
    requires forall i :: 0 <= i < |ds| ==> IsDigit(ds[i])
  {
    if |ds| == 0 then 0
    else
      assert IsDigit(ds[|ds| - 1]);
      DigitsValue(ds[..|ds| - 1]) * 10 + (ds[|ds| - 1] as int - '0' as int)
  }

  /** An integer token; a leading `0` ends the token (JSON has no leading zeros). */
  function ParseNumber(s: string): (r: Option<(Json, string)>)
    ensures r.Some? ==> |r.value.1| < |s| && r.value.0.JNum?
  {
    var neg := |s| > 0 && s[0] == '-';
    var body := if neg then s[1..] else s;
    var k := if |body| > 0 && body[0] == '0' then 1 else DigitCount(body);
    if k == 0 then None
    else
      var v: int := DigitsValue(body[..k]);
      Some((JNum(if neg then -v else v), body[k..]))
  }

  /** Four hexadecimal digits start at position `i`. */
  predicate HexAt(s: string, i: nat)
  {
    i + 4 <= |s| && IsHex(s[i]) && IsHex(s[i + 1]) && IsHex(s[i + 2]) && IsHex(s[i + 3])
  }

  /** The UTF-16 code unit written by the four hexadecimal digits at position `i`. */
  function CodeAt(s: string, i: nat): (code: nat)
    requires HexAt(s, i)
    ensures code < 0x10000
  {
    ((HexVal(s[i]) * 16 + HexVal(s[i + 1])) * 16 + HexVal(s[i + 2])) * 16 + HexVal(s[i + 3])
  }

  /**
   * The character an escape sequence stands for and how many characters follow the backslash.
   * A high surrogate escape followed by a low surrogate escape is one supplementary character.
   */
  function Unescape(s: string): (r: Option<(char, nat)>)
    ensures r.Some? ==> 1 <= r.value.1 <= |s|
  {
    if |s| == 0 then None
    else if s[0] == '"' then Some(('"', 1))
    else if s[0] == '\\' then Some(('\\', 1))
    else if s[0] == '/' then Some(('/', 1))
    else if s[0] == 'b' then Some((8 as char, 1))
    else if s[0] == 'f' then Some((12 as char, 1))
    else if s[0] == 'n' then Some(('\n', 1))
    else if s[0] == 'r' then Some(('\r', 1))
    else if s[0] == 't' then Some(('\t', 1))
    else if s[0] == 'u' && HexAt(s, 1) then
      var hi := CodeAt(s, 1);
      if 0xD800 <= hi < 0xDC00 && 7 <= |s| && s[5] == '\\' && s[6] == 'u' && HexAt(s, 7)
         && 0xDC00 <= CodeAt(s, 7) < 0xE000
      then
        Some(((0x10000 + (hi - 0xD800) * 0x400 + (CodeAt(s, 7) - 0xDC00)) as char, 11))
      else if 0xD800 <= hi < 0xE000 then None
      else Some((hi as char, 5))
    else None
  }

  /** The four lower-case hexadecimal digits of a UTF-16 code unit. */
  function Hex4(n: nat): (t: string)
    requires n < 0x10000
    ensures |t| == 4 && HexAt(t, 0) && CodeAt(t, 0) == n
  {
    var n2 := n / 16;
    var n1 := n2 / 16;
    [HexChar(n1 / 16), HexChar(n1 % 16), HexChar(n2 % 16), HexChar(n % 16)]
  }

  /** Four digits written by Hex4 read back as their code unit wherever they sit. */
  lemma CodeAtHex4(s: string, i: nat, n: nat)
    requires n < 0x10000 && i + 4 <= |s| && s[i..i + 4] == Hex4(n)
    ensures HexAt(s, i) && CodeAt(s, i) == n
  {
    assert forall k :: 0 <= k < 4 ==> s[i + k] == Hex4(n)[k];
  }

  /** A supplementary character written as its UTF-16 surrogate pair of escapes reads back as that character. */
  lemma SurrogatePairUnescape(c: char, tail: string)
    requires c as int >= 0x10000
    ensures Unescape(['u'] + Hex4(0xD800 + (c as int - 0x10000) / 0x400) + ['\\', 'u']
                     + Hex4(0xDC00 + (c as int - 0x10000) % 0x400) + tail) == Some((c, 11))
  {
    var v := c as int - 0x10000;
    var hi, lo := 0xD800 + v / 0x400, 0xDC00 + v % 0x400;
    var s := ['u'] + Hex4(hi) + ['\\', 'u'] + Hex4(lo) + tail;
    assert s[1..5] == Hex4(hi) && s[7..11] == Hex4(lo) && s[5] == '\\' && s[6] == 'u';
    CodeAtHex4(s, 1, hi);
    CodeAtHex4(s, 7, lo);
    assert 0x10000 + (hi - 0xD800) * 0x400 + (lo - 0xDC00) == c as int;
  }

  /** The body of a string literal after its opening quote: the decoded text and what follows the closing quote. */
  function ParseChars(s: string): (r: Option<(string, string)>)
    ensures r.Some? ==> |r.value.0| + |r.value.1| < |s|
    decreases |s|
  {
    if |s| == 0 then None
    else if s[0] == '"' then Some(("", s[1..]))
    else if s[0] == '\\' then
      match Unescape(s[1..])
      case None => None
      case Some((c, n)) =>
        match ParseChars(s[1 + n..])
        case None => None
        case Some((str, rest)) => Some(([c] + str, rest))
    else if (s[0] as int) < 0x20 then None
    else
      match ParseChars(s[1..])
      case None => None
      case Some((str, rest)) => Some(([s[0]] + str, rest))
  }

  function ParseValue(s: string): (r: Option<(Json, string)>)
    ensures r.Some? ==> |r.value.1| < |s|
    ensures r.Some? && r.value.0.JStr? ==> |r.value.0.s| < |s|
    decreases |s|, 1
  {
    var t := SkipWs(s);
    if |t| == 0 then None
    else if t[0] == '[' then ParseArray(t[1..])
    else if t[0] == '{' then ParseObject(t[1..])
    else if t[0] == '"' then
      match ParseChars(t[1..])
      case None => None
      case Some((str, rest)) => Some((JStr(str), rest))
    else if t[0] == '-' || IsDigit(t[0]) then ParseNumber(t)
    else if |t| >= 4 && t[..4] == "null" then Some((JNull, t[4..]))
    else if |t| >= 4 && t[..4] == "true" then Some((JBool(true), t[4..]))
    else if |t| >= 5 && t[..5] == "false" then Some((JBool(false), t[5..]))
    else None
  }

  /** An array after its `[`. */
  function ParseArray(s: string): (r: Option<(Json, string)>)
    ensures r.Some? ==> |r.value.1| < |s| && r.value.0.JArr?
    decreases |s|, 3
  {
    var t := SkipWs(s);
    if |t| > 0 && t[0] == ']' then Some((JArr([]), t[1..]))
    else ParseItems(t, [])
  }

  /** The remaining elements of an array, `acc` holding those already read. */
  function ParseItems(s: string, acc: seq<Json>): (r: Option<(Json, string)>)
    ensures r.Some? ==> |r.value.1| < |s| && r.value.0.JArr?
    decreases |s|, 2
  {
    match ParseValue(s)
    case None => None
    case Some((v, rest)) =>
      var u := SkipWs(rest);
      if |u| == 0 then None
      else if u[0] == ',' then ParseItems(u[1..], acc + [v])
      else if u[0] == ']' then Some((JArr(acc + [v]), u[1..]))
      else None
  }

  /** An object after its `{`. */
  function ParseObject(s: string): (r: Option<(Json, string)>)
    ensures r.Some? ==> |r.value.1| < |s| && r.value.0.JObj?
    decreases |s|, 3
  {
    var t := SkipWs(s);
    if |t| > 0 && t[0] == '}' then Some((JObj([]), t[1..]))
    else ParseMembers(t, [])
  }

  /** The remaining members of an object, `acc` holding those already read. */
  function ParseMembers(s: string, acc: seq<Member>): (r: Option<(Json, string)>)
    ensures r.Some? ==> |r.value.1| < |s| && r.value.0.JObj?
    decreases |s|, 2
  {
    var t := SkipWs(s);
    if |t| == 0 || t[0] != '"' then None
    else
      match ParseChars(t[1..])
      case None => None
      case Some((key, r1)) =>
        var u := SkipWs(r1);
        if |u| == 0 || u[0] != ':' then None
        else
          match ParseValue(u[1..])
          case None => None
          case Some((v, r2)) =>
            var w := SkipWs(r2);
            if |w| == 0 then None
            else if w[0] == ',' then ParseMembers(w[1..], acc + [Member(key, v)])
            else if w[0] == '}' then Some((JObj(acc + [Member(key, v)]), w[1..]))
            else None
  }

  /** `JSON.parse`: one value, surrounded by nothing but whitespace; `None` where it throws. */
  function Parse(s: string): Option<Json>
  {
    match ParseValue(s)
    case None => None
    case Some((j, rest)) => if SkipWs(rest) == "" then Some(j) else None
  }

  // ---------------------------------------------------------------------
  // Round trip: JSON.parse(JSON.stringify(j)) gives j back

  /** What may follow a value's text without changing how it is read: not a digit. */
  predicate EndsToken(rest: string) { |rest| == 0 || !IsDigit(rest[0]) }

  /** Reading a string literal decodes at most what it consumes, so it is shorter than its text. */
  lemma ParseStrShorter(s: string, t: string)
    requires Parse(s) == Some(JStr(t))
    ensures |t| < |s|
  {
  }

  lemma {:induction false} NatTextValue(n: nat)
    ensures DigitsValue(NatText(n)) == n
    decreases n
  {
    var t := NatText(n);
    if n < 10 {
      assert t[..|t| - 1] == [];
    } else {
      assert t[..|t| - 1] == NatText(n / 10);
      NatTextValue(n / 10);
    }
  }

  lemma {:induction false} NatTextLead(n: nat)
    ensures NatText(n)[0] == '0' <==> n == 0
    ensures n == 0 ==> NatText(n) == "0"
    decreases n
  {
    if n >= 10 {
      NatTextLead(n / 10);
      assert NatText(n)[0] == NatText(n / 10)[0];
    }
  }

  lemma {:induction false} DigitCountOf(d: string, rest: string)
    requires forall i :: 0 <= i < |d| ==> IsDigit(d[i])
    requires EndsToken(rest)
    ensures DigitCount(d + rest) == |d|
    decreases |d|
  {
    if |d| > 0 {
      assert (d + rest)[1..] == d[1..] + rest;
      DigitCountOf(d[1..], rest);
    } else {
      assert d + rest == rest;
    }
  }

  /** The digits of a natural number, followed by a non-digit, are read back whole. */
  lemma NatDigitsRead(m: nat, rest: string)
    requires EndsToken(rest)
    ensures var body := NatText(m) + rest;
            var k := if |body| > 0 && body[0] == '0' then 1 else DigitCount(body);
            k == |NatText(m)| && body[..k] == NatText(m) && body[k..] == rest && DigitsValue(body[..k]) == m
  {
    var d := NatText(m);
    var body := d + rest;
    NatTextLead(m);
    if d[0] != '0' {
      DigitCountOf(d, rest);
    }
    assert body[..|d|] == d && body[|d|..] == rest;
    NatTextValue(m);
  }

  /** Reading a number whose digits, after an optional sign, are known. */
  lemma ParseNumberOf(s: string, neg: bool, body: string, m: nat, rest: string)
    requires neg == (|s| > 0 && s[0] == '-')
    requires body == if neg then s[1..] else s
    requires var k := if |body| > 0 && body[0] == '0' then 1 else DigitCount(body);
             k == |NatText(m)| && body[..k] == NatText(m) && body[k..] == rest && DigitsValue(body[..k]) == m
    ensures ParseNumber(s) == Some((JNum(if neg then -(m as int) else m as int), rest))
  {
  }

  lemma NumberRoundTrip(n: int, rest: string)
    requires EndsToken(rest)
    ensures ParseNumber(IntText(n) + rest) == Some((JNum(n), rest))
  {
    var m: nat := if n < 0 then -n else n;
    var s := IntText(n) + rest;
    var body := NatText(m) + rest;
    NatDigitsRead(m, rest);
    if n < 0 {
      assert s == "-" + body && s[1..] == body;
      ParseNumberOf(s, true, body, m, rest);
    } else {
      assert s == body && !(s[0] == '-');
      ParseNumberOf(s, false, body, m, rest);
    }
  }

  /** A backslash followed by a readable escape: the escape's character, then the rest of the literal. */
  lemma EscapeStep(s: string, c: char, n: nat)
    requires |s| > 0 && s[0] == '\\'
    requires Unescape(s[1..]) == Some((c, n))
    ensures ParseChars(s) == Cons(c, ParseChars(s[1 + n..]))
  {
  }

  /** Prepends a decoded character to the result of reading the rest of a literal. */
  function Cons(c: char, r: Option<(string, string)>): Option<(string, string)>
  {
    match r
    case None => None
    case Some((str, rest)) => Some(([c] + str, rest))
  }

  /** A two-character escape is read back as its character. */
  lemma ShortEscapeRoundTrip(c: char, e: char, tail: string)
    requires Unescape([e] + tail) == Some((c, 1))
    ensures ParseChars(['\\', e] + tail) == Cons(c, ParseChars(tail))
  {
    var s := ['\\', e] + tail;
    assert s[1..] == [e] + tail;
    EscapeStep(s, c, 1);
    assert s[2..] == tail;
  }

  /** A `\u00XX` escape is read back as its character. */
  lemma ControlEscapeRoundTrip(c: char, tail: string)
    requires (c as int) < 0x20 && c != '\n' && c != '\r' && c != '\t' && c != 8 as char && c != 12 as char
    ensures ParseChars(EscapeChar(c) + tail) == Cons(c, ParseChars(tail))
  {
    var h1, h2 := HexChar(c as int / 16), HexChar(c as int % 16);
    assert EscapeChar(c) == "\\u00" + [h1, h2];
    var s := EscapeChar(c) + tail;
    var u := s[1..];
    assert u == ['u', '0', '0', h1, h2] + tail;
    assert Unescape(u) == Some((c, 5));
    assert s[1 + 5..] == tail;
  }

  lemma EscapeCharRoundTrip(c: char, tail: string)
    ensures ParseChars(EscapeChar(c) + tail) == Cons(c, ParseChars(tail))
  {
    if c == '"' {
      assert EscapeChar(c) == ['\\', '"'];
      ShortEscapeRoundTrip(c, '"', tail);
    } else if c == '\\' {
      assert EscapeChar(c) == ['\\', '\\'];
      ShortEscapeRoundTrip(c, '\\', tail);
    } else if c == '\n' {
      assert EscapeChar(c) == ['\\', 'n'];
      ShortEscapeRoundTrip(c, 'n', tail);
    } else if c == '\r' {
      assert EscapeChar(c) == ['\\', 'r'];
      ShortEscapeRoundTrip(c, 'r', tail);
    } else if c == '\t' {
      assert EscapeChar(c) == ['\\', 't'];
      ShortEscapeRoundTrip(c, 't', tail);
    } else if c == 8 as char {
      assert EscapeChar(c) == ['\\', 'b'];
      ShortEscapeRoundTrip(c, 'b', tail);
    } else if c == 12 as char {
      assert EscapeChar(c) == ['\\', 'f'];
      ShortEscapeRoundTrip(c, 'f', tail);
    } else if (c as int) < 0x20 {
      ControlEscapeRoundTrip(c, tail);
    } else {
      var s := EscapeChar(c) + tail;
      assert s[1..] == tail;
    }
  }

  lemma Assoc(a: string, b: string, c: string)
    ensures a + b + c == a + (b + c)
  {
  }

  lemma {:induction false} EscapeRoundTrip(str: string, rest: string)
    ensures ParseChars(Escape(str) + ("\"" + rest)) == Some((str, rest))
    decreases |str|
  {
    var close := "\"" + rest;
    if |str| == 0 {
      assert Escape(str) + close == close;
    } else {
      Assoc(EscapeChar(str[0]), Escape(str[1..]), close);
      EscapeCharRoundTrip(str[0], Escape(str[1..]) + close);
      EscapeRoundTrip(str[1..], rest);
      assert [str[0]] + str[1..] == str;
    }
  }

  lemma StringifyFirst(j: Json)
    ensures |Stringify(j)| > 0
    ensures j.JNull? ==> Stringify(j)[..4] == "null"
    ensures j.JBool? && j.b ==> Stringify(j)[..4] == "true"
    ensures j.JBool? && !j.b ==> Stringify(j)[..5] == "false"
    ensures j.JNum? ==> Stringify(j)[0] == '-' || IsDigit(Stringify(j)[0])
    ensures j.JStr? ==> Stringify(j)[0] == '"'
    ensures j.JArr? ==> Stringify(j)[0] == '['
    ensures j.JObj? ==> Stringify(j)[0] == '{'
  {
  }

  // One step of the reader, for text that starts with a known character.

  lemma ReadArrayStep(s: string)
    requires |s| > 0 && s[0] == '['
    ensures ParseValue(s) == ParseArray(s[1..])
  {
    assert SkipWs(s) == s;
  }

  lemma ReadObjectStep(s: string)
    requires |s| > 0 && s[0] == '{'
    ensures ParseValue(s) == ParseObject(s[1..])
  {
    assert SkipWs(s) == s;
  }

  lemma ReadStringStep(s: string, str: string, rest: string)
    requires |s| > 0 && s[0] == '"'
    requires ParseChars(s[1..]) == Some((str, rest))
    ensures ParseValue(s) == Some((JStr(str), rest))
  {
  }

  lemma ReadNumberStep(s: string)
    requires |s| > 0 && (s[0] == '-' || IsDigit(s[0]))
    ensures ParseValue(s) == ParseNumber(s)
  {
    assert SkipWs(s) == s;
    assert s[0] != '[' && s[0] != '{' && s[0] != '"';
  }

  lemma ReadItemStep(s: string, acc: seq<Json>, v: Json, rest: string)
    requires ParseValue(s) == Some((v, rest))
    requires |rest| > 0 && (rest[0] == ',' || rest[0] == ']')
    ensures rest[0] == ',' ==> ParseItems(s, acc) == ParseItems(rest[1..], acc + [v])
    ensures rest[0] == ']' ==> ParseItems(s, acc) == Some((JArr(acc + [v]), rest[1..]))
  {
  }

  lemma ReadMemberStep(s: string, acc: seq<Member>, key: string, afterKey: string, v: Json, rest: string)
    requires |s| > 0 && s[0] == '"'
    requires ParseChars(s[1..]) == Some((key, afterKey))
    requires |afterKey| > 0 && afterKey[0] == ':'
    requires ParseValue(afterKey[1..]) == Some((v, rest))
    requires |rest| > 0 && (rest[0] == ',' || rest[0] == '}')
    ensures rest[0] == ',' ==> ParseMembers(s, acc) == ParseMembers(rest[1..], acc + [Member(key, v)])
    ensures rest[0] == '}' ==> ParseMembers(s, acc) == Some((JObj(acc + [Member(key, v)]), rest[1..]))
  {
  }

  lemma LiteralRoundTrip(j: Json, rest: string)
    requires j.JNull? || j.JBool?
    ensures ParseValue(Stringify(j) + rest) == Some((j, rest))
  {
    var s := Stringify(j) + rest;
    StringifyFirst(j);
    if j.JNull? {
      assert s[..4] == "null" && s[4..] == rest;
    } else if j.b {
      assert s[..4] == "true" && s[4..] == rest;
    } else {
      assert s[..5] == "false" && s[5..] == rest;
    }
  }

  /** `open + body + close` followed by `rest`, nested to the right. */
  lemma Enclosed(open: string, body: string, close: string, rest: string)
    ensures open + body + close + rest == open + (body + (close + rest))
  {
    Assoc(open + body, close, rest);
    Assoc(open, body, close + rest);
  }

  lemma {:induction false} ValueRoundTrip(j: Json, rest: string)
    requires EndsToken(rest)
    ensures ParseValue(Stringify(j) + rest) == Some((j, rest))
    decreases j, 1
  {
    var s := Stringify(j) + rest;
    match j
    case JNull => LiteralRoundTrip(j, rest);
    case JBool(_) => LiteralRoundTrip(j, rest);
    case JNum(n) =>
      StringifyFirst(j);
      assert s[0] == Stringify(j)[0];
      ReadNumberStep(s);
      NumberRoundTrip(n, rest);
    case JStr(str) =>
      Enclosed("\"", Escape(str), "\"", rest);
      EscapeRoundTrip(str, rest);
      ReadStringStep(s, str, rest);
    case JArr(xs) => ArrayRoundTrip(xs, rest);
    case JObj(ms) => ObjectRoundTrip(ms, rest);
  }

  lemma {:induction false} ArrayRoundTrip(xs: seq<Json>, rest: string)
    requires EndsToken(rest)
    ensures ParseValue(Stringify(JArr(xs)) + rest) == Some((JArr(xs), rest))
    decreases JArr(xs), 0
  {
    var s := Stringify(JArr(xs)) + rest;
    Enclosed("[", Items(xs), "]", rest);
    ReadArrayStep(s);
    if |xs| == 0 {
      assert s[1..] == "]" + rest;
    } else {
      ItemsText(xs, rest);
      StringifyFirst(xs[0]);
      assert s[1..][0] == Stringify(xs[0])[0];
      ItemsRoundTrip(xs, [], rest);
      assert [] + xs == xs;
    }
  }

  lemma {:induction false} ObjectRoundTrip(ms: seq<Member>, rest: string)
    requires EndsToken(rest)
    ensures ParseValue(Stringify(JObj(ms)) + rest) == Some((JObj(ms), rest))
    decreases JObj(ms), 0
  {
    var s := Stringify(JObj(ms)) + rest;
    Enclosed("{", Members(ms), "}", rest);
    ReadObjectStep(s);
    if |ms| == 0 {
      assert s[1..] == "}" + rest;
    } else {
      MembersText(ms, rest);
      assert s[1..][0] == '"';
      MembersRoundTrip(ms, [], rest);
      assert [] + ms == ms;
    }
  }

  /** The text of the elements of a non-empty array, first element split off. */
  lemma ItemsText(xs: seq<Json>, rest: string)
    requires |xs| > 0
    ensures Items(xs) + ("]" + rest) == Stringify(xs[0]) + ItemsAfterFirst(xs, rest)
  {
    if |xs| > 1 {
      Assoc(Stringify(xs[0]) + ",", Items(xs[1..]), "]" + rest);
      Assoc(Stringify(xs[0]), ",", Items(xs[1..]) + ("]" + rest));
    }
  }

  /** What follows the first element of a non-empty array up to the end of the input. */
  function ItemsAfterFirst(xs: seq<Json>, rest: string): string
    requires |xs| > 0
  {
    if |xs| == 1 then "]" + rest else "," + (Items(xs[1..]) + ("]" + rest))
  }

  /** What follows the first member of a non-empty object up to the end of the input. */
  function MembersAfterFirst(ms: seq<Member>, rest: string): string
    requires |ms| > 0
  {
    if |ms| == 1 then "}" + rest else "," + (Members(ms[1..]) + ("}" + rest))
  }

  /** The text of the members of a non-empty object, first key and value split off. */
  lemma MembersText(ms: seq<Member>, rest: string)
    requires |ms| > 0
    ensures Members(ms) + ("}" + rest)
         == "\"" + (Escape(ms[0].key) + ("\"" + (":" + (Stringify(ms[0].value) + MembersAfterFirst(ms, rest)))))
  {
    var m := ms[0];
    var q, v, after := Escape(m.key), Stringify(m.value), MembersAfterFirst(ms, rest);
    var x := "\"" + q + "\"" + ":";
    assert MemberText(m) == x + v;
    if |ms| > 1 {
      Assoc(MemberText(m) + ",", Members(ms[1..]), "}" + rest);
      Assoc(MemberText(m), ",", Members(ms[1..]) + ("}" + rest));
    }
    assert Members(ms) + ("}" + rest) == MemberText(m) + after;
    Assoc(x, v, after);
    Assoc("\"" + q + "\"", ":", v + after);
    Assoc("\"" + q, "\"", ":" + (v + after));
    Assoc("\"", q, "\"" + (":" + (v + after)));
  }

  /** The first element of an array's text reads back, and reading goes on after it. */
  lemma {:induction false} ItemHead(xs: seq<Json>, acc: seq<Json>, rest: string)
    requires |xs| > 0
    requires EndsToken(rest)
    ensures |xs| == 1 ==> ParseItems(Items(xs) + ("]" + rest), acc) == Some((JArr(acc + [xs[0]]), rest))
    ensures |xs| > 1 ==> ParseItems(Items(xs) + ("]" + rest), acc) == ParseItems(Items(xs[1..]) + ("]" + rest), acc + [xs[0]])
    decreases xs, 0
  {
    var tail := ItemsAfterFirst(xs, rest);
    ItemsText(xs, rest);
    ValueRoundTrip(xs[0], tail);
    ReadItemStep(Items(xs) + ("]" + rest), acc, xs[0], tail);
  }

  lemma {:induction false} ItemsRoundTrip(xs: seq<Json>, acc: seq<Json>, rest: string)
    requires |xs| > 0
    requires EndsToken(rest)
    ensures ParseItems(Items(xs) + ("]" + rest), acc) == Some((JArr(acc + xs), rest))
    decreases xs, 1
  {
    var first := acc + [xs[0]];
    if |xs| == 1 {
      ItemHead(xs, acc, rest);
      assert first == acc + xs;
    } else {
      calc {
        ParseItems(Items(xs) + ("]" + rest), acc);
        { ItemHead(xs, acc, rest); }
        ParseItems(Items(xs[1..]) + ("]" + rest), first);
        { ItemsRoundTrip(xs[1..], first, rest); }
        Some((JArr(first + xs[1..]), rest));
        { assert first + xs[1..] == acc + xs; }
        Some((JArr(acc + xs), rest));
      }
    }
  }

  /** Reading the first member of an object's text, given that its value reads back. */
  lemma FirstMemberStep(ms: seq<Member>, acc: seq<Member>, rest: string)
    requires |ms| > 0
    requires ParseValue(Stringify(ms[0].value) + MembersAfterFirst(ms, rest)) == Some((ms[0].value, MembersAfterFirst(ms, rest)))
    ensures |ms| == 1 ==> ParseMembers(Members(ms) + ("}" + rest), acc) == Some((JObj(acc + [ms[0]]), rest))
    ensures |ms| > 1 ==> ParseMembers(Members(ms) + ("}" + rest), acc) == ParseMembers(Members(ms[1..]) + ("}" + rest), acc + [ms[0]])
  {
    var m := ms[0];
    var s := Members(ms) + ("}" + rest);
    var after := MembersAfterFirst(ms, rest);
    var afterKey := ":" + (Stringify(m.value) + after);
    MembersText(ms, rest);
    assert s[1..] == Escape(m.key) + ("\"" + afterKey);
    EscapeRoundTrip(m.key, afterKey);
    assert afterKey[1..] == Stringify(m.value) + after;
    ReadMemberStep(s, acc, m.key, afterKey, m.value, after);
  }

  /** The first member of an object's text reads back, and reading goes on after it. */
  lemma {:induction false} MemberHead(ms: seq<Member>, acc: seq<Member>, rest: string)
    requires |ms| > 0
    requires EndsToken(rest)
    ensures |ms| == 1 ==> ParseMembers(Members(ms) + ("}" + rest), acc) == Some((JObj(acc + [ms[0]]), rest))
    ensures |ms| > 1 ==> ParseMembers(Members(ms) + ("}" + rest), acc) == ParseMembers(Members(ms[1..]) + ("}" + rest), acc + [ms[0]])
    decreases ms, 0
  {
    assert ms[0].value < ms[0];
    ValueRoundTrip(ms[0].value, MembersAfterFirst(ms, rest));
    FirstMemberStep(ms, acc, rest);
  }

  lemma {:induction false} MembersRoundTrip(ms: seq<Member>, acc: seq<Member>, rest: string)
    requires |ms| > 0
    requires EndsToken(rest)
    ensures ParseMembers(Members(ms) + ("}" + rest), acc) == Some((JObj(acc + ms), rest))
    decreases ms, 1
  {
    var first := acc + [ms[0]];
    if |ms| == 1 {
      MemberHead(ms, acc, rest);
      assert first == acc + ms;
    } else {
      calc {
        ParseMembers(Members(ms) + ("}" + rest), acc);
        { MemberHead(ms, acc, rest); }
        ParseMembers(Members(ms[1..]) + ("}" + rest), first);
        { MembersRoundTrip(ms[1..], first, rest); }
        Some((JObj(first + ms[1..]), rest));
        { assert first + ms[1..] == acc + ms; }
        Some((JObj(acc + ms), rest));
      }
    }
  }

  /** `JSON.parse(JSON.stringify(j))` gives back `j`. */
  lemma ParseStringify(j: Json)
    ensures Parse(Stringify(j)) == Some(j)
  {
    ValueRoundTrip(j, "");
    assert Stringify(j) + "" == Stringify(j);
  }
}
