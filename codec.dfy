/** The text form of JSON values used on every wire of the system (the hook command's POST
    body, the log file's lines, the messages pushed to subscribers). It plays the part of
    `JSON.stringify` and `JSON.parse`: object keys are written in a fixed (sorted) order and
    the line feed is always escaped, so a serialized value never spans two lines of a log. */
module Codec {
  import opened Wrappers
  import opened Json

  // ---------------------------------------------------------------- key order

  /** Lexicographic order on keys. */
  predicate KeyLe(a: string, b: string)
    decreases |a|
  {
    |a| == 0 || (|b| != 0 && (a[0] < b[0] || (a[0] == b[0] && KeyLe(a[1..], b[1..]))))
  }

  lemma {:induction false} KeyLeAntisymmetric(a: string, b: string)
    requires KeyLe(a, b) && KeyLe(b, a)
    ensures a == b
    decreases |a|
  {
    if |a| != 0 && |b| != 0 && a[0] == b[0] {
      KeyLeAntisymmetric(a[1..], b[1..]);
      assert a == [a[0]] + a[1..] && b == [b[0]] + b[1..];
    }
  }

  lemma {:induction false} KeyLeTotal(a: string, b: string)
    ensures KeyLe(a, b) || KeyLe(b, a)
    decreases |a|
  {
    if |a| != 0 && |b| != 0 && a[0] == b[0] {
      KeyLeTotal(a[1..], b[1..]);
    }
  }

  lemma {:induction false} KeyLeTransitive(a: string, b: string, c: string)
    requires KeyLe(a, b) && KeyLe(b, c)
    ensures KeyLe(a, c)
    decreases |a|
  {
    if |a| != 0 && |b| != 0 && |c| != 0 && a[0] == b[0] && b[0] == c[0] {
      KeyLeTransitive(a[1..], b[1..], c[1..]);
    }
  }

  /** Every non-empty set of keys has a least element. */
  lemma {:induction false} LeastKeyExists(s: set<string>)
    requires s != {}
    ensures exists k :: k in s && forall j :: j in s ==> KeyLe(k, j)
    decreases |s|
  {
    var x :| x in s;
    KeyLeTotal(x, x);
    if s != {x} {
      LeastKeyExists(s - {x});
      var m :| m in s - {x} && forall j :: j in s - {x} ==> KeyLe(m, j);
      KeyLeTotal(m, x);
      if !KeyLe(m, x) {
        forall j | j in s ensures KeyLe(x, j) {
          if j != x { KeyLeTransitive(x, m, j); }
        }
      }
    }
  }

  /** The keys of `s` in ascending order, each once. */
  function SortedKeys(s: set<string>): (r: seq<string>)
    ensures |r| == |s|
    ensures forall k :: k in r <==> k in s
    ensures forall i, j :: 0 <= i < j < |r| ==> r[i] != r[j]
    decreases |s|
  {
    if s == {} then []
    else
      LeastKeyExists(s);
      var k :| k in s && forall j :: j in s ==> KeyLe(k, j);
      assert forall k' :: k' in s && (forall j :: j in s ==> KeyLe(k', j)) ==> k' == k by {
        forall k' | k' in s && (forall j :: j in s ==> KeyLe(k', j)) ensures k' == k {
          KeyLeAntisymmetric(k, k');
        }
      }
      [k] + SortedKeys(s - {k})
  }

  // ---------------------------------------------------------------- printing

  const HexDigits := "0123456789abcdef"

  /** A control character without a short escape, written `\u00XX` in lower-case hex. */
  function ControlEscape(c: char): string
    requires (c as int) < 0x20
  {
    "\\u00" + [HexDigits[c as int / 16], HexDigits[c as int % 16]]
  }

  /** How `JSON.stringify` writes one character of a string: the quote and the backslash,
      and every control character, are escaped; nothing else is. */
  function EscapeChar(c: char): (r: string)
    ensures |r| > 0
  {
    if c == '"' then "\\\"" else if c == '\\' then "\\\\"
    else if c == '\n' then "\\n" else if c == '\r' then "\\r" else if c == '\t' then "\\t"
    else if c as int == 8 then "\\b" else if c as int == 12 then "\\f"
    else if (c as int) < 0x20 then ControlEscape(c)
    else [c]
  }

  function Escape(s: string): string {
    if |s| == 0 then "" else EscapeChar(s[0]) + Escape(s[1..])
  }

  function Quote(s: string): (r: string)
    ensures |r| >= 2 && r[0] == '"'
  {
    "\"" + Escape(s) + "\""
  }

  function NumberText(n: int): (r: string)
    ensures |r| > 0 && (r[0] == '-' || IsDigit(r[0]))
  {
    if n < 0 then "-" + Decimal(-n) else Decimal(n)
  }

  /** `JSON.stringify(v)`. */
  function Serialize(v: Value): (r: string)
    ensures |r| > 0 && r[0] != ']' && r[0] != '}' && !IsWs(r[0])
    decreases v, if v.Obj? then |v.fields| + 1 else 0
  {
    match v
    case Null => "null"
    case Bool(b) => if b then "true" else "false"
    case Num(n) => NumberText(n)
    case Str(s) => Quote(s)
    case Arr(items) => if |items| == 0 then "[]" else "[" + SerializeItems(items) + "]"
    case Obj(m) => if |m| == 0 then "{}" else "{" + SerializeFields(m, SortedKeys(m.Keys)) + "}"
  }

  function SerializeItems(items: seq<Value>): (r: string)
    requires |items| > 0
    ensures |r| > 0 && r[0] != ']' && !IsWs(r[0])
    decreases items
  {
    Serialize(items[0]) + if |items| == 1 then "" else "," + SerializeItems(items[1..])
  }

  function SerializeFields(m: map<string, Value>, ks: seq<string>): (r: string)
    requires |ks| > 0
    requires forall k :: k in ks ==> k in m
    ensures |r| > 0 && r[0] == '"'
    decreases Obj(m), |ks|
  {
    Quote(ks[0]) + ":" + Serialize(m[ks[0]]) + if |ks| == 1 then "" else "," + SerializeFields(m, ks[1..])
  }

  /** A serialized value is a single line. */
  lemma {:induction false} SerializeOneLine(v: Value)
    ensures '\n' !in Serialize(v)
    decreases v, 1
  {
    match v
    case Null =>
    case Bool(_) =>
    case Num(n) =>
      DecimalOneLine(if n < 0 then -n else n);
    case Str(s) =>
      EscapeOneLine(s);
    case Arr(items) =>
      if |items| > 0 { ItemsOneLine(items); }
    case Obj(m) =>
      if |m| > 0 { FieldsOneLine(m, SortedKeys(m.Keys)); }
  }

  lemma DecimalOneLine(n: nat)
    ensures '\n' !in Decimal(n)
  {
  }

  lemma EscapeCharOneLine(c: char)
    ensures '\n' !in EscapeChar(c)
  {
    if (c as int) < 0x20 && c != '\n' && c != '\r' && c != '\t' && c as int != 8 && c as int != 12 {
      HexDigitValue(c as int / 16);
      HexDigitValue(c as int % 16);
    }
  }

  lemma {:induction false} EscapeOneLine(s: string)
    ensures '\n' !in Escape(s)
    decreases |s|
  {
    if |s| > 0 {
      EscapeCharOneLine(s[0]);
      EscapeOneLine(s[1..]);
    }
  }

  lemma {:induction false} ItemsOneLine(items: seq<Value>)
    requires |items| > 0
    ensures '\n' !in SerializeItems(items)
    decreases items
  {
    SerializeOneLine(items[0]);
    if |items| > 1 { ItemsOneLine(items[1..]); }
  }

  lemma {:induction false} FieldsOneLine(m: map<string, Value>, ks: seq<string>)
    requires |ks| > 0
    requires forall k :: k in ks ==> k in m
    ensures '\n' !in SerializeFields(m, ks)
    decreases Obj(m), 0, |ks|
  {
    EscapeOneLine(ks[0]);
    SerializeOneLine(m[ks[0]]);
    if |ks| > 1 { FieldsOneLine(m, ks[1..]); }
  }

  // ---------------------------------------------------------------- parsing

  /** The whitespace JSON allows between tokens. */
  predicate IsWs(c: char) {
    c == ' ' || c == '\t' || c == '\n' || c == '\r'
  }

  /** The text after the whitespace `s` starts with. */
  function SkipWs(s: string): (r: string)
    ensures |r| <= |s|
    ensures |r| == 0 || !IsWs(r[0])
    ensures |s| == 0 || !IsWs(s[0]) ==> r == s
  {
    if |s| > 0 && IsWs(s[0]) then SkipWs(s[1..]) else s
  }

  predicate IsHex(c: char) {
    '0' <= c <= '9' || 'a' <= c <= 'f' || 'A' <= c <= 'F'
  }

  function HexValue(c: char): (d: nat)
    requires IsHex(c)
    ensures d < 16
  {
    if c <= '9' then c as int - '0' as int
    else if c <= 'F' then c as int - 'A' as int + 10
    else c as int - 'a' as int + 10
  }

  /** The UTF-16 code unit four hex digits at the start of `s` denote. */
  function Hex4(s: string): (r: Option<nat>)
    ensures r.Some? ==> |s| >= 4 && r.value < 0x10000
  {
    if |s| >= 4 && IsHex(s[0]) && IsHex(s[1]) && IsHex(s[2]) && IsHex(s[3]) then
      Some(HexValue(s[0]) * 4096 + HexValue(s[1]) * 256 + HexValue(s[2]) * 16 + HexValue(s[3]))
    else None
  }

  /** The character an escape sequence stands for, given the text after its backslash, and
      how many characters of that text it takes. A surrogate pair written as two `\u` escapes
      is one character; an escape `JSON.parse` refuses is `None`. */
  function ParseEscape(e: string): (r: Option<(char, nat)>)
    ensures r.Some? ==> 0 < r.value.1 <= |e|
  {
    if |e| == 0 then None
    else if e[0] == '"' || e[0] == '\\' || e[0] == '/' then Some((e[0], 1))
    else if e[0] == 'b' then Some((8 as char, 1))
    else if e[0] == 'f' then Some((12 as char, 1))
    else if e[0] == 'n' then Some(('\n', 1))
    else if e[0] == 'r' then Some(('\r', 1))
    else if e[0] == 't' then Some(('\t', 1))
    else if e[0] == 'u' then
      match Hex4(e[1..])
      case None => None
      case Some(u) =>
        if u < 0xD800 || 0xE000 <= u then Some((u as char, 5))
        else if u < 0xDC00 && |e| >= 7 && e[5] == '\\' && e[6] == 'u' then
          match Hex4(e[7..])
          case None => None
          case Some(l) =>
            if 0xDC00 <= l < 0xE000 then Some(((0x10000 + (u - 0xD800) * 0x400 + (l - 0xDC00)) as char, 11)) else None
        else None
    else None
  }

  /** The body of a string literal up to its closing quote, and the text after the quote. A
      raw control character ends nothing: the literal is refused. */
  function ParseString(s: string): (r: Option<(string, string)>)
    ensures r.Some? ==> |r.value.1| < |s|
    decreases |s|
  {
    if |s| == 0 then None
    else if s[0] == '"' then Some(("", s[1..]))
    else if s[0] == '\\' then
      match ParseEscape(s[1..])
      case None => None
      case Some((c, n)) =>
        match ParseString(s[1 + n..])
        case None => None
        case Some((t, rest)) => Some(([c] + t, rest))
    else if (s[0] as int) < 0x20 then None
    else match ParseString(s[1..])
      case None => None
      case Some((t, rest)) => Some(([s[0]] + t, rest))
  }

  /** The length of the run of digits `s` starts with. */
  function DigitRun(s: string): (k: nat)
    ensures k <= |s|
    ensures forall i :: 0 <= i < k ==> IsDigit(s[i])
  {
    if |s| == 0 || !IsDigit(s[0]) then 0 else 1 + DigitRun(s[1..])
  }

  /** The digits of a number: at least one, and no leading zero before another digit. */
  function ParseNatural(s: string): (r: Option<(nat, string)>)
    ensures r.Some? ==> |r.value.1| < |s|
  {
    var k := DigitRun(s);
    if k == 0 || (k > 1 && s[0] == '0') then None else Some((DigitsValue(s[..k]), s[k..]))
  }

  predicate StartsWith(s: string, word: string) {
    |word| <= |s| && s[..|word|] == word
  }

  /** One value after any whitespace at the start of `s`, and the text after it. */
  function ParseValue(s: string): (r: Option<(Value, string)>)
    ensures r.Some? ==> |r.value.1| < |s|
    decreases |s|, 2
  {
    var t := SkipWs(s);
    if |t| == 0 then None
    else if t[0] == '[' then ParseArray(t)
    else if t[0] == '{' then ParseObject(t)
    else ParseScalar(t)
  }

  /** A literal, a string or a number at the start of `s`. */
  function ParseScalar(s: string): (r: Option<(Value, string)>)
    requires |s| > 0
    ensures r.Some? ==> |r.value.1| < |s|
  {
    if s[0] == 'n' then (if StartsWith(s, "null") then Some((Null, s[4..])) else None)
    else if s[0] == 't' then (if StartsWith(s, "true") then Some((Bool(true), s[4..])) else None)
    else if s[0] == 'f' then (if StartsWith(s, "false") then Some((Bool(false), s[5..])) else None)
    else if s[0] == '"' then
      match ParseString(s[1..])
      case None => None
      case Some((t, rest)) => Some((Str(t), rest))
    else if s[0] == '-' then
      match ParseNatural(s[1..])
      case None => None
      case Some((n, rest)) => Some((Num(-(n as int)), rest))
    else
      match ParseNatural(s)
      case None => None
      case Some((n, rest)) => Some((Num(n), rest))
  }

  function ParseArray(s: string): (r: Option<(Value, string)>)
    requires |s| > 0 && s[0] == '['
    ensures r.Some? ==> |r.value.1| < |s|
    decreases |s|, 1
  {
    var t := SkipWs(s[1..]);
    if |t| > 0 && t[0] == ']' then Some((Arr([]), t[1..]))
    else match ParseItems(s[1..])
      case None => None
      case Some((items, rest)) => Some((Arr(items), rest))
  }

  function ParseObject(s: string): (r: Option<(Value, string)>)
    requires |s| > 0 && s[0] == '{'
    ensures r.Some? ==> |r.value.1| < |s|
    decreases |s|, 1
  {
    var t := SkipWs(s[1..]);
    if |t| > 0 && t[0] == '}' then Some((Obj(map[]), t[1..]))
    else match ParseFields(s[1..])
      case None => None
      case Some((m, rest)) => Some((Obj(m), rest))
  }

  /** The elements of an array after its `[`, up to and including the closing `]`. */
  function ParseItems(s: string): (r: Option<(seq<Value>, string)>)
    ensures r.Some? ==> |r.value.1| < |s|
    decreases |s|, 3
  {
    match ParseValue(s)
    case None => None
    case Some((v, rest)) =>
      var t := SkipWs(rest);
      if |t| == 0 then None
      else if t[0] == ']' then Some(([v], t[1..]))
      else if t[0] == ',' then
        match ParseItems(t[1..])
        case None => None
        case Some((vs, rest')) => Some(([v] + vs, rest'))
      else None
  }

  /** One `"key":value` member at the start of `s`, and the text after it. */
  function ParseMember(s: string): (r: Option<(string, Value, string)>)
    ensures r.Some? ==> |r.value.2| < |s|
    decreases |s|, 3
  {
    var t := SkipWs(s);
    if |t| == 0 || t[0] != '"' then None
    else match ParseString(t[1..])
      case None => None
      case Some((k, afterKey)) =>
        var a := SkipWs(afterKey);
        if |a| == 0 || a[0] != ':' then None
        else match ParseValue(a[1..])
          case None => None
          case Some((v, rest)) => Some((k, v, rest))
  }

  /** The members of an object after its `{`, up to and including the closing `}`. A key
      written twice keeps its later value. */
  function ParseFields(s: string): (r: Option<(map<string, Value>, string)>)
    ensures r.Some? ==> |r.value.1| < |s|
    decreases |s|, 4
  {
    match ParseMember(s)
    case None => None
    case Some((k, v, rest)) =>
      var t := SkipWs(rest);
      if |t| == 0 then None
      else if t[0] == '}' then Some((map[k := v], t[1..]))
      else if t[0] == ',' then
        match ParseFields(t[1..])
        case None => None
        case Some((m, rest')) => Some((if k in m then m else m[k := v], rest'))
      else None
  }

  /** `JSON.parse(s)`: one value with nothing but whitespace around it; `None` where the
      source's parse throws. */
  function Parse(s: string): (r: Option<Value>)
    ensures r.Some? ==> |s| > 0
  {
    match ParseValue(s)
    case None => None
    case Some((v, rest)) => if SkipWs(rest) == "" then Some(v) else None
  }

  // ---------------------------------------------------------------- round trip

  /** What may follow a number without being read as more of its digits. */
  predicate Delimited(rest: string) {
    |rest| == 0 || !IsDigit(rest[0])
  }

  /** One plain character of a string literal. */
  lemma ParseStringPlain(s: string, body: string, rest: string)
    requires |s| > 0 && s[0] != '"' && s[0] != '\\' && (s[0] as int) >= 0x20
    requires ParseString(s[1..]) == Some((body, rest))
    ensures ParseString(s) == Some(([s[0]] + body, rest))
  {
  }

  /** One escape sequence of a string literal. */
  lemma ParseStringEscape(s: string, c: char, n: nat, body: string, rest: string)
    requires |s| > 0 && s[0] == '\\' && ParseEscape(s[1..]) == Some((c, n))
    requires ParseString(s[1 + n..]) == Some((body, rest))
    ensures ParseString(s) == Some(([c] + body, rest))
  {
  }

  /** A character written as itself is neither a quote, a backslash nor a control character. */
  lemma EscapePlain(c: char)
    requires |EscapeChar(c)| == 1
    ensures EscapeChar(c) == [c] && c != '"' && c != '\\' && (c as int) >= 0x20
  {
  }

  /** The hex digits of `\u00XX` read back as the code they were written from. */
  lemma HexDigitValue(d: nat)
    requires d < 16
    ensures IsHex(HexDigits[d]) && HexValue(HexDigits[d]) == d
  {
  }

  /** An escaped character reads back as that character, whatever text follows it. */
  lemma EscapeReads(c: char, u: string)
    requires |EscapeChar(c)| != 1
    ensures EscapeChar(c)[0] == '\\'
    ensures ParseEscape(EscapeChar(c)[1..] + u) == Some((c, |EscapeChar(c)| - 1))
  {
    if c != '"' && c != '\\' && c != '\n' && c != '\r' && c != '\t' && c as int != 8 && c as int != 12 {
      var e := EscapeChar(c)[1..] + u;
      var hi := c as int / 16;
      var lo := c as int % 16;
      HexDigitValue(hi);
      HexDigitValue(lo);
      assert e[1..5] == "00" + [HexDigits[hi], HexDigits[lo]];
      assert Hex4(e[1..]) == Some(c as int);
    }
  }

  /** An escaped character in front of the rest of a literal reads back as that character. */
  lemma ParseStringChar(c: char, u: string, body: string, rest: string)
    requires ParseString(u) == Some((body, rest))
    ensures ParseString(EscapeChar(c) + u) == Some(([c] + body, rest))
  {
    var t := EscapeChar(c) + u;
    if |EscapeChar(c)| == 1 {
      EscapePlain(c);
      assert t[1..] == u;
      ParseStringPlain(t, body, rest);
    } else {
      var n := |EscapeChar(c)| - 1;
      EscapeReads(c, u);
      assert t[1..] == EscapeChar(c)[1..] + u;
      assert t[1 + n..] == u;
      ParseStringEscape(t, c, n, body, rest);
    }
  }

  lemma Regroup(a: string, b: string, q: string, r: string)
    ensures a + b + q + r == a + (b + q + r)
  {
  }

  lemma EscapeFirst(s: string, rest: string)
    requires |s| > 0
    ensures Escape(s) + "\"" + rest == EscapeChar(s[0]) + (Escape(s[1..]) + "\"" + rest)
  {
    assert Escape(s) == EscapeChar(s[0]) + Escape(s[1..]);
    Regroup(EscapeChar(s[0]), Escape(s[1..]), "\"", rest);
  }

  lemma {:induction false} ParseEscaped(s: string, rest: string)
    ensures ParseString(Escape(s) + "\"" + rest) == Some((s, rest))
    decreases |s|
  {
    if |s| == 0 {
      var t := Escape(s) + "\"" + rest;
      assert t == "\"" + rest;
      assert t[1..] == rest;
    } else {
      ParseEscaped(s[1..], rest);
      EscapeFirst(s, rest);
      ParseStringChar(s[0], Escape(s[1..]) + "\"" + rest, s[1..], rest);
      assert [s[0]] + s[1..] == s;
    }
  }

  lemma {:induction false} DigitRunAppend(d: string, rest: string)
    requires forall i :: 0 <= i < |d| ==> IsDigit(d[i])
    requires Delimited(rest)
    ensures DigitRun(d + rest) == |d|
    decreases |d|
  {
    if |d| > 0 {
      assert (d + rest)[1..] == d[1..] + rest;
      DigitRunAppend(d[1..], rest);
    }
  }

  /** The decimal notation of a positive number does not start with a zero. */
  lemma {:induction false} DecimalLead(n: nat)
    requires n > 0
    ensures Decimal(n)[0] != '0'
  {
    if n >= 10 {
      DecimalLead(n / 10);
    }
  }

  lemma ParseDecimal(n: nat, rest: string)
    requires Delimited(rest)
    ensures ParseNatural(Decimal(n) + rest) == Some((n, rest))
  {
    var d := Decimal(n);
    if n > 0 { DecimalLead(n); }
    DigitRunAppend(d, rest);
    assert (d + rest)[..|d|] == d && (d + rest)[|d|..] == rest;
    DecimalValue(n);
  }

  /** Text that starts with neither bracket is read as a scalar. */
  lemma ParseValueScalar(s: string)
    requires |s| > 0 && s[0] != '[' && s[0] != '{' && !IsWs(s[0])
    ensures ParseValue(s) == ParseScalar(s)
  {
    assert SkipWs(s) == s;
  }

  lemma ParseNumberText(n: int, rest: string)
    requires Delimited(rest)
    ensures ParseValue(NumberText(n) + rest) == Some((Num(n), rest))
  {
    var t := NumberText(n) + rest;
    assert t[0] == NumberText(n)[0];
    ParseValueScalar(t);
    if n < 0 {
      ParseNegative(n, rest);
    } else {
      ParseNonNegative(n, rest);
    }
  }

  lemma ParseNegative(n: int, rest: string)
    requires n < 0 && Delimited(rest)
    ensures ParseScalar(NumberText(n) + rest) == Some((Num(n), rest))
  {
    assert NumberText(n) == "-" + Decimal(-n);
    ParseMinusText(-n, rest);
  }

  /** A minus sign before a natural number, read. */
  lemma ParseMinus(s: string, k: nat, rest: string)
    requires |s| > 0 && s[0] == '-' && ParseNatural(s[1..]) == Some((k, rest))
    ensures ParseScalar(s) == Some((Num(-(k as int)), rest))
  {
  }

  lemma ParseMinusText(k: nat, rest: string)
    requires Delimited(rest)
    ensures ParseScalar("-" + Decimal(k) + rest) == Some((Num(-(k as int)), rest))
  {
    var s := "-" + Decimal(k) + rest;
    assert s[1..] == Decimal(k) + rest;
    ParseDecimal(k, rest);
    ParseMinus(s, k, rest);
  }

  lemma ParseNonNegative(n: int, rest: string)
    requires n >= 0 && Delimited(rest)
    ensures ParseScalar(NumberText(n) + rest) == Some((Num(n), rest))
  {
    var t := NumberText(n) + rest;
    assert t == Decimal(n) + rest;
    assert IsDigit(t[0]);
    ParseDecimal(n, rest);
  }

  lemma {:induction false} ParseSerialized(v: Value, rest: string)
    requires Delimited(rest)
    ensures ParseValue(Serialize(v) + rest) == Some((v, rest))
    decreases v, 2, 0
  {
    match v
    case Null =>
      var t := Serialize(v) + rest;
      assert StartsWith(t, "null") && t[4..] == rest;
    case Bool(b) =>
      var t := Serialize(v) + rest;
      if b { assert StartsWith(t, "true") && t[4..] == rest; }
      else { assert StartsWith(t, "false") && t[5..] == rest; }
    case Num(n) =>
      ParseNumberText(n, rest);
    case Str(s) =>
      ParseQuoted(s, rest);
    case Arr(items) =>
      ParseSerializedArray(items, rest);
    case Obj(m) =>
      ParseSerializedObject(m, rest);
  }

  lemma ParseQuoted(s: string, rest: string)
    ensures ParseValue(Quote(s) + rest) == Some((Str(s), rest))
  {
    var t := Quote(s) + rest;
    assert t[1..] == Escape(s) + "\"" + rest;
    ParseEscaped(s, rest);
  }

  lemma {:induction false} ParseSerializedArray(items: seq<Value>, rest: string)
    ensures ParseValue(Serialize(Arr(items)) + rest) == Some((Arr(items), rest))
    decreases Arr(items), 1, 0
  {
    var t := Serialize(Arr(items)) + rest;
    if |items| == 0 {
      assert t[2..] == rest;
    } else {
      assert t[1..] == SerializeItems(items) + "]" + rest;
      ParseSerializedItems(items, rest);
    }
  }

  lemma {:induction false} ParseSerializedObject(m: map<string, Value>, rest: string)
    ensures ParseValue(Serialize(Obj(m)) + rest) == Some((Obj(m), rest))
    decreases Obj(m), 1, 0
  {
    if |m| == 0 {
      ParseEmptyObject(m, rest);
    } else {
      var ks := SortedKeys(m.Keys);
      ParseSerializedFields(m, ks, rest);
      RestrictAll(m, ks);
      ParseObjectText(m, ks, rest);
    }
  }

  lemma ParseEmptyObject(m: map<string, Value>, rest: string)
    requires |m| == 0
    ensures ParseValue(Serialize(Obj(m)) + rest) == Some((Obj(m), rest))
  {
    var t := Serialize(Obj(m)) + rest;
    assert t[2..] == rest;
    assert m == map[];
  }

  /** The step from the members of a non-empty object to the whole object. */
  lemma ParseObjectText(m: map<string, Value>, ks: seq<string>, rest: string)
    requires |m| > 0 && ks == SortedKeys(m.Keys)
    requires ParseFields(SerializeFields(m, ks) + "}" + rest) == Some((m, rest))
    ensures ParseValue(Serialize(Obj(m)) + rest) == Some((Obj(m), rest))
  {
    var inner := SerializeFields(m, ks) + "}" + rest;
    ObjectText(m, rest);
    assert ParseObject("{" + inner) == Some((Obj(m), rest));
  }

  lemma ObjectText(m: map<string, Value>, rest: string)
    requires |m| > 0
    ensures Serialize(Obj(m)) + rest == "{" + (SerializeFields(m, SortedKeys(m.Keys)) + "}" + rest)
  {
  }

  lemma {:induction false} ParseSerializedItems(items: seq<Value>, rest: string)
    requires |items| > 0
    ensures ParseItems(SerializeItems(items) + "]" + rest) == Some((items, rest))
    decreases items
  {
    var head := Serialize(items[0]);
    if |items| == 1 {
      assert SerializeItems(items) + "]" + rest == head + ("]" + rest);
      ParseSerialized(items[0], "]" + rest);
      assert ("]" + rest)[1..] == rest;
      assert [items[0]] == items;
    } else {
      var tail := SerializeItems(items[1..]) + "]" + rest;
      assert SerializeItems(items) + "]" + rest == head + ("," + tail);
      ParseSerialized(items[0], "," + tail);
      ParseSerializedItems(items[1..], rest);
      assert ("," + tail)[1..] == tail;
      assert [items[0]] + items[1..] == items;
    }
  }

  /** A key, a colon and a value, read. */
  lemma ParseMemberParts(t: string, k: string, afterKey: string, v: Value, rest: string)
    requires |t| > 0 && t[0] == '"' && ParseString(t[1..]) == Some((k, afterKey))
    requires |afterKey| > 0 && afterKey[0] == ':' && ParseValue(afterKey[1..]) == Some((v, rest))
    ensures ParseMember(t) == Some((k, v, rest))
  {
  }

  lemma MemberText(k: string, sv: string)
    ensures var t := Quote(k) + ":" + sv;
      |t| > 0 && t[0] == '"' && t[1..] == Escape(k) + "\"" + (":" + sv)
  {
    var t := Quote(k) + ":" + sv;
    assert t == "\"" + (Escape(k) + "\"" + (":" + sv));
  }

  lemma {:induction false} ParseSerializedMember(k: string, v: Value, after: string)
    requires Delimited(after)
    ensures ParseMember(Quote(k) + ":" + Serialize(v) + after) == Some((k, v, after))
    decreases v, 3, 0
  {
    var sv := Serialize(v) + after;
    var tail := ":" + sv;
    var t := Quote(k) + ":" + Serialize(v) + after;
    assert t == Quote(k) + ":" + sv;
    MemberText(k, sv);
    ParseEscaped(k, tail);
    assert tail[1..] == sv;
    ParseSerialized(v, after);
    ParseMemberParts(t, k, tail, v, after);
  }

  /** The map `ParseFields` builds from the members `ks` of `m`, first key last. */
  function Restrict(m: map<string, Value>, ks: seq<string>): map<string, Value>
    requires |ks| > 0
    requires forall k :: k in ks ==> k in m
  {
    if |ks| == 1 then map[ks[0] := m[ks[0]]] else Restrict(m, ks[1..])[ks[0] := m[ks[0]]]
  }

  lemma {:induction false} RestrictKeys(m: map<string, Value>, ks: seq<string>)
    requires |ks| > 0
    requires forall k :: k in ks ==> k in m
    ensures forall k :: k in Restrict(m, ks) <==> k in ks
    ensures forall k :: k in Restrict(m, ks) ==> Restrict(m, ks)[k] == m[k]
  {
    if |ks| > 1 {
      RestrictKeys(m, ks[1..]);
      assert ks == [ks[0]] + ks[1..];
    }
  }

  lemma RestrictAll(m: map<string, Value>, ks: seq<string>)
    requires |ks| > 0
    requires forall k :: k in ks <==> k in m
    ensures Restrict(m, ks) == m
  {
    RestrictKeys(m, ks);
  }

  /** The last member of an object, read. */
  lemma ParseFieldsLast(s: string, k: string, v: Value, after: string)
    requires ParseMember(s) == Some((k, v, after)) && |after| > 0 && after[0] == '}'
    ensures ParseFields(s) == Some((map[k := v], after[1..]))
  {
  }

  /** A member followed by more members, read. */
  lemma ParseFieldsNext(s: string, k: string, v: Value, after: string, m: map<string, Value>, rest: string)
    requires ParseMember(s) == Some((k, v, after)) && |after| > 0 && after[0] == ','
    requires ParseFields(after[1..]) == Some((m, rest)) && k !in m
    ensures ParseFields(s) == Some((m[k := v], rest))
  {
  }

  lemma AppendEmpty(h: string, rest: string)
    ensures (h + "") + "}" + rest == h + ("}" + rest)
  {
  }

  lemma AppendMore(h: string, f: string, rest: string)
    ensures (h + ("," + f)) + "}" + rest == h + ("," + (f + "}" + rest))
  {
  }

  /** The text of a single member splits into the member and the closing brace. */
  lemma FieldsTextLast(m: map<string, Value>, ks: seq<string>, rest: string)
    requires |ks| == 1 && ks[0] in m
    ensures SerializeFields(m, ks) + "}" + rest == Quote(ks[0]) + ":" + Serialize(m[ks[0]]) + ("}" + rest)
  {
    AppendEmpty(Quote(ks[0]) + ":" + Serialize(m[ks[0]]), rest);
  }

  /** The text of several members splits into the first member and the text of the others. */
  lemma FieldsTextNext(m: map<string, Value>, ks: seq<string>, rest: string)
    requires |ks| > 1
    requires forall k :: k in ks ==> k in m
    ensures SerializeFields(m, ks) + "}" + rest ==
      Quote(ks[0]) + ":" + Serialize(m[ks[0]]) + ("," + (SerializeFields(m, ks[1..]) + "}" + rest))
  {
    AppendMore(Quote(ks[0]) + ":" + Serialize(m[ks[0]]), SerializeFields(m, ks[1..]), rest);
  }

  lemma {:induction false} ParseSerializedFields(m: map<string, Value>, ks: seq<string>, rest: string)
    requires |ks| > 0
    requires forall k :: k in ks ==> k in m
    requires forall i, j :: 0 <= i < j < |ks| ==> ks[i] != ks[j]
    ensures ParseFields(SerializeFields(m, ks) + "}" + rest) == Some((Restrict(m, ks), rest))
    decreases Obj(m), 0, |ks|
  {
    var k := ks[0];
    var s := SerializeFields(m, ks) + "}" + rest;
    if |ks| == 1 {
      FieldsTextLast(m, ks, rest);
      var after := "}" + rest;
      ParseSerializedMember(k, m[k], after);
      assert after[1..] == rest;
      ParseFieldsLast(s, k, m[k], after);
    } else {
      var inner := SerializeFields(m, ks[1..]) + "}" + rest;
      var after := "," + inner;
      FieldsTextNext(m, ks, rest);
      ParseSerializedMember(k, m[k], after);
      assert after[1..] == inner;
      ParseSerializedFields(m, ks[1..], rest);
      RestrictKeys(m, ks[1..]);
      assert k !in ks[1..];
      ParseFieldsNext(s, k, m[k], after, Restrict(m, ks[1..]), rest);
    }
  }

  /** Parsing what was serialized gives the value back. */
  lemma ParseSerialize(v: Value)
    ensures Parse(Serialize(v)) == Some(v)
  {
    ParseSerialized(v, "");
    assert Serialize(v) + "" == Serialize(v);
  }

  // ---------------------------------------------------------------- whitespace and edge cases

  predicate AllWs(a: string) {
    forall i :: 0 <= i < |a| ==> IsWs(a[i])
  }

  lemma {:induction false} SkipAllWs(a: string, x: string)
    requires AllWs(a) && (|x| == 0 || !IsWs(x[0]))
    ensures SkipWs(a + x) == x
    decreases |a|
  {
    if |a| > 0 {
      assert (a + x)[1..] == a[1..] + x;
      SkipAllWs(a[1..], x);
    } else {
      assert a + x == x;
    }
  }

  /** Whitespace in front of a value is passed over. */
  lemma ParseValueAfterWs(a: string, x: string)
    requires AllWs(a) && |x| > 0 && !IsWs(x[0])
    ensures ParseValue(a + x) == ParseValue(x)
  {
    SkipAllWs(a, x);
  }

  /** Whitespace before and after a value does not change what it parses to. */
  lemma ParseAroundWs(a: string, v: Value, b: string)
    requires AllWs(a) && AllWs(b)
    ensures Parse(a + Serialize(v) + b) == Some(v)
  {
    var x := Serialize(v) + b;
    assert a + Serialize(v) + b == a + x;
    ParseValueAfterWs(a, x);
    ParseSerialized(v, b);
    SkipAllWs(b, "");
    assert b + "" == b;
  }

  /** A number written with a leading zero is refused. */
  lemma LeadingZeroRefused()
    ensures Parse("01") == None
  {
    assert DigitRun("01") == 2;
  }

  /** `\t` in a string literal is a tab. */
  lemma TabEscapeRead()
    ensures Parse("\"\\t\"") == Some(Str("\t"))
  {
    var s := "\"\\t\"";
    assert ParseEscape(s[2..]) == Some(('\t', 1));
    assert ParseString(s[3..]) == Some(("", ""));
    assert s[1..][1..] == s[2..] && s[1..][2..] == s[3..];
    ParseStringEscape(s[1..], '\t', 1, "", "");
    assert ['\t'] + "" == "\t";
    assert ParseString(s[1..]) == Some(("\t", ""));
    assert SkipWs(s) == s;
  }

  /** A control character other than the short-escaped ones is written as `\u00XX`. */
  lemma EscapeControl()
    ensures Serialize(Str([27 as char])) == "\"\\u001b\""
  {
    assert Escape([27 as char]) == EscapeChar(27 as char) + Escape([]);
  }

  /** A member whose key comes again later in the object is overridden by the later one. */
  lemma ParseFieldsRepeated(s: string, k: string, v: Value, after: string, m: map<string, Value>, rest: string)
    requires ParseMember(s) == Some((k, v, after)) && |after| > 0 && after[0] == ','
    requires ParseFields(after[1..]) == Some((m, rest)) && k in m
    ensures ParseFields(s) == Some((m, rest))
  {
  }

  /** A key written twice keeps its later value: `{"k":v,"k":w}` reads as `{"k":w}`. */
  lemma DuplicateKeyLaterWins(k: string, v: Value, w: Value)
    ensures Parse("{" + (Quote(k) + ":" + Serialize(v) + ("," + (Quote(k) + ":" + Serialize(w) + "}"))))
      == Some(Obj(map[k := w]))
  {
    var second := Quote(k) + ":" + Serialize(w) + "}";
    var first := Quote(k) + ":" + Serialize(v) + ("," + second);
    assert ParseFields(second) == Some((map[k := w], "")) by {
      ParseSerializedMember(k, w, "}");
      ParseFieldsLast(second, k, w, "}");
    }
    assert ParseFields(first) == Some((map[k := w], "")) by {
      ParseSerializedMember(k, v, "," + second);
      assert ("," + second)[1..] == second;
      ParseFieldsRepeated(first, k, v, "," + second, map[k := w], "");
    }
    var whole := "{" + first;
    assert ParseObject(whole) == Some((Obj(map[k := w]), "")) by {
      assert whole[1..] == first;
      assert SkipWs(first) == first;
    }
    assert ParseValue(whole) == ParseObject(whole) by {
      assert SkipWs(whole) == whole;
    }
    assert SkipWs("") == "";
  }
}
