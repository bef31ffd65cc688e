/** The JSON values that travel between the hook command, the daemon, the log file and the
    browser, with the few JavaScript operations the source applies to them: property reads,
    truthiness, `??` and object spread. Numbers are integers here. */
module Json {
  import opened Wrappers

  datatype Value =
    | Null
    | Bool(b: bool)
    | Num(n: int)
    | Str(s: string)
    | Arr(items: seq<Value>)
    | Obj(fields: map<string, Value>)

  /** A JavaScript object with string keys; a key that is absent reads as `undefined`. */
  type Record = map<string, Value>

  /** `r.k`: `None` is `undefined`. */
  function Field(r: Record, k: string): (o: Option<Value>)
    ensures o.Some? <==> k in r
    ensures o.Some? ==> o.value == r[k]
  {
    if k in r then Some(r[k]) else None
  }

  /** A key whose value is `undefined` is not stored. */
  function Put(r: Record, k: string, o: Option<Value>): (r': Record)
    ensures Field(r', k) == (if o.Some? then o else Field(r, k))
    ensures forall j :: j != k ==> Field(r', j) == Field(r, j)
  {
    if o.Some? then r[k := o.value] else r
  }

  /** `v?.k` on an arbitrary value: only objects have named properties. */
  function Member(v: Value, k: string): (o: Option<Value>)
    ensures o.Some? <==> v.Obj? && k in v.fields
  {
    if v.Obj? then Field(v.fields, k) else None
  }

  /** JavaScript truthiness (`undefined` is falsy). */
  predicate Truthy(o: Option<Value>) {
    match o
    case None => false
    case Some(Null) => false
    case Some(Bool(b)) => b
    case Some(Num(n)) => n != 0
    case Some(Str(s)) => s != ""
    case Some(_) => true
  }

  /** `o ?? d`: the default replaces `undefined` and `null` only. */
  function Coalesce(o: Option<Value>, d: Value): (v: Value)
    ensures (o.None? || o.value == Null) ==> v == d
    ensures o.Some? && o.value != Null ==> v == o.value
  {
    if o.Some? && o.value != Null then o.value else d
  }

  function DigitChar(d: nat): (c: char)
    requires d < 10
  {
    "0123456789"[d]
  }

  predicate IsDigit(c: char) {
    '0' <= c <= '9'
  }

  function DigitValue(c: char): nat
    requires IsDigit(c)
  {
    (c as int - '0' as int) as nat
  }

  /** The decimal notation of `n` (no sign, no leading zeros). */
  function Decimal(n: nat): (r: string)
    ensures |r| > 0
    ensures forall i :: 0 <= i < |r| ==> IsDigit(r[i])
  {
    if n < 10 then [DigitChar(n)] else Decimal(n / 10) + [DigitChar(n % 10)]
  }

  /** The number a string of decimal digits denotes. */
  function DigitsValue(ds: string): nat
    requires forall i :: 0 <= i < |ds| ==> IsDigit(ds[i])
  {
    if |ds| == 0 then 0 else DigitsValue(ds[..|ds| - 1]) * 10 + DigitValue(ds[|ds| - 1])
  }

  lemma {:induction false} DecimalValue(n: nat)
    ensures DigitsValue(Decimal(n)) == n
  {
    var d := Decimal(n);
    if n >= 10 {
      DecimalValue(n / 10);
      assert d[..|d| - 1] == Decimal(n / 10);
    }
  }

  lemma DecimalInjective()
    ensures forall a: nat, b: nat :: Decimal(a) == Decimal(b) ==> a == b
  {
    forall a: nat, b: nat | Decimal(a) == Decimal(b) ensures a == b {
      DecimalValue(a);
      DecimalValue(b);
    }
  }

  /** The own enumerable properties `{...v}` copies: an object's fields, the indices of a string
      (one-character strings) or of an array, and nothing for null, booleans and numbers. */
  function Spread(v: Value): (r: Record)
    ensures v.Obj? ==> r == v.fields
    ensures v.Str? ==> forall i :: 0 <= i < |v.s| ==> Decimal(i) in r && r[Decimal(i)] == Str([v.s[i]])
    ensures v.Arr? ==> forall i :: 0 <= i < |v.items| ==> Decimal(i) in r && r[Decimal(i)] == v.items[i]
    ensures v.Null? || v.Bool? || v.Num? ==> r == map[]
  {
    match v
    case Obj(m) => m
    case Str(s) => IndexMap(seq(|s|, i requires 0 <= i < |s| => Str([s[i]])))
    case Arr(items) => IndexMap(items)
    case _ => map[]
  }

  /** The object whose key `Decimal(i)` holds `xs[i]`, and no other key. */
  function IndexMap(xs: seq<Value>): (r: Record)
    ensures forall i :: 0 <= i < |xs| ==> Decimal(i) in r && r[Decimal(i)] == xs[i]
    ensures forall k :: k in r ==> exists i :: 0 <= i < |xs| && k == Decimal(i)
  {
    DecimalInjective();
    map i | 0 <= i < |xs| :: Decimal(i) := xs[i]
  }
}
