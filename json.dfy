/**
 * JSON values as an XMLHttpRequest with `responseType = "json"` delivers them,
 * together with the few JavaScript operations the upload adapter applies to
 * them: truthiness, reading a property and copying own fields with `...`.
 */
module Json {
  import opened Wrappers

  datatype Json =
    | Null
    | Bool(b: bool)
    | Num(n: real)
    | Str(s: string)
    | Arr(items: seq<Json>)
    | Obj(fields: map<string, Json>)

  /** JavaScript truthiness (`if (v)`); JSON cannot produce NaN, and -0 equals 0 here. */
  predicate Truthy(v: Json) {
    match v
    case Null => false
    case Bool(b) => b
    case Num(n) => n != 0.0
    case Str(s) => s != ""
    case Arr(_) => true
    case Obj(_) => true
  }

  /** Truthiness of a property read, where `None` is `undefined`. */
  predicate TruthyRead(p: Option<Json>) {
    p.Some? && Truthy(p.value)
  }

  function DigitChar(d: nat): char
    requires d < 10
  {
    "0123456789"[d]
  }

  function DigitValue(c: char): nat {
    if '0' <= c <= '9' then (c - '0') as nat else 0
  }

  /** The property key JavaScript uses for array or string index `n`: its decimal numeral. */
  function IndexKey(n: nat): (key: string)
    ensures |key| > 0
    decreases n
  {
    if n < 10 then [DigitChar(n)] else IndexKey(n / 10) + [DigitChar(n % 10)]
  }

  /** The number a string of decimal digits denotes. */
  function DecimalValue(s: string): nat {
    if s == [] then 0 else DecimalValue(s[..|s| - 1]) * 10 + DigitValue(s[|s| - 1])
  }

  /** Reading an index key back gives the index: the numeral is a faithful encoding. */
  lemma {:induction false} DecimalValueOfIndexKey(n: nat)
    ensures DecimalValue(IndexKey(n)) == n
    decreases n
  {
    if n >= 10 {
      var prefix := IndexKey(n / 10);
      var key := prefix + [DigitChar(n % 10)];
      assert key[..|key| - 1] == prefix;
      DecimalValueOfIndexKey(n / 10);
    }
  }

  /** Distinct indices have distinct keys. */
  lemma IndexKeyInjective()
    ensures forall i: nat, j: nat :: IndexKey(i) == IndexKey(j) ==> i == j
  {
    forall i: nat, j: nat | IndexKey(i) == IndexKey(j)
      ensures i == j
    {
      DecimalValueOfIndexKey(i);
      DecimalValueOfIndexKey(j);
    }
  }

  /**
   * The own enumerable properties of a value, which is what `{...v}` copies and
   * what reading `v.key` finds: an object's fields, an array's elements or a
   * string's characters under their index keys, nothing for null, booleans and
   * numbers.
   */
  function OwnFields(v: Json): (m: map<string, Json>)
    ensures v.Obj? ==> m == v.fields
    ensures v.Arr? ==> forall i :: 0 <= i < |v.items| ==> IndexKey(i) in m && m[IndexKey(i)] == v.items[i]
    ensures v.Str? ==> forall i :: 0 <= i < |v.s| ==> IndexKey(i) in m && m[IndexKey(i)] == Str([v.s[i]])
    // The index keys are the only keys of an array or a string.
    ensures v.Arr? ==> m.Keys == set i | 0 <= i < |v.items| :: IndexKey(i)
    ensures v.Str? ==> m.Keys == set i | 0 <= i < |v.s| :: IndexKey(i)
    ensures v.Null? || v.Bool? || v.Num? ==> m == map[]
  {
    IndexKeyInjective();
    match v
    case Obj(fields) => fields
    case Arr(items) => map i | 0 <= i < |items| :: IndexKey(i) := items[i]
    case Str(s) => map i | 0 <= i < |s| :: IndexKey(i) := Str([s[i]])
    case _ => map[]
  }

  /**
   * `v.key` on a value that is not null: the own property if there is one, else
   * `undefined`. Non-enumerable and inherited properties (`length`, prototype
   * methods) are not represented; none of the keys the adapter reads is one of them.
   */
  function Prop(v: Json, key: string): (p: Option<Json>)
    requires !v.Null?
    ensures p.Some? <==> key in OwnFields(v)
    ensures p.Some? ==> p.value == OwnFields(v)[key]
  {
    var fields := OwnFields(v);
    if key in fields then Some(fields[key]) else None
  }
}
