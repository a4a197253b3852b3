/** The few JavaScript value rules the pages rely on: truthiness, `a || b`,
    property access that yields `undefined` when absent, and a count read
    as `(v || 0)`. */
module JsValues {
  import opened Common

  /** A JSON value as the pages receive it, plus `undefined`. */
  datatype JsValue =
    | Undefined
    | Null
    | Bool(b: bool)
    | Num(n: real)
    | Str(s: string)
    | Obj(fields: map<string, JsValue>)
    | Arr(items: seq<JsValue>)

  /** JavaScript truthiness (NaN is not modelled). */
  predicate Truthy(v: JsValue)
  {
    match v
    case Undefined => false
    case Null => false
    case Bool(b) => b
    case Num(n) => n != 0.0
    case Str(s) => s != ""
    case Obj(_) => true
    case Arr(_) => true
  }

  /** `v.k` (and `v?.k`): the property when `v` is an object holding it,
      `undefined` otherwise. */
  function Field(v: JsValue, k: string): (r: JsValue)
    ensures v.Obj? && k in v.fields ==> r == v.fields[k]
    ensures !(v.Obj? && k in v.fields) ==> r == Undefined
  {
    if v.Obj? && k in v.fields then v.fields[k] else Undefined
  }

  /** `a || b`. */
  function Or(a: JsValue, b: JsValue): (r: JsValue)
    ensures Truthy(a) ==> r == a
    ensures !Truthy(a) ==> r == b
  {
    if Truthy(a) then a else b
  }

  /** `(v || 0)` used as a number: a number is itself, `true` is 1, and
      every falsy value is 0. */
  function NumOr0(v: JsValue): (r: real)
    ensures !Truthy(v) ==> r == 0.0
    ensures v.Num? ==> r == v.n
    ensures v == Bool(true) ==> r == 1.0
  {
    match v
    case Num(n) => n
    case Bool(b) => if b then 1.0 else 0.0
    case _ => 0.0
  }

  /** `(v.k || 0)`. */
  function Count(v: JsValue, k: string): real
  {
    NumOr0(Field(v, k))
  }

  /** The string `v.k` holds when it is a non-empty string, the test
      `v && v.k && typeof v.k === "string"`. */
  function StringField(v: JsValue, k: string): (r: Option<string>)
    ensures r.Some? <==> Truthy(v) && Field(v, k).Str? && Field(v, k).s != ""
    ensures r.Some? ==> r.value == Field(v, k).s
  {
    if Truthy(v) && Field(v, k).Str? && Field(v, k).s != "" then Some(Field(v, k).s) else None
  }

  /** The record as a backend row: each property read as `(v || 0)`. */
  function AsRow(v: JsValue): (row: map<string, real>)
    ensures forall k :: Get(row, k) == Count(v, k)
  {
    match v
    case Obj(fields) => map k | k in fields :: NumOr0(fields[k])
    case _ => map[]
  }

  /** Every count of the record is non-negative. */
  ghost predicate CountsNonNegative(v: JsValue)
  {
    forall k :: Count(v, k) >= 0.0
  }

  /** `total > 0 ? Math.round((part / total) * 100) : 0`. */
  function RoundedPercent(part: real, total: real): (r: int)
    ensures total <= 0.0 ==> r == 0
    ensures total > 0.0 && 0.0 <= part <= total ==> 0 <= r <= 100
    ensures total > 0.0 ==> r as real - 0.5 <= part / total * 100.0 < r as real + 0.5
  {
    if total > 0.0 then
      var q := part / total * 100.0;
      PercentRange(part, total);
      RoundHalfUp(q)
    else 0
  }

  lemma PercentRange(part: real, total: real)
    requires total > 0.0
    ensures 0.0 <= part <= total ==> 0.0 <= part / total * 100.0 <= 100.0
  {
    if 0.0 <= part <= total {
      assert part / total <= 1.0;
    }
  }
}
