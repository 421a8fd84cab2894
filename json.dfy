/** JSON documents as the request handlers see them, and the few pieces of
    JavaScript value semantics the handlers rely on: reading a field that may
    be undefined, numeric coercion for `*` and `-`, and how the MongoDB driver
    stores `undefined`. */
module Json {

  datatype Option<+T> = None | Some(value: T)

  /** A scalar field value. `Num` is an exact number (floating-point rounding
      is not modelled); `NaN` is the JavaScript number NaN. */
  datatype Value = Null | Bool(b: bool) | Num(x: real) | NaN | Str(s: string)

  /** A flat document (a request body or a stored record): field name to value. */
  type Doc = map<string, Value>

  /** `doc.name` on a document, `findOne({ _id })` on a collection: `None`
      stands for `undefined` or `null`. */
  function Get<K, V>(m: map<K, V>, key: K): (v: Option<V>)
    ensures v.Some? <==> key in m
    ensures v.Some? ==> v.value == m[key]
  {
    if key in m then Some(m[key]) else None
  }

  /** The value the MongoDB driver writes for a JavaScript value: `undefined`
      is serialised as `null`. */
  function Stored(v: Option<Value>): (w: Value)
    ensures v.Some? ==> w == v.value
    ensures v.None? ==> w == Null
  {
    if v.Some? then v.value else Null
  }

  /** JavaScript's ToNumber on the operand of an arithmetic operator:
      undefined is NaN, null is 0, booleans are 0 or 1, numbers stay. */
  function ToNumber(v: Option<Value>): (n: Value)
    ensures n.Num? || n.NaN?
    ensures v.Some? && v.value.Num? ==> n == v.value
    ensures v.None? || v == Some(NaN) ==> n == NaN
    ensures v == Some(Null) ==> n == Num(0.0)
  {
    match v
    case None => NaN
    case Some(Null) => Num(0.0)
    case Some(Bool(b)) => Num(if b then 1.0 else 0.0)
    case Some(Num(x)) => Num(x)
    case Some(NaN) => NaN
    case Some(Str(_)) => NaN
  }

  /** `a - b` in JavaScript: NaN as soon as either operand is not a number. */
  function Minus(a: Option<Value>, b: Option<Value>): (r: Value)
    ensures r.Num? <==> ToNumber(a).Num? && ToNumber(b).Num?
    ensures r.Num? ==> r.x == ToNumber(a).x - ToNumber(b).x
    ensures !r.Num? ==> r == NaN
  {
    match (ToNumber(a), ToNumber(b))
    case (Num(x), Num(y)) => Num(x - y)
    case _ => NaN
  }

  /** `a * k` in JavaScript for a numeric literal `k`. */
  function Times(a: Option<Value>, k: real): (r: Value)
    ensures r.Num? <==> ToNumber(a).Num?
    ensures r.Num? ==> r.x == ToNumber(a).x * k
    ensures !r.Num? ==> r == NaN
  {
    match ToNumber(a)
    case Num(x) => Num(x * k)
    case _ => NaN
  }
}
