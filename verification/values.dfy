/**
 * PHP values as the SDK sees them: scalars, `null`, and arrays. A PHP
 * array with string keys is a `map<string, Value>`; an ordered list is a
 * `seq<Value>`. Key order inside a PHP array is not modelled.
 */
module Values {
  import opened Basics

  datatype Value =
    | Null
    | Bool(b: bool)
    | Int(i: int)
    | Str(s: string)
    | Map(m: map<string, Value>)
    | List(items: seq<Value>)

  type Array = map<string, Value>

  /** The PHP literal `[]`. */
  const EmptyArray: Value := Map(map[])

  /** A PHP string is "empty" when it is `""` or `"0"`. */
  predicate EmptyString(s: string) {
    s == "" || s == "0"
  }

  /** PHP `empty($v)` for a value that exists: null, false, 0, "", "0" and [] are empty. */
  predicate IsEmpty(v: Value) {
    match v
    case Null => true
    case Bool(b) => !b
    case Int(i) => i == 0
    case Str(s) => EmptyString(s)
    case Map(m) => |m| == 0
    case List(items) => |items| == 0
  }

  /** PHP truthiness: a value is truthy exactly when it is not empty. */
  predicate Truthy(v: Value) {
    !IsEmpty(v)
  }

  /** PHP `empty($a[k])`: a missing key counts as empty, without a warning. */
  predicate Missing(a: Array, k: string) {
    k !in a || IsEmpty(a[k])
  }

  /** PHP `$a[k] ?? null`. */
  function Get(a: Array, k: string): (v: Value)
    ensures k !in a ==> v == Null
    ensures k in a ==> v == a[k]
  {
    if k in a then a[k] else Null
  }

  /** PHP `$a[k] ?? $default`: the default is used when the key is missing or holds null. */
  function GetOr(a: Array, k: string, default: Value): (v: Value)
    ensures k in a && a[k] != Null ==> v == a[k]
    ensures (k !in a || a[k] == Null) ==> v == default
  {
    if k in a && a[k] != Null then a[k] else default
  }

  /** PHP `array_merge($left, $right)` over string keys: every key of either side,
      and the right-hand value wins on a shared key. */
  function Merge(left: Array, right: Array): (r: Array)
    ensures r.Keys == left.Keys + right.Keys
    ensures forall k :: k in right ==> r[k] == right[k]
    ensures forall k :: k in left && k !in right ==> r[k] == left[k]
  {
    left + right
  }

  /** A nullable PHP string as a value. */
  function OfOption(o: Option<string>): (v: Value)
    ensures o.None? <==> v == Null
    ensures o.Some? ==> v == Str(o.value)
  {
    match o
    case None => Null
    case Some(s) => Str(s)
  }

  /** Reads a value where the source demands a PHP array with string keys:
      a map as itself, an empty list as the empty array; anything else does not fit. */
  function AsArray(v: Value): (r: Option<Array>)
    ensures v.Map? ==> r == Some(v.m)
    ensures v == List([]) ==> r == Some(map[])
    ensures r.Some? ==> v.Map? || v == List([])
  {
    match v
    case Map(m) => Some(m)
    case List(items) => if |items| == 0 then Some(map[]) else None
    case _ => None
  }
}
