/**
 * The values that `json_decode($body, true)` produces, and the few PHP
 * operations the marketplace client performs on them: `empty()`, `$v['key']`,
 * `foreach`, `array_pop` and conversion to string.
 */
module PhpValue {
  /** A PHP array key: lists decoded from JSON have integer keys, objects string keys. */
  datatype Key = IntKey(i: int) | StrKey(s: string)

  /** A decoded value; a PHP array is an ordered sequence of key/value entries. */
  datatype Value =
    | Null
    | Bool(b: bool)
    | Int(i: int)
    | Str(s: string)
    | Arr(entries: seq<(Key, Value)>)

  /** `array()` */
  const EmptyArray: Value := Arr([])

  /** PHP's `empty($v)`. */
  predicate IsEmpty(v: Value) {
    match v
    case Null => true
    case Bool(b) => !b
    case Int(i) => i == 0
    case Str(s) => s == "" || s == "0"
    case Arr(es) => es == []
  }

  /** The value stored under `k` in an entry list, or null when there is none. */
  function Lookup(es: seq<(Key, Value)>, k: Key): Value {
    if es == [] then Null
    else if es[0].0 == k then es[0].1
    else Lookup(es[1..], k)
  }

  /**
   * `$v['k']` for a non-numeric key `k`: the entry's value, or null when the
   * key is missing or `v` is not an array.
   */
  function Get(v: Value, k: string): Value {
    if v.Arr? then Lookup(v.entries, StrKey(k)) else Null
  }

  /**
   * The values `foreach ($v as $x)` visits: an array's values in order; a
   * scalar is skipped (PHP warns and runs the body zero times).
   */
  function Elements(v: Value): (r: seq<Value>)
    ensures v.Arr? ==> |r| == |v.entries| && forall i :: 0 <= i < |r| ==> r[i] == v.entries[i].1
    ensures !v.Arr? ==> r == []
  {
    if v.Arr? then seq(|v.entries|, i requires 0 <= i < |v.entries| => v.entries[i].1) else []
  }

  /** A list built with `$a[] = $x`: the values in order under the keys 0, 1, 2, ... */
  function ListOf(vs: seq<Value>): (r: Value)
    ensures r.Arr? && |r.entries| == |vs|
    ensures forall i :: 0 <= i < |vs| ==> r.entries[i] == (IntKey(i), vs[i])
  {
    Arr(seq(|vs|, i requires 0 <= i < |vs| => (IntKey(i), vs[i])))
  }

  /** `array_pop($v)`'s result: the last entry's value; null for an empty array or a non-array. */
  function LastElement(v: Value): (r: Value)
    ensures v.Arr? && v.entries != [] ==> r == v.entries[|v.entries| - 1].1
    ensures !v.Arr? || v.entries == [] ==> r == Null
  {
    if v.Arr? && v.entries != [] then v.entries[|v.entries| - 1].1 else Null
  }

  function DecimalDigit(d: nat): char
    requires d < 10
  {
    "0123456789"[d]
  }

  function NatToDecimal(n: nat): string
    decreases n
  {
    if n < 10 then [DecimalDigit(n)] else NatToDecimal(n / 10) + [DecimalDigit(n % 10)]
  }

  /** `(string)$v`, as done by the `.` operator and by `sprintf('%s', $v)`. */
  function ToPhpString(v: Value): string {
    match v
    case Null => ""
    case Bool(b) => if b then "1" else ""
    case Int(i) => if i < 0 then "-" + NatToDecimal(-i) else NatToDecimal(i)
    case Str(s) => s
    case Arr(_) => "Array"
  }
}
