/** JSON-like values as the runtime tools read them out of evidence records, and
    the small readers that every evaluator shares. */
module Values {

  datatype Option<+T> = None | Some(value: T)

  /** A number covers Python ints and finite floats, which compare by value. */
  datatype Value =
    | Null
    | Flag(b: bool)
    | Num(r: real)
    | Text(s: string)
    | Items(items: seq<Value>)

  /** Python treats True and False as the numbers 1 and 0 in comparisons and as
      dictionary keys; comparing canonical values is comparing as Python does. */
  function Canon(v: Value): Value {
    match v
    case Flag(b) => if b then Num(1.0) else Num(0.0)
    case _ => v
  }

  /** The identity test of the evaluator: a usable, non-empty, positive value. */
  predicate Present(v: Value) {
    match v
    case Null => false
    case Flag(b) => b
    case Num(r) => r > 0.0
    case Text(s) => s != ""
    case Items(_) => true
  }

  /** The number a value denotes, when it denotes an integer. */
  function Integer(v: Value): Option<int> {
    match v
    case Flag(b) => Some(if b then 1 else 0)
    case Num(r) => if r.Floor as real == r then Some(r.Floor) else None
    case _ => None
  }

  /** Python truthiness. */
  predicate Truthy(v: Value) {
    match v
    case Null => false
    case Flag(b) => b
    case Num(r) => r != 0.0
    case Text(s) => s != ""
    case Items(xs) => xs != []
  }

  function Digits(n: nat): string {
    if n < 10 then [(n + '0' as int) as char] else Digits(n / 10) + [(n % 10 + '0' as int) as char]
  }

  /** Decimal text of an integer. */
  function Decimal(n: int): string {
    if n < 0 then "-" + Digits(-n) else Digits(n)
  }

  /** The text of a value. Fractions and lists only need a text that is no keyword
      of the evidence formats. */
  function Str(v: Value): string {
    match v
    case Null => "None"
    case Flag(b) => if b then "True" else "False"
    case Num(r) => if r.Floor as real == r then Decimal(r.Floor) else Decimal(r.Floor) + ".*"
    case Text(s) => s
    case Items(_) => "[*]"
  }

  /** ASCII upper-casing. */
  function Upper(s: string): string {
    if s == "" then ""
    else [if 'a' <= s[0] <= 'z' then (s[0] as int - 32) as char else s[0]] + Upper(s[1..])
  }

  /** A number and its presence: what an integer reading tells about a canonical value. */
  lemma IntegerIsNumber(v: Value)
    requires Integer(Canon(v)).Some?
    ensures Canon(v) == Num(Integer(Canon(v)).value as real)
    ensures Present(Canon(v)) <==> Integer(Canon(v)).value > 0
  {
  }
}
