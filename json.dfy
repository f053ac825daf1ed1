/**
 * Loosely typed JavaScript values, for the records the mock database and the
 * survey context keep as plain objects (`any`, `Partial<SurveyData>`).
 * Numbers are integers: every amount the application handles is a whole number of naira.
 */
module Json {

  datatype Value =
    | Str(s: string)
    | Num(n: int)
    | Bool(b: bool)
    | Null
    | Obj(fields: map<string, Value>)

  /** A plain object; a key that is absent reads as `undefined`. */
  type Object = map<string, Value>

  /** JavaScript truthiness: `''`, `0`, `false` and `null` are falsy, objects are truthy. */
  predicate Truthy(v: Value) {
    match v
    case Str(s) => s != ""
    case Num(n) => n != 0
    case Bool(b) => b
    case Null => false
    case Obj(_) => true
  }

  /** `o[key]` is truthy (an absent key is `undefined`, which is falsy). */
  predicate TruthyField(o: Object, key: string) {
    key in o && Truthy(o[key])
  }

  /** `o[key] === Str(s)`: strict equality with a string literal. */
  predicate FieldIs(o: Object, key: string, s: string) {
    key in o && o[key] == Str(s)
  }

  /** The string at `key`, or `''` when the key is absent or holds no string (`o[key] || ''`). */
  function StrField(o: Object, key: string): (r: string)
    ensures r != "" ==> key in o && o[key] == Str(r)
  {
    if key in o && o[key].Str? then o[key].s else ""
  }

  /** Decimal digits of a natural number, most significant first. */
  function NatToString(n: nat): (r: string)
    ensures |r| > 0
    decreases n
  {
    var d := ['0', '1', '2', '3', '4', '5', '6', '7', '8', '9'][n % 10];
    if n < 10 then [d] else NatToString(n / 10) + [d]
  }

  /** `String(v)`, the key a value becomes when it indexes an object. */
  function KeyString(v: Value): string {
    match v
    case Str(s) => s
    case Num(n) => if n < 0 then "-" + NatToString(-n) else NatToString(n)
    case Bool(b) => if b then "true" else "false"
    case Null => "null"
    case Obj(_) => "[object Object]"
  }

  /** Object spread `{ ...prev, ...patch }`: the keys of `patch` win. */
  function Spread(prev: Object, patch: Object): (r: Object)
    ensures r.Keys == prev.Keys + patch.Keys
    ensures forall k :: k in patch ==> r[k] == patch[k]
    ensures forall k :: k in prev && k !in patch ==> r[k] == prev[k]
  {
    prev + patch
  }

  /** A record of strings as a plain object. */
  function FromStrings(m: map<string, string>): (r: Object)
    ensures r.Keys == m.Keys
    ensures forall k :: k in m ==> r[k] == Str(m[k])
  {
    map k | k in m :: Str(m[k])
  }
}
