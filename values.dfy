/** The loosely typed values the configuration and the generated JSON document
    carry (what YAML loading and `json.dumps` see). */
module Values {
  import Decimal

  datatype Value =
    | Null
    | Bool(b: bool)
    | Int(i: int)
    | Str(s: string)
    | List(elems: seq<Value>)
    | Object(fields: map<string, Value>)

  /** Python truthiness, as used by `if x:` and `if d.get(k):`. */
  predicate Truthy(v: Value) {
    match v
    case Null => false
    case Bool(b) => b
    case Int(i) => i != 0
    case Str(s) => s != ""
    case List(l) => l != []
    case Object(m) => m != map[]
  }

  /** `d.get(k)`: `None` when the key is absent. */
  function Get(d: map<string, Value>, k: string): (v: Value)
    ensures k in d ==> v == d[k]
    ensures k !in d ==> v == Null
  {
    if k in d then d[k] else Null
  }

  /** `d.get(k, default)`. */
  function GetOr(d: map<string, Value>, k: string, default: Value): (v: Value)
    ensures k in d ==> v == d[k]
    ensures k !in d ==> v == default
  {
    if k in d then d[k] else default
  }

  /** `"%s" % v` for a scalar value; lists and mappings (whose `repr` text is
      not modelled) give the empty string. */
  function Show(v: Value): string {
    match v
    case Null => "None"
    case Bool(b) => if b then "True" else "False"
    case Int(i) => Decimal.IntText(i)
    case Str(s) => s
    case List(_) => ""
    case Object(_) => ""
  }
}
