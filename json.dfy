/**
 * The JSON-like values that flow through the resource engine: request
 * parameters, request bodies, filter clauses, join profiles and responses.
 */
module Json {

  /** A decoded JSON document, the way Python holds it after `json.loads`. */
  datatype Value =
    | Null
    | Bool(b: bool)
    | Int(i: int)
    | Str(s: string)
    | List(items: seq<Value>)
    | Dict(entries: map<string, Value>)

  /** Python's truth value of a decoded document (`if x:` / `if not x:`). */
  predicate Truthy(v: Value) {
    match v
    case Null => false
    case Bool(b) => b
    case Int(i) => i != 0
    case Str(s) => s != ""
    case List(items) => items != []
    case Dict(m) => m != map[]
  }

  /** `dict.get(key, default)` on a decoded mapping. */
  function Get(m: map<string, Value>, key: string, default: Value): (r: Value)
    ensures key in m ==> r == m[key]
    ensures key !in m ==> r == default
  {
    if key in m then m[key] else default
  }

  /** `s.startswith('-')` */
  predicate StartsWithDash(s: string) {
    |s| > 0 && s[0] == '-'
  }

  /**
   * The order in which Python iterates the keys of a dictionary.  Python 2
   * leaves it unspecified, so the model is parametric in it.
   */
  type KeyOrder = set<string> -> seq<string>

  /** `keys` lists every element of `s` exactly once. */
  ghost predicate Enumerates(keys: seq<string>, s: set<string>) {
    && (forall k :: k in keys <==> k in s)
    && (forall i, j :: 0 <= i < j < |keys| ==> keys[i] != keys[j])
  }

  /** The key order is a genuine iteration order for every key set. */
  ghost predicate ValidOrder(order: KeyOrder) {
    forall s: set<string> :: Enumerates(order(s), s)
  }

  /** Decimal text of an integer, as `str(i)` prints it. */
  function IntToString(i: int): (r: string)
    decreases if i < 0 then 1 - i else i
  {
    if i < 0 then "-" + IntToString(-i)
    else if i < 10 then [Digit(i)]
    else IntToString(i / 10) + [Digit(i % 10)]
  }

  function Digit(d: int): char
    requires 0 <= d < 10
  {
    "0123456789"[d]
  }

  /**
   * The text `str.format` substitutes for a value in an error message.
   * Strings, numbers, booleans and None print as Python prints them;
   * lists and mappings are abbreviated.
   */
  function Show(v: Value): (r: string)
    ensures v.Str? ==> r == v.s
  {
    match v
    case Null => "None"
    case Bool(b) => if b then "True" else "False"
    case Int(i) => IntToString(i)
    case Str(s) => s
    case List(_) => "[...]"
    case Dict(_) => "{...}"
  }
}
