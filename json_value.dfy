/** Decoded JSON values as the scripts see them after `json.loads`, and the bits
    of Python dictionary semantics the normalisers use on them: truthiness,
    `dict.get` with a default, and `a or b or c` chains. */
module JsonValue {

  datatype Option<+T> = None | Some(value: T) {
    function GetOr(default: T): T {
      match this
      case Some(v) => v
      case None => default
    }
  }

  /** A decoded JSON value. Objects are maps: the key order of a Python dict is
      not modelled. Numbers are integers. */
  datatype Json =
    | JNull
    | JBool(b: bool)
    | JNum(n: int)
    | JStr(s: string)
    | JArr(items: seq<Json>)
    | JObj(fields: map<string, Json>)

  /** Python truthiness: `None`, `False`, `0`, `""`, `[]` and `{}` are false. */
  predicate Truthy(j: Json) {
    match j
    case JNull => false
    case JBool(b) => b
    case JNum(n) => n != 0
    case JStr(s) => s != ""
    case JArr(xs) => xs != []
    case JObj(m) => m != map[]
  }

  /** `d.get(key, default)`; `d.get(key)` is `Get(d, key, JNull)`. */
  function Get(fields: map<string, Json>, key: string, default: Json): Json {
    if key in fields then fields[key] else default
  }

  /** Python's `c0 or c1 or ... or cn`: the first truthy operand, or the last
      operand when none before it is truthy. */
  function OrChain(cs: seq<Json>): Json
    requires cs != []
  {
    if |cs| == 1 || Truthy(cs[0]) then cs[0] else OrChain(cs[1..])
  }

  /** The chain yields the first truthy candidate. */
  lemma {:induction false} OrChainFirstTruthy(cs: seq<Json>, i: nat)
    requires i < |cs| && Truthy(cs[i])
    requires forall k :: 0 <= k < i ==> !Truthy(cs[k])
    ensures OrChain(cs) == cs[i]
  {
    if i > 0 {
      assert !Truthy(cs[0]);
      OrChainFirstTruthy(cs[1..], i - 1);
    }
  }

  /** When every candidate before the last is falsy, the chain yields the last one,
      whatever it is. */
  lemma {:induction false} OrChainFallsThrough(cs: seq<Json>)
    requires cs != []
    requires forall k :: 0 <= k < |cs| - 1 ==> !Truthy(cs[k])
    ensures OrChain(cs) == cs[|cs| - 1]
  {
    if |cs| > 1 {
      assert !Truthy(cs[0]);
      OrChainFallsThrough(cs[1..]);
    }
  }

  /** The elements a Python `for` loop visits when it iterates a decoded value:
      the items of a list, the one-character strings of a string. Iterating a dict
      visits its keys; their order is not modelled, so only the empty dict is
      given here: a non-empty one gives `None`, as do `None`, booleans and numbers,
      which are not iterable. Every caller goes on to call `.get` on each element,
      which raises on a key (a string) just as the missing iteration does. */
  function Iterate(v: Json): Option<seq<Json>> {
    match v
    case JArr(xs) => Some(xs)
    case JStr(s) => Some(seq(|s|, i requires 0 <= i < |s| => JStr([s[i]])))
    case JObj(m) => if m == map[] then Some([]) else None
    case _ => None
  }
}
