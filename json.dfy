/**
 * The dictionary/list values the Ansible modules pass around (module
 * options, request payloads, response bodies), and the three primitive
 * readings of them the modules rely on: key lookup, emptiness and Python
 * truthiness.
 */
module Json {

  datatype Value =
    | Null
    | Str(s: string)
    | Int(i: int)
    | Bool(b: bool)
    | List(items: seq<Value>)
    | Map(fields: map<string, Value>)

  /** `d.get(k)` on a dict: a missing key reads as None. */
  function Get(d: map<string, Value>, k: string): (r: Value)
    ensures k !in d ==> r == Null
    ensures k in d ==> r == d[k]
  {
    if k in d then d[k] else Null
  }

  /** Setting a key to the value it already holds (not None) leaves the dict as it was. */
  lemma UpdateSame(d: map<string, Value>, k: string, v: Value)
    requires v != Null && Get(d, k) == v
    ensures d[k := v] == d
  {
  }

  /**
   * One step of `navigate_value`: the field `k` of a dict value; a missing
   * key, or a value that is not a dict (None in particular), reads as None.
   */
  function FieldOf(v: Value, k: string): (r: Value)
    ensures v.Map? ==> r == Get(v.fields, k)
    ensures !v.Map? ==> r == Null
  {
    if v.Map? then Get(v.fields, k) else Null
  }

  /** `is_empty_value`: None, "", [] and {} are empty; 0 and False are not. */
  predicate IsEmpty(v: Value) {
    v == Null || v == Str("") || v == List([]) || v == Map(map[])
  }

  /** Python truthiness (`if v:`). */
  predicate Truthy(v: Value) {
    match v
    case Null => false
    case Str(s) => s != ""
    case Int(i) => i != 0
    case Bool(b) => b
    case List(xs) => xs != []
    case Map(m) => m != map[]
  }

  /** A value that is not a list or a dict. */
  predicate IsScalar(v: Value) {
    !v.List? && !v.Map?
  }

  /** The elements of a list value; anything else has none. */
  function Items(v: Value): (r: seq<Value>)
    ensures v.List? ==> r == v.items
    ensures !v.List? ==> r == []
  {
    if v.List? then v.items else []
  }

  /** Falsy values are exactly the empty ones plus 0 and False. */
  lemma FalsyIsEmptyOrZero(v: Value)
    ensures !Truthy(v) <==> (IsEmpty(v) || v == Int(0) || v == Bool(false))
  {
    match v
    case Map(m) =>
      assert m == map[] <==> v == Map(map[]);
    case _ =>
  }
}
