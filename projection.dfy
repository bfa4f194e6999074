/**
 * The step every payload builder and body reader repeats: a dict whose
 * keys come from a fixed table, each value computed from the options or
 * the response, and (in the builders) left out when it is empty.
 */
module Projection {
  import opened Json
  import opened Diff

  /** No value of the map is empty. */
  predicate NoEmptyValues(d: map<string, Value>) {
    forall k :: k in d ==> !IsEmpty(d[k])
  }

  /**
   * `for each key: v = ...; if not is_empty_value(v): d[key] = v`: exactly
   * the keys whose value is not empty, each with its value.
   */
  function NonEmptyPart(keys: set<string>, f: string -> Value): (r: map<string, Value>)
    ensures r.Keys <= keys && NoEmptyValues(r)
    ensures forall k :: k in keys ==> (k in r <==> !IsEmpty(f(k)))
    ensures forall k :: k in r ==> r[k] == f(k)
  {
    map k | k in keys && !IsEmpty(f(k)) :: f(k)
  }

  /** A dict literal over a fixed key set: every key, with its value. */
  function Shape(keys: set<string>, f: string -> Value): (r: map<string, Value>)
    ensures r.Keys == keys
    ensures forall k :: k in keys ==> r[k] == f(k)
  {
    map k | k in keys :: f(k)
  }

  /** The builder puts `v` under `k` exactly when it is not empty. */
  predicate Carries(d: map<string, Value>, k: string, v: Value) {
    (k in d <==> !IsEmpty(v)) && (k in d ==> d[k] == v)
  }

  /** A value the builder carries under `k` is met by what is found there. */
  lemma CarriedMatches(d: map<string, Value>, k: string, v: Value)
    requires Carries(d, k, v)
    ensures Matches(v, Get(d, k))
  {
    if !IsEmpty(v) {
      MatchesReflexive(v);
    }
  }

  /**
   * The object a provider that stores a request body as sent returns for
   * it: the body's fields, with the new id `x` under `idKey`.
   */
  function Echo(body: Value, idKey: string, x: Value): Value {
    Map((if body.Map? then body.fields else map[])[idKey := x])
  }

  /** Setting another key keeps what a dict carries. */
  lemma CarriesPastUpdate(d: map<string, Value>, k: string, v: Value, j: string, x: Value)
    requires Carries(d, k, v) && k != j
    ensures Carries(d[j := x], k, v)
  {
  }
}
