/**
 * The equality rule used to decide whether a remote object is the one the
 * options describe, and whether it has drifted. The modules call
 * `are_different_dicts(desired, observed)`; this module states the
 * semantics assumed for it as `!Matches(desired, observed)`: the desired
 * side is a sparse overlay.
 */
module Diff {
  import opened Json

  /**
   * Desired `d` is met by observed `o`: an empty desired value (None, "",
   * [] or {}) asks for nothing; a dict asks that each of its keys be met
   * by the same key of `o` (a missing key, or an `o` that is not a dict,
   * reads as None); a list asks for a list of the same length met
   * element by element, in order; any other value asks for equality.
   */
  predicate Matches(d: Value, o: Value)
    decreases d
  {
    if IsEmpty(d) then true
    else match d
      case Map(fs) => forall k :: k in fs ==> Matches(fs[k], FieldOf(o, k))
      case List(ds) =>
        o.List? && |o.items| == |ds| &&
        forall i :: 0 <= i < |ds| ==> Matches(ds[i], o.items[i])
      case _ => d == o
  }

  /** A dict whose every value is empty asks for nothing, whatever is observed. */
  lemma AllEmptyMatchesAnything(fs: map<string, Value>, o: Value)
    requires forall k :: k in fs ==> IsEmpty(fs[k])
    ensures Matches(Map(fs), o)
  {
  }

  /** Every value meets itself, so an object always matches its own read shape. */
  lemma {:induction false} MatchesReflexive(v: Value)
    ensures Matches(v, v)
    decreases v
  {
    if !IsEmpty(v) {
      match v
      case Map(fs) =>
        forall k | k in fs ensures Matches(fs[k], FieldOf(v, k)) {
          MatchesReflexive(fs[k]);
        }
      case List(xs) =>
        forall i | 0 <= i < |xs| ensures Matches(xs[i], v.items[i]) {
          MatchesReflexive(xs[i]);
        }
      case _ =>
    }
  }

  /**
   * A dict is met by any observed value that agrees with it on every key
   * whose desired value is not empty.
   */
  lemma {:induction false} MatchesWhereNonEmptyAgree(fs: map<string, Value>, o: Value)
    requires forall k :: k in fs && !IsEmpty(fs[k]) ==> FieldOf(o, k) == fs[k]
    ensures Matches(Map(fs), o)
  {
    forall k | k in fs ensures Matches(fs[k], FieldOf(o, k)) {
      if !IsEmpty(fs[k]) {
        MatchesReflexive(fs[k]);
      }
    }
  }

  /**
   * Keys the desired dict does not mention, or maps to an empty value, never
   * matter: changing them on the observed side keeps the verdict.
   */
  lemma {:induction false} IgnoredKeyIrrelevant(fs: map<string, Value>, o: map<string, Value>, k: string, x: Value)
    requires k !in fs || IsEmpty(fs[k])
    ensures Matches(Map(fs), Map(o)) <==> Matches(Map(fs), Map(o[k := x]))
  {
    if !IsEmpty(Map(fs)) {
      forall j | j in fs && j != k
        ensures FieldOf(Map(o), j) == FieldOf(Map(o[k := x]), j)
      {
      }
      if k in fs {
        assert Matches(fs[k], FieldOf(Map(o), k)) && Matches(fs[k], FieldOf(Map(o[k := x]), k));
      }
    }
  }

  /** One key whose desired value is not met makes the whole dict unmet. */
  lemma MismatchAt(fs: map<string, Value>, o: Value, k: string)
    requires k in fs && !Matches(fs[k], FieldOf(o, k))
    ensures !Matches(Map(fs), o)
  {
    assert !IsEmpty(fs[k]);
  }

  /** A dict is met by an observed value that meets each of its keys. */
  lemma MatchesByKeys(fs: map<string, Value>, o: Value)
    requires forall k :: k in fs ==> Matches(fs[k], FieldOf(o, k))
    ensures Matches(Map(fs), o)
  {
  }
}
