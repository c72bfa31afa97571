/**
 * `ImprovedGeminiClient._merge_analyses`: the reconciliation of two analyses of the same
 * document in which a disagreement involving a missing value resolves to None, so that
 * a value seen by only one pass is not trusted.
 */
module ImprovedGeminiClient {
  import opened Values

  /** One key of `merge_nested`: dicts on both sides recurse, None wins a disagreement. */
  function MergeValue(v1: Value, v2: Value): (r: Value)
    decreases v1, 1
    ensures v1.Obj? && v2.Obj? ==> r.Obj? && r.fields.Keys == v1.fields.Keys
    ensures !(v1.Obj? && v2.Obj?) ==> (r == Null <==> v1 == Null || v2 == Null)
    ensures !(v1.Obj? && v2.Obj?) && v2 != Null ==> r == v1
  {
    if v1.Obj? && v2.Obj? then Obj(MergeNested(v1.fields, v2.fields))
    else if !PyEq(v1, v2) && (v1 == Null || v2 == Null) then Null
    else v1
  }

  /**
   * `merge_nested(d1, d2)`: the keys of `d1` only; a key absent from `d2` counts as None
   * there.
   */
  function MergeNested(d1: Dict, d2: Dict): (r: Dict)
    decreases Obj(d1), 0
    ensures r.Keys == d1.Keys
    ensures forall k :: k in d1 && k !in d2 ==> r[k] == Null
    ensures forall k :: k in d1 && d1[k] == Null ==> r[k] == Null
  {
    map k | k in d1 :: MergeValue(d1[k], Get(d2, k))
  }

  /** `_merge_analyses`: an empty side yields the other, else the nested merge. */
  function MergeAnalyses(first: Dict, second: Dict): (r: Dict)
    ensures first == map[] ==> r == second
    ensures first != map[] && second == map[] ==> r == first
    ensures first != map[] && second != map[] ==> r.Keys == first.Keys
  {
    if first == map[] then second
    else if second == map[] then first
    else MergeNested(first, second)
  }

  /** Two identical analyses merge to themselves. */
  lemma {:induction false} MergeSelf(d: Dict)
    ensures MergeNested(d, d) == d
    decreases Obj(d), 0
  {
    forall k | k in d
      ensures MergeValue(d[k], d[k]) == d[k]
    {
      MergeValueSelf(d[k]);
    }
  }

  lemma {:induction false} MergeValueSelf(v: Value)
    ensures MergeValue(v, v) == v
    decreases v, 1
  {
    if v.Obj? {
      MergeSelf(v.fields);
    } else {
      PyEqRefl(v);
    }
  }

  /** Merging the result with the second analysis again changes nothing. */
  lemma {:induction false} MergeIdempotent(d1: Dict, d2: Dict)
    ensures MergeNested(MergeNested(d1, d2), d2) == MergeNested(d1, d2)
    decreases Obj(d1), 0
  {
    forall k | k in d1
      ensures MergeValue(MergeValue(d1[k], Get(d2, k)), Get(d2, k)) == MergeValue(d1[k], Get(d2, k))
    {
      MergeValueIdempotent(d1[k], Get(d2, k));
    }
  }

  lemma {:induction false} MergeValueIdempotent(v1: Value, v2: Value)
    ensures MergeValue(MergeValue(v1, v2), v2) == MergeValue(v1, v2)
    decreases v1, 1
  {
    if v1.Obj? && v2.Obj? {
      MergeIdempotent(v1.fields, v2.fields);
    }
  }
}
