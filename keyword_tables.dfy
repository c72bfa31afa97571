/**
 * Keyword tables as the analysers write them: a dict or a list of `(key, value)` pairs that
 * is scanned in order, either for an exact key or for the first key occurring in a string.
 */
module KeywordTables {
  import opened Wrappers
  import opened Text

  /** The keys of a table, in order. */
  function Keys<X>(table: seq<(string, X)>): (r: seq<string>)
    ensures |r| == |table|
    ensures forall i :: 0 <= i < |table| ==> r[i] == table[i].0
  {
    seq(|table|, i requires 0 <= i < |table| => table[i].0)
  }

  /** `table[n]` for a dict given as its entries: the value of the first entry named `n`. */
  function Lookup<X>(table: seq<(string, X)>, n: string): (r: Option<X>)
    ensures r.None? <==> forall i :: 0 <= i < |table| ==> table[i].0 != n
    ensures r.Some? ==> exists i :: 0 <= i < |table| && table[i] == (n, r.value)
  {
    if table == [] then None
    else if table[0].0 == n then Some(table[0].1)
    else
      var r := Lookup(table[1..], n);
      assert forall i :: 1 <= i < |table| ==> table[1..][i - 1] == table[i];
      r
  }

  lemma {:induction false} LookupFirst<X>(table: seq<(string, X)>, n: string, i: nat)
    requires i < |table| && table[i].0 == n && forall j :: 0 <= j < i ==> table[j].0 != n
    ensures Lookup(table, n) == Some(table[i].1)
  {
    if i > 0 {
      assert table[1..][i - 1] == table[i];
      LookupFirst(table[1..], n, i - 1);
    }
  }

  /** `for k, v in table: if k in s: return v`, with None when no key occurs. */
  function FirstKeyword<X>(table: seq<(string, X)>, s: string): (r: Option<X>)
    ensures r.None? <==> !ContainsAny(s, Keys(table))
  {
    var i := FirstHit(s, Keys(table));
    if i >= 0 then Some(table[i].1) else None
  }

  /** Key `i` of the table is the first one that occurs in `s`. */
  predicate FirstKeyAt<X>(s: string, table: seq<(string, X)>, i: int)
  {
    0 <= i < |table| && Contains(s, table[i].0) && forall j :: 0 <= j < i ==> !Contains(s, table[j].0)
  }

  /** The first key occurring in `s` decides. */
  lemma FirstKeywordAt<X>(table: seq<(string, X)>, s: string, i: int)
    requires FirstKeyAt(s, table, i)
    ensures FirstKeyword(table, s) == Some(table[i].1)
  {
    var k := FirstHit(s, Keys(table));
    assert Keys(table)[i] == table[i].0;
  }
}
