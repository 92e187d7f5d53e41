/** A plain JavaScript object used as a dictionary (`Record<string, V>`), as the pages
    use `roomCounts`, `dimensions` and `selectedVendors`. It is an ordered list of
    entries, because `Object.entries` and `Object.keys` visit string keys in insertion
    order. `{}` is `[]`; `{...r, [k]: v}` is `Put(r, k, v)`; `r[k]` is `Get(r, k)`. */
module Records {
  import opened Common

  type Record<V> = seq<(string, V)>

  /** `Object.keys(r)`. */
  function Keys<V>(r: Record<V>): (ks: seq<string>)
    ensures |ks| == |r|
    ensures forall i :: 0 <= i < |r| ==> ks[i] == r[i].0
    decreases |r|
  {
    if r == [] then [] else [r[0].0] + Keys(r[1..])
  }

  /** No key occurs twice, as in every JavaScript object. */
  predicate UniqueKeys<V>(r: Record<V>) {
    var ks := Keys(r);
    forall i, j :: 0 <= i < j < |ks| ==> ks[i] != ks[j]
  }

  /** `r[k]`: the value stored under `k`, or `None` (undefined) when `k` is absent. */
  function Get<V>(r: Record<V>, k: string): (o: Option<V>)
    decreases |r|
  {
    if r == [] then None
    else if r[0].0 == k then Some(r[0].1)
    else Get(r[1..], k)
  }

  /** `{...r, [k]: v}`: the entry for `k` is replaced where it stands, or appended when
      `k` is new; every other key keeps its value. */
  function Put<V>(r: Record<V>, k: string, v: V): (r': Record<V>)
    ensures Get(r', k) == Some(v)
    ensures forall k' :: k' != k ==> Get(r', k') == Get(r, k')
    decreases |r|
  {
    if r == [] then [(k, v)]
    else if r[0].0 == k then [(k, v)] + r[1..]
    else [r[0]] + Put(r[1..], k, v)
  }

  /** A key is found exactly when it is among the keys, and what is found is the value
      of one of its entries. */
  lemma {:induction false} GetSpec<V>(r: Record<V>, k: string)
    ensures Get(r, k).Some? <==> k in Keys(r)
    ensures Get(r, k).Some? ==> (k, Get(r, k).value) in r
    decreases |r|
  {
    if r != [] {
      GetSpec(r[1..], k);
      assert Keys(r) == [r[0].0] + Keys(r[1..]);
    }
  }

  /** `Put` keeps the key order: an existing key stays where it is, a new key goes last. */
  lemma {:induction false} PutKeys<V>(r: Record<V>, k: string, v: V)
    ensures Keys(Put(r, k, v)) == if k in Keys(r) then Keys(r) else Keys(r) + [k]
    decreases |r|
  {
    if r != [] && r[0].0 != k {
      PutKeys(r[1..], k, v);
      assert Keys(r) == [r[0].0] + Keys(r[1..]);
      assert Keys(Put(r, k, v)) == [r[0].0] + Keys(Put(r[1..], k, v));
    }
  }

  /** `Put` never introduces a duplicate key. */
  lemma PutUniqueKeys<V>(r: Record<V>, k: string, v: V)
    requires UniqueKeys(r)
    ensures UniqueKeys(Put(r, k, v))
  {
    PutKeys(r, k, v);
  }

  /** Every entry of `Put(r, k, v)` is an entry of `r` or the new entry `(k, v)`. */
  lemma {:induction false} PutEntries<V>(r: Record<V>, k: string, v: V)
    ensures forall i :: 0 <= i < |Put(r, k, v)| ==> Put(r, k, v)[i] in r || Put(r, k, v)[i] == (k, v)
    decreases |r|
  {
    if r != [] && r[0].0 != k {
      PutEntries(r[1..], k, v);
      var p := Put(r, k, v);
      assert p == [r[0]] + Put(r[1..], k, v);
      assert forall i :: 1 <= i < |p| ==> p[i] == Put(r[1..], k, v)[i - 1];
      assert forall x :: x in r[1..] ==> x in r;
    }
  }

  /** The entries whose value satisfies `p`, in order:
      `Object.fromEntries(Object.entries(r).filter(([_, v]) => p(v)))`. */
  function FilterValues<V>(p: V -> bool, r: Record<V>): (r': Record<V>)
    ensures |r'| <= |r|
    ensures forall i :: 0 <= i < |r'| ==> r'[i] in r && p(r'[i].1)
    ensures forall i :: 0 <= i < |r| && p(r[i].1) ==> r[i] in r'
    decreases |r|
  {
    if r == [] then []
    else
      var init := r[..|r| - 1];
      assert r == init + [r[|r| - 1]];
      FilterValues(p, init) + (if p(r[|r| - 1].1) then [r[|r| - 1]] else [])
  }

  lemma {:induction false} FilterValuesIsSubseq<V>(p: V -> bool, r: Record<V>)
    ensures IsSubseq(FilterValues(p, r), r)
    decreases |r|
  {
    if r != [] {
      var init := r[..|r| - 1];
      FilterValuesIsSubseq(p, init);
      var f := FilterValues(p, r);
      assert r[..|r| - 1] == init;
      if p(r[|r| - 1].1) {
        assert f[..|f| - 1] == FilterValues(p, init) && f[|f| - 1] == r[|r| - 1];
      } else {
        assert f == FilterValues(p, init);
      }
    }
  }
}
