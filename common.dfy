/** Small generic pieces shared by every page model: an optional value (null/undefined
    in the application) and the array operations the pages use (`filter`, `map`,
    `reduce` with `+`). The sequence functions recurse on the LAST element so that
    loops over a prefix `s[..i]` can be specified by them directly. */
module Common {

  datatype Option<T> = None | Some(value: T) {
    function GetOr(default: T): T {
      if Some? then value else default
    }
  }

  /** An optional string the pages test for truthiness: present and not empty. */
  predicate Truthy(s: Option<string>) { s.Some? && s.value != [] }

  /** A file picked in a browser file input, known by its name. */
  datatype File = File(name: string)

  /** `s.filter(p)`: the elements of `s` that satisfy `p`, in their original order. */
  function Filter<T>(p: T -> bool, s: seq<T>): (r: seq<T>)
    ensures |r| <= |s|
    ensures forall i :: 0 <= i < |r| ==> r[i] in s && p(r[i])
    ensures forall i :: 0 <= i < |s| && p(s[i]) ==> s[i] in r
    decreases |s|
  {
    if s == [] then []
    else
      var init := s[..|s| - 1];
      assert s == init + [s[|s| - 1]];
      Filter(p, init) + (if p(s[|s| - 1]) then [s[|s| - 1]] else [])
  }

  /** `s.map(f)`. */
  function Map<T, U>(f: T -> U, s: seq<T>): (r: seq<U>)
    ensures |r| == |s|
    ensures forall i :: 0 <= i < |s| ==> r[i] == f(s[i])
    decreases |s|
  {
    if s == [] then [] else Map(f, s[..|s| - 1]) + [f(s[|s| - 1])]
  }

  /** `s.reduce((sum, x) => sum + f(x), 0)`. */
  function Sum<T>(f: T -> real, s: seq<T>): real
    decreases |s|
  {
    if s == [] then 0.0 else Sum(f, s[..|s| - 1]) + f(s[|s| - 1])
  }

  /** `a` can be obtained from `b` by deleting elements: an order-preserving sub-list. */
  ghost predicate IsSubseq<T>(a: seq<T>, b: seq<T>)
    decreases |b|
  {
    a == [] ||
    (b != [] &&
     ((a[|a| - 1] == b[|b| - 1] && IsSubseq(a[..|a| - 1], b[..|b| - 1])) ||
      IsSubseq(a, b[..|b| - 1])))
  }

  lemma {:induction false} SubseqLength<T>(a: seq<T>, b: seq<T>)
    requires IsSubseq(a, b)
    ensures |a| <= |b|
    decreases |b|
  {
    if a != [] {
      if a[|a| - 1] == b[|b| - 1] && IsSubseq(a[..|a| - 1], b[..|b| - 1]) {
        SubseqLength(a[..|a| - 1], b[..|b| - 1]);
      } else {
        SubseqLength(a, b[..|b| - 1]);
      }
    }
  }

  lemma {:induction false} SubseqReflexive<T>(s: seq<T>)
    ensures IsSubseq(s, s)
    decreases |s|
  {
    if s != [] {
      SubseqReflexive(s[..|s| - 1]);
    }
  }

  /** A filter result is an order-preserving sub-list of its input. */
  lemma {:induction false} FilterIsSubseq<T>(p: T -> bool, s: seq<T>)
    ensures IsSubseq(Filter(p, s), s)
    decreases |s|
  {
    if s != [] {
      var init, last := s[..|s| - 1], s[|s| - 1];
      FilterIsSubseq(p, init);
      var r := Filter(p, s);
      assert s[..|s| - 1] == init;
      if p(last) {
        assert r == Filter(p, init) + [last];
        assert r[..|r| - 1] == Filter(p, init) && r[|r| - 1] == s[|s| - 1];
      } else {
        assert r == Filter(p, init);
      }
    }
  }

  /** Predicates that agree on every element filter alike. */
  lemma {:induction false} FilterSame<T>(p: T -> bool, q: T -> bool, s: seq<T>)
    requires forall i :: 0 <= i < |s| ==> p(s[i]) == q(s[i])
    ensures Filter(p, s) == Filter(q, s)
    decreases |s|
  {
    if s != [] {
      FilterSame(p, q, s[..|s| - 1]);
    }
  }

  /** Filtering by a stronger predicate selects a sub-list of what filtering by a
      weaker one selects. */
  lemma {:induction false} FilterImplies<T>(p: T -> bool, q: T -> bool, s: seq<T>)
    requires forall i :: 0 <= i < |s| && p(s[i]) ==> q(s[i])
    ensures IsSubseq(Filter(p, s), Filter(q, s))
    decreases |s|
  {
    if s == [] {
    } else {
      var init, last := s[..|s| - 1], s[|s| - 1];
      FilterImplies(p, q, init);
      var fp, fq := Filter(p, s), Filter(q, s);
      if p(last) {
        assert fp == Filter(p, init) + [last];
        assert fq == Filter(q, init) + [last];
        assert fp[..|fp| - 1] == Filter(p, init);
        assert fq[..|fq| - 1] == Filter(q, init);
      } else if q(last) {
        assert fp == Filter(p, init);
        assert fq == Filter(q, init) + [last];
        assert fq[..|fq| - 1] == Filter(q, init);
      } else {
        assert fp == Filter(p, init);
        assert fq == Filter(q, init);
      }
    }
  }

  /** A filter that keeps everything returns its input. */
  lemma {:induction false} FilterAll<T>(p: T -> bool, s: seq<T>)
    requires forall i :: 0 <= i < |s| ==> p(s[i])
    ensures Filter(p, s) == s
    decreases |s|
  {
    if s != [] {
      FilterAll(p, s[..|s| - 1]);
      assert s == s[..|s| - 1] + [s[|s| - 1]];
    }
  }

  lemma {:induction false} FilterAppend<T>(p: T -> bool, a: seq<T>, b: seq<T>)
    ensures Filter(p, a + b) == Filter(p, a) + Filter(p, b)
    decreases |b|
  {
    if b == [] {
      assert a + b == a;
    } else {
      var init := b[..|b| - 1];
      assert (a + b)[..|a + b| - 1] == a + init;
      FilterAppend(p, a, init);
    }
  }

  /** Two filters with complementary predicates split a list: every element lands in
      exactly one of them, so their lengths add up to the whole. */
  lemma {:induction false} FilterComplement<T>(p: T -> bool, q: T -> bool, s: seq<T>)
    requires forall i :: 0 <= i < |s| ==> (q(s[i]) <==> !p(s[i]))
    ensures |Filter(p, s)| + |Filter(q, s)| == |s|
    decreases |s|
  {
    if s != [] {
      FilterComplement(p, q, s[..|s| - 1]);
    }
  }

  /** Two filters with disjoint predicates together select at most the whole list. */
  lemma {:induction false} FilterDisjoint<T>(p: T -> bool, q: T -> bool, s: seq<T>)
    requires forall i :: 0 <= i < |s| ==> !(p(s[i]) && q(s[i]))
    ensures |Filter(p, s)| + |Filter(q, s)| <= |s|
    decreases |s|
  {
    if s != [] {
      FilterDisjoint(p, q, s[..|s| - 1]);
    }
  }

  lemma {:induction false} SumAppend<T>(f: T -> real, a: seq<T>, b: seq<T>)
    ensures Sum(f, a + b) == Sum(f, a) + Sum(f, b)
    decreases |b|
  {
    if b == [] {
      assert a + b == a;
    } else {
      var init := b[..|b| - 1];
      assert (a + b)[..|a + b| - 1] == a + init;
      SumAppend(f, a, init);
    }
  }

  /** Summing `f` over the elements that pass `p` is the same as summing, over all
      elements, `f` where `p` holds and 0 elsewhere. */
  lemma {:induction false} SumFilter<T>(f: T -> real, p: T -> bool, g: T -> real, s: seq<T>)
    requires forall i :: 0 <= i < |s| ==> g(s[i]) == if p(s[i]) then f(s[i]) else 0.0
    ensures Sum(f, Filter(p, s)) == Sum(g, s)
    decreases |s|
  {
    if s != [] {
      var init, last := s[..|s| - 1], s[|s| - 1];
      SumFilter(f, p, g, init);
      SumAppend(f, Filter(p, init), if p(last) then [last] else []);
      if p(last) {
        assert [last][..0] == [];
      }
    }
  }

  lemma {:induction false} SumNonNegative<T>(f: T -> real, s: seq<T>)
    requires forall i :: 0 <= i < |s| ==> f(s[i]) >= 0.0
    ensures Sum(f, s) >= 0.0
    decreases |s|
  {
    if s != [] {
      SumNonNegative(f, s[..|s| - 1]);
    }
  }

  /** The lists `f(x)` for the elements `x` of `s`, concatenated in order. */
  function FlatMap<T, U>(f: T -> seq<U>, s: seq<T>): seq<U>
    decreases |s|
  {
    if s == [] then [] else FlatMap(f, s[..|s| - 1]) + f(s[|s| - 1])
  }

  lemma {:induction false} FlatMapAppend<T, U>(f: T -> seq<U>, a: seq<T>, b: seq<T>)
    ensures FlatMap(f, a + b) == FlatMap(f, a) + FlatMap(f, b)
    decreases |b|
  {
    if b == [] {
      assert a + b == a;
    } else {
      var init := b[..|b| - 1];
      assert (a + b)[..|a + b| - 1] == a + init;
      FlatMapAppend(f, a, init);
    }
  }

  lemma FlatMapStep<T, U>(f: T -> seq<U>, s: seq<T>, i: nat)
    requires i < |s|
    ensures FlatMap(f, s[..i + 1]) == FlatMap(f, s[..i]) + f(s[i])
  {
    assert s[..i + 1][..i] == s[..i];
  }

  /** What the elements up to and including `s[i]` contribute is the start of the whole. */
  lemma FlatMapPrefix<T, U>(f: T -> seq<U>, s: seq<T>, i: nat)
    requires i < |s|
    ensures var p := FlatMap(f, s[..i]) + f(s[i]);
            |p| <= |FlatMap(f, s)| && FlatMap(f, s)[..|p|] == p
  {
    assert s == s[..i + 1] + s[i + 1..];
    FlatMapStep(f, s, i);
    FlatMapAppend(f, s[..i + 1], s[i + 1..]);
  }

  /** The first position below `n` that is in `failing`, or `n` if there is none. */
  function FailIndex(failing: set<nat>, n: nat): (k: nat)
    ensures k <= n
    ensures forall j :: 0 <= j < k ==> j !in failing
    ensures k < n ==> k in failing
    decreases n
  {
    if n == 0 then 0
    else
      var k := FailIndex(failing, n - 1);
      if k < n - 1 then k else if n - 1 in failing then n - 1 else n
  }

  /** Walking `FlatMap(f, s)` in order and stopping at the first position in `failing`:
      if the steps of the elements before `s[i]` and the first `m` steps of `s[i]` were
      taken, only the last of them failing, the walk stopped at the first failure of
      the whole. */
  lemma FlatMapStops<T, U>(f: T -> seq<U>, s: seq<T>, i: nat, log: seq<U>, failing: set<nat>)
    requires i < |s|
    requires |FlatMap(f, s[..i])| < |log| <= |FlatMap(f, s[..i])| + |f(s[i])|
    requires log == FlatMap(f, s[..i]) + f(s[i])[..|log| - |FlatMap(f, s[..i])|]
    requires forall j :: 0 <= j < |FlatMap(f, s[..i])| ==> j !in failing
    requires forall j :: |FlatMap(f, s[..i])| <= j < |log| - 1 ==> j !in failing
    requires |log| - 1 in failing
    ensures |log| <= |FlatMap(f, s)|
    ensures FailIndex(failing, |FlatMap(f, s)|) == |log| - 1
    ensures FlatMap(f, s)[..|log|] == log
  {
    var all, base, step := FlatMap(f, s), FlatMap(f, s[..i]), f(s[i]);
    FlatMapPrefix(f, s, i);
    var m := |log| - |base|;
    assert all[..|log|] == (base + step)[..|log|];
    assert (base + step)[..|log|] == base + step[..m];
  }

  function Min(a: int, b: int): (m: int)
    ensures m <= a && m <= b && (m == a || m == b)
  {
    if a <= b then a else b
  }

  function Max(a: int, b: int): (m: int)
    ensures m >= a && m >= b && (m == a || m == b)
  {
    if a >= b then a else b
  }
}
