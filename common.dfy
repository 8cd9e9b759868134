/** Sequence helpers that stand for the JavaScript array operations the
    application uses everywhere: `filter`, `find`, a summing `reduce`,
    `reverse`, and the notion of an order-preserving subsequence. */
module Common {

  /** An optional value: `undefined`/`null` in the source is `None`. */
  datatype Option<T> = None | Some(value: T) {
    function GetOr(default: T): T {
      if Some? then value else default
    }
  }

  /** `s.filter(f)`: the elements of `s` that satisfy `f`, in order. */
  function Filter<T(!new)>(s: seq<T>, f: T -> bool): (r: seq<T>)
    ensures |r| <= |s|
    ensures forall x :: x in r <==> x in s && f(x)
  {
    if s == [] then []
    else Filter(s[..|s| - 1], f) + (if f(s[|s| - 1]) then [s[|s| - 1]] else [])
  }

  /** `s.reduce((acc, x) => acc + f(x), 0)`. */
  function Sum<T>(s: seq<T>, f: T -> int): int
  {
    if s == [] then 0 else Sum(s[..|s| - 1], f) + f(s[|s| - 1])
  }

  /** `i` is the index of the first element of `s` that satisfies `f`. */
  predicate FirstMatch<T>(s: seq<T>, f: T -> bool, i: int)
  {
    0 <= i < |s| && f(s[i]) && forall j :: 0 <= j < i ==> !f(s[j])
  }

  /** `s.find(f)`: the first element satisfying `f`, if any. */
  function Find<T>(s: seq<T>, f: T -> bool): (r: Option<T>)
    ensures r.None? <==> forall i :: 0 <= i < |s| ==> !f(s[i])
    ensures r.Some? ==> exists i :: FirstMatch(s, f, i) && s[i] == r.value
  {
    if s == [] then None
    else if f(s[0]) then (assert FirstMatch(s, f, 0); Some(s[0]))
    else
      assert forall i :: FirstMatch(s[1..], f, i) ==> FirstMatch(s, f, i + 1);
      Find(s[1..], f)
  }

  /** `[...s].reverse()`. */
  function Reverse<T>(s: seq<T>): (r: seq<T>)
    ensures |r| == |s|
    ensures forall i :: 0 <= i < |s| ==> r[i] == s[|s| - 1 - i]
  {
    if s == [] then [] else [s[|s| - 1]] + Reverse(s[..|s| - 1])
  }

  /** `idx` maps every position of `a` to a position of `b` holding the same
      element, strictly increasingly. */
  ghost predicate Embeds<T>(idx: seq<nat>, a: seq<T>, b: seq<T>)
  {
    && |idx| == |a|
    && (forall k :: 0 <= k < |idx| ==> idx[k] < |b| && a[k] == b[idx[k]])
    && (forall k, l :: 0 <= k < l < |idx| ==> idx[k] < idx[l])
  }

  /** `a` is `b` with some elements left out and the rest in their order. */
  ghost predicate IsSubsequence<T>(a: seq<T>, b: seq<T>)
  {
    exists idx :: Embeds(idx, a, b)
  }

  /** Filtering keeps the survivors in their original order. */
  lemma {:induction false} FilterIsSubsequence<T(!new)>(s: seq<T>, f: T -> bool)
    ensures IsSubsequence(Filter(s, f), s)
  {
    var idx := FilterEmbedding(s, f);
  }

  lemma {:induction false} FilterEmbedding<T(!new)>(s: seq<T>, f: T -> bool) returns (idx: seq<nat>)
    ensures Embeds(idx, Filter(s, f), s)
    ensures forall k :: 0 <= k < |idx| ==> idx[k] < |s|
  {
    if s == [] {
      idx := [];
    } else {
      var n := |s| - 1;
      var front := FilterEmbedding(s[..n], f);
      if f(s[n]) {
        idx := front + [n];
      } else {
        idx := front;
      }
    }
  }

  /** Filters with pointwise-equal predicates agree. */
  lemma {:induction false} FilterExt<T(!new)>(s: seq<T>, f: T -> bool, g: T -> bool)
    requires forall x :: f(x) == g(x)
    ensures Filter(s, f) == Filter(s, g)
  {
    if s != [] { FilterExt(s[..|s| - 1], f, g); }
  }

  /** A filter that keeps every element is the identity. */
  lemma {:induction false} FilterKeepsAll<T(!new)>(s: seq<T>, f: T -> bool)
    requires forall i :: 0 <= i < |s| ==> f(s[i])
    ensures Filter(s, f) == s
  {
    if s != [] {
      var n := |s| - 1;
      assert s[..n] + [s[n]] == s;
      FilterKeepsAll(s[..n], f);
      assert f(s[n]);
    }
  }

  /** A filter that keeps no element yields the empty sequence. */
  lemma {:induction false} FilterKeepsNone<T(!new)>(s: seq<T>, f: T -> bool)
    requires forall i :: 0 <= i < |s| ==> !f(s[i])
    ensures Filter(s, f) == []
  {
    if s != [] { FilterKeepsNone(s[..|s| - 1], f); }
  }

  /** Filtering an appended sequence. */
  lemma {:induction false} FilterAppend<T(!new)>(s: seq<T>, t: seq<T>, f: T -> bool)
    ensures Filter(s + t, f) == Filter(s, f) + Filter(t, f)
    decreases |t|
  {
    if t == [] {
      assert s + t == s;
    } else {
      var n := |t| - 1;
      assert (s + t)[..|s + t| - 1] == s + t[..n];
      FilterAppend(s, t[..n], f);
    }
  }

  /** Two disjoint predicates split the count of their disjunction. */
  lemma {:induction false} FilterCountSplit<T(!new)>(s: seq<T>, f: T -> bool, g: T -> bool, h: T -> bool)
    requires forall x :: !(f(x) && g(x))
    requires forall x :: h(x) <==> f(x) || g(x)
    ensures |Filter(s, h)| == |Filter(s, f)| + |Filter(s, g)|
  {
    if s != [] { FilterCountSplit(s[..|s| - 1], f, g, h); }
  }

  /** A predicate and its negation split the whole sequence. */
  lemma {:induction false} FilterComplement<T(!new)>(s: seq<T>, f: T -> bool, g: T -> bool)
    requires forall x :: g(x) == !f(x)
    ensures |Filter(s, f)| + |Filter(s, g)| == |s|
  {
    if s != [] { FilterComplement(s[..|s| - 1], f, g); }
  }

  /** A stronger predicate keeps no more elements. */
  lemma {:induction false} FilterMonotone<T(!new)>(s: seq<T>, f: T -> bool, g: T -> bool)
    requires forall x :: f(x) ==> g(x)
    ensures |Filter(s, f)| <= |Filter(s, g)|
  {
    if s != [] { FilterMonotone(s[..|s| - 1], f, g); }
  }

  /** Filtering twice is filtering once by both predicates. */
  lemma {:induction false} FilterCompose<T(!new)>(s: seq<T>, f: T -> bool, g: T -> bool, h: T -> bool)
    requires forall x :: h(x) <==> f(x) && g(x)
    ensures Filter(Filter(s, f), g) == Filter(s, h)
  {
    if s != [] {
      var n := |s| - 1;
      FilterCompose(s[..n], f, g, h);
      FilterAppend(Filter(s[..n], f), if f(s[n]) then [s[n]] else [], g);
      if f(s[n]) {
        assert Filter([s[n]], g) == Filter([], g) + (if g(s[n]) then [s[n]] else []);
      }
    }
  }

  /** Sum over an appended sequence. */
  lemma {:induction false} SumAppend<T>(s: seq<T>, t: seq<T>, f: T -> int)
    ensures Sum(s + t, f) == Sum(s, f) + Sum(t, f)
    decreases |t|
  {
    if t == [] {
      assert s + t == s;
    } else {
      var n := |t| - 1;
      assert (s + t)[..|s + t| - 1] == s + t[..n];
      SumAppend(s, t[..n], f);
    }
  }

  /** Sums with pointwise-equal terms agree. */
  lemma {:induction false} SumExt<T>(s: seq<T>, f: T -> int, g: T -> int)
    requires forall i :: 0 <= i < |s| ==> f(s[i]) == g(s[i])
    ensures Sum(s, f) == Sum(s, g)
  {
    if s != [] { SumExt(s[..|s| - 1], f, g); }
  }

  /** Sum after replacing one element. */
  lemma {:induction false} SumUpdate<T>(s: seq<T>, j: nat, x: T, f: T -> int)
    requires j < |s|
    ensures Sum(s[j := x], f) == Sum(s, f) - f(s[j]) + f(x)
  {
    var n := |s| - 1;
    if j < n {
      SumUpdate(s[..n], j, x, f);
      assert s[j := x][..n] == s[..n][j := x];
    } else {
      assert s[j := x][..n] == s[..n];
    }
  }

  /** A sum whose every term is zero is zero. */
  lemma {:induction false} SumZero<T>(s: seq<T>, f: T -> int)
    requires forall i :: 0 <= i < |s| ==> f(s[i]) == 0
    ensures Sum(s, f) == 0
  {
    if s != [] { SumZero(s[..|s| - 1], f); }
  }

  /** `s.indexOf(x)` for an `x` that occurs in `s`. */
  function IndexOf<T(==)>(s: seq<T>, x: T): (j: nat)
    requires x in s
    ensures j < |s| && s[j] == x && x !in s[..j]
  {
    if s[0] == x then 0 else 1 + IndexOf(s[1..], x)
  }

  /** The first index holding `x` is `indexOf`'s answer. */
  lemma {:induction false} IndexOfFirst<T>(s: seq<T>, x: T, j: nat)
    requires j < |s| && s[j] == x
    requires forall m :: 0 <= m < j ==> s[m] != x
    ensures IndexOf(s, x) == j
  {
    var k := IndexOf(s, x);
    assert forall m :: 0 <= m < k ==> s[..k][m] == s[m];
  }

  /** The distinct elements of `s` in order of first occurrence. */
  function Dedup<T(==,!new)>(s: seq<T>): (r: seq<T>)
    ensures forall x :: x in r <==> x in s
  {
    if s == [] then []
    else if s[|s| - 1] in Dedup(s[..|s| - 1]) then Dedup(s[..|s| - 1])
    else Dedup(s[..|s| - 1]) + [s[|s| - 1]]
  }

  /** De-duplicating one more element: it is added at the end iff new. */
  lemma {:induction false} DedupSnoc<T(!new)>(s: seq<T>, x: T)
    ensures Dedup(s + [x]) == if x in Dedup(s) then Dedup(s) else Dedup(s) + [x]
  {
    assert (s + [x])[..|s|] == s;
  }

  /** The elements of `s` are pairwise distinct. */
  predicate Distinct<T(==)>(s: seq<T>)
  {
    forall i, j :: 0 <= i < j < |s| ==> s[i] != s[j]
  }

  /** Removing repetitions leaves each element once. */
  lemma {:induction false} DedupDistinct<T(!new)>(s: seq<T>)
    ensures Distinct(Dedup(s))
  {
    if s != [] { DedupDistinct(s[..|s| - 1]); }
  }

  /** `x => key(x) == k`. */
  function KeyIs<T, K(==)>(key: T -> K, k: K): T -> bool
  {
    x => key(x) == k
  }

  /** `x => ks.includes(key(x))`. */
  function KeyIn<T, K(==)>(key: T -> K, ks: seq<K>): T -> bool
  {
    x => key(x) in ks
  }

  /** The size of the group of `s` whose key is `k`. */
  function GroupSize<T(!new), K(==)>(s: seq<T>, key: T -> K, k: K): nat
  {
    |Filter(s, KeyIs(key, k))|
  }

  /** The sizes of the groups of `s` for the keys of `ks`, added up. */
  function GroupSizes<T(!new), K(==)>(s: seq<T>, key: T -> K, ks: seq<K>): nat
  {
    if ks == [] then 0 else GroupSizes(s, key, ks[..|ks| - 1]) + GroupSize(s, key, ks[|ks| - 1])
  }

  /** Grouping by distinct keys puts every element in at most one group: the
      group sizes add up to the number of elements whose key is listed. */
  lemma {:induction false} GroupSizesCount<T(!new), K>(s: seq<T>, key: T -> K, ks: seq<K>)
    requires Distinct(ks)
    ensures GroupSizes(s, key, ks) == |Filter(s, KeyIn(key, ks))|
  {
    if ks == [] {
      FilterKeepsNone(s, KeyIn(key, ks));
    } else {
      var n := |ks| - 1;
      var front := ks[..n];
      GroupSizesCount(s, key, front);
      assert forall x :: KeyIn(key, ks)(x) <==> KeyIn(key, front)(x) || KeyIs(key, ks[n])(x) by {
        assert ks == front + [ks[n]];
      }
      FilterCountSplit(s, KeyIn(key, front), KeyIs(key, ks[n]), KeyIn(key, ks));
    }
  }
}
