// `Array.prototype.filter` and the order facts the scripts rely on when they
// filter, partition or push in a loop.

module Seqs {

  /** `s.filter(p)`, defined on the last element so that a loop that pushes
      while walking `s` left to right keeps `out == Filter(s[..i], p)`. */
  function Filter<T>(s: seq<T>, p: T -> bool): (r: seq<T>)
    ensures |r| <= |s|
    ensures forall k :: 0 <= k < |r| ==> p(r[k]) && r[k] in s
    ensures forall k :: 0 <= k < |s| && p(s[k]) ==> s[k] in r
  {
    if |s| == 0 then []
    else Filter(s[..|s| - 1], p) + (if p(s[|s| - 1]) then [s[|s| - 1]] else [])
  }

  lemma FilterStep<T>(s: seq<T>, i: nat, p: T -> bool)
    requires i < |s|
    ensures Filter(s[..i + 1], p) == Filter(s[..i], p) + (if p(s[i]) then [s[i]] else [])
  {
    assert s[..i + 1][..i] == s[..i];
  }

  lemma FilterSnoc<T>(s: seq<T>, x: T, p: T -> bool)
    ensures Filter(s + [x], p) == Filter(s, p) + (if p(x) then [x] else [])
  {
    assert (s + [x])[..|s|] == s;
  }

  lemma {:induction false} FilterAppend<T>(a: seq<T>, b: seq<T>, p: T -> bool)
    ensures Filter(a + b, p) == Filter(a, p) + Filter(b, p)
    decreases |b|
  {
    if |b| == 0 {
      assert a + b == a;
    } else {
      assert (a + b)[..|a + b| - 1] == a + b[..|b| - 1];
      FilterAppend(a, b[..|b| - 1], p);
    }
  }

  /** Filtering by `p` and by its negation splits `s` without loss. */
  lemma {:induction false} FilterPartition<T>(s: seq<T>, p: T -> bool, q: T -> bool)
    requires forall x :: q(x) == !p(x)
    ensures multiset(Filter(s, p)) + multiset(Filter(s, q)) == multiset(s)
  {
    if |s| > 0 {
      var init, last := s[..|s| - 1], s[|s| - 1];
      FilterPartition(init, p, q);
      assert s == init + [last];
      SplitStep(Filter(s, p), Filter(s, q), Filter(init, p), Filter(init, q), init, last);
    }
  }

  /** One more element, put on one side of a split, keeps the split. */
  lemma SplitStep<T>(a: seq<T>, b: seq<T>, a0: seq<T>, b0: seq<T>, init: seq<T>, last: T)
    requires multiset(a0) + multiset(b0) == multiset(init)
    requires (a == a0 + [last] && b == b0) || (a == a0 && b == b0 + [last])
    ensures multiset(a) + multiset(b) == multiset(init + [last])
  {
    assert multiset(init + [last]) == multiset(init) + multiset{last};
    if a == a0 + [last] && b == b0 {
      assert multiset(a) == multiset(a0) + multiset{last};
    } else {
      assert multiset(b) == multiset(b0) + multiset{last};
    }
  }

  lemma AppendLast<T>(a: seq<T>, b: seq<T>, x: T)
    ensures (a + b) + [x] == a + (b + [x])
  {
  }

  lemma MultisetLast<T>(s: seq<T>)
    requires |s| > 0
    ensures multiset(s) == multiset(s[..|s| - 1] + [s[|s| - 1]])
  {
    assert s == s[..|s| - 1] + [s[|s| - 1]];
  }

  /** One more element, put in one of three parts, keeps the split. */
  lemma ThreeWayStep<T>(a0: seq<T>, r0: seq<T>, k0: seq<T>, init: seq<T>, last: T, a: seq<T>, r: seq<T>, k: seq<T>)
    requires multiset(a0) + multiset(r0) + multiset(k0) == multiset(init)
    requires || (a == a0 + [last] && r == r0 && k == k0)
             || (a == a0 && r == r0 + [last] && k == k0)
             || (a == a0 && r == r0 && k == k0 + [last])
    ensures multiset(a) + multiset(r) + multiset(k) == multiset(init + [last])
  {
    assert multiset(init + [last]) == multiset(init) + multiset{last};
    if a == a0 + [last] && r == r0 && k == k0 {
      assert multiset(a) == multiset(a0) + multiset{last};
    } else if a == a0 && r == r0 + [last] && k == k0 {
      assert multiset(r) == multiset(r0) + multiset{last};
    } else {
      assert multiset(k) == multiset(k0) + multiset{last};
    }
  }

  /** The elements of `s` whose key is `k`, in order: one bucket of a
      loop that pushes each element onto the list named by its key. */
  function Where<T, K(==)>(s: seq<T>, key: T -> K, k: K): seq<T> {
    if |s| == 0 then []
    else Where(s[..|s| - 1], key, k) + (if key(s[|s| - 1]) == k then [s[|s| - 1]] else [])
  }

  lemma WhereStep<T, K>(s: seq<T>, key: T -> K, k: K)
    requires |s| > 0
    ensures Where(s, key, k) == Where(s[..|s| - 1], key, k) + (if key(s[|s| - 1]) == k then [s[|s| - 1]] else [])
  {
  }

  /** Three buckets that cover every key split `s` without loss. */
  lemma {:induction false} WhereSplit3<T, K>(s: seq<T>, key: T -> K, k1: K, k2: K, k3: K)
    requires k1 != k2 && k2 != k3 && k1 != k3
    requires forall i :: 0 <= i < |s| ==> key(s[i]) == k1 || key(s[i]) == k2 || key(s[i]) == k3
    ensures multiset(Where(s, key, k1)) + multiset(Where(s, key, k2)) + multiset(Where(s, key, k3)) == multiset(s)
  {
    if |s| > 0 {
      var init, last := s[..|s| - 1], s[|s| - 1];
      forall i | 0 <= i < |init| ensures key(init[i]) == k1 || key(init[i]) == k2 || key(init[i]) == k3 {
        assert init[i] == s[i];
      }
      WhereSplit3(init, key, k1, k2, k3);
      MultisetLast(s);
      var a, b, c := Where(init, key, k1), Where(init, key, k2), Where(init, key, k3);
      assert a + [] == a && b + [] == b && c + [] == c;
      var kl := key(last);
      assert kl == k1 || kl == k2 || kl == k3;
      if kl == k1 {
        ThreeWayStep(a, b, c, init, last, a + [last], b, c);
      } else if kl == k2 {
        ThreeWayStep(a, b, c, init, last, a, b + [last], c);
      } else {
        ThreeWayStep(a, b, c, init, last, a, b, c + [last]);
      }
    }
  }

  /** A bucket keeps its elements in their order in `s`. */
  lemma {:induction false} WhereInOrder<T, K>(s: seq<T>, key: T -> K, k: K)
    ensures SubsequenceOf(Where(s, key, k), s)
    ensures forall i :: 0 <= i < |Where(s, key, k)| ==> key(Where(s, key, k)[i]) == k
  {
    if |s| > 0 {
      var init, last := s[..|s| - 1], s[|s| - 1];
      WhereInOrder(init, key, k);
      var w := Where(init, key, k);
      if key(last) == k {
        assert (w + [last])[..|w|] == w;
      } else {
        assert Where(s, key, k) == w;
        SubsequenceExtend(w, s);
      }
    }
  }

  /** `s.map(f)`. */
  function Map<T, U>(s: seq<T>, f: T -> U): (r: seq<U>)
    ensures |r| == |s|
  {
    if |s| == 0 then [] else Map(s[..|s| - 1], f) + [f(s[|s| - 1])]
  }

  lemma MapSnoc<T, U>(s: seq<T>, x: T, f: T -> U)
    ensures Map(s + [x], f) == Map(s, f) + [f(x)]
  {
    assert (s + [x])[..|s|] == s;
  }

  /** Element `k` of `s.map(f)` is `f(s[k])`. */
  lemma {:induction false} MapIndex<T, U>(s: seq<T>, f: T -> U, k: nat)
    requires k < |s|
    ensures Map(s, f)[k] == f(s[k])
  {
    if k < |s| - 1 {
      MapIndex(s[..|s| - 1], f, k);
    }
  }

  /** Mapping the tail is the tail of the mapped list. */
  lemma {:induction false} MapTail<T, U>(s: seq<T>, f: T -> U)
    requires |s| > 0
    ensures Map(s, f)[1..] == Map(s[1..], f)
  {
    if |s| > 1 {
      var init := s[..|s| - 1];
      MapTail(init, f);
      assert s[1..][..|s| - 2] == init[1..];
      assert Map(s, f)[1..] == Map(init, f)[1..] + [f(s[|s| - 1])];
    }
  }

  /** The two halves of a partition have as many elements as `s`. */
  lemma FilterPartitionSize<T>(s: seq<T>, p: T -> bool, q: T -> bool)
    requires forall x :: q(x) == !p(x)
    ensures |Filter(s, p)| + |Filter(s, q)| == |s|
  {
    FilterPartition(s, p, q);
    calc {
      |Filter(s, p)| + |Filter(s, q)|;
      |multiset(Filter(s, p))| + |multiset(Filter(s, q))|;
      |multiset(s)|;
    }
  }

  /** Filtering twice by the same test changes nothing. */
  lemma {:induction false} FilterIdempotent<T>(s: seq<T>, p: T -> bool)
    ensures Filter(Filter(s, p), p) == Filter(s, p)
  {
    if |s| > 0 {
      var init := s[..|s| - 1];
      FilterIdempotent(init, p);
      FilterAppend(Filter(init, p), if p(s[|s| - 1]) then [s[|s| - 1]] else [], p);
    }
  }

  /** Filtering by a test every element passes is the identity. */
  lemma {:induction false} FilterAll<T>(s: seq<T>, p: T -> bool)
    requires forall k :: 0 <= k < |s| ==> p(s[k])
    ensures Filter(s, p) == s
  {
    if |s| > 0 { FilterAll(s[..|s| - 1], p); }
  }

  /** Filtering by two tests that agree everywhere gives the same list. */
  lemma {:induction false} FilterExt<T>(s: seq<T>, p: T -> bool, q: T -> bool)
    requires forall x :: p(x) == q(x)
    ensures Filter(s, p) == Filter(s, q)
  {
    if |s| > 0 { FilterExt(s[..|s| - 1], p, q); }
  }

  /** Filtering by `p` and then by `q` is filtering by both at once. */
  lemma {:induction false} FilterCompose<T>(s: seq<T>, p: T -> bool, q: T -> bool, both: T -> bool)
    requires forall x :: both(x) == (p(x) && q(x))
    ensures Filter(Filter(s, p), q) == Filter(s, both)
  {
    if |s| > 0 {
      var init, last := s[..|s| - 1], s[|s| - 1];
      FilterCompose(init, p, q, both);
      FilterAppend(Filter(init, p), if p(last) then [last] else [], q);
    }
  }

  /** `r` is `s` with some elements left out and the rest in their order. */
  predicate SubsequenceOf<T(==)>(r: seq<T>, s: seq<T>)
    decreases |s|
  {
    if |r| == 0 then true
    else if |s| == 0 then false
    else if r[|r| - 1] == s[|s| - 1] then SubsequenceOf(r[..|r| - 1], s[..|s| - 1])
    else SubsequenceOf(r, s[..|s| - 1])
  }

  /** Adding an element at the end of `s` keeps `r` a subsequence. */
  lemma {:induction false} SubsequenceExtend<T>(r: seq<T>, s: seq<T>)
    requires |s| > 0 && SubsequenceOf(r, s[..|s| - 1])
    ensures SubsequenceOf(r, s)
    decreases |s|, |r|, 1
  {
    if |r| > 0 && r[|r| - 1] == s[|s| - 1] {
      SubsequenceDropLast(r, s[..|s| - 1]);
    }
  }

  /** Leaving out the last element of `r` keeps it a subsequence. */
  lemma {:induction false} SubsequenceDropLast<T>(r: seq<T>, s: seq<T>)
    requires |r| > 0 && SubsequenceOf(r, s)
    ensures SubsequenceOf(r[..|r| - 1], s)
    decreases |s|, |r|, 0
  {
    if r[|r| - 1] == s[|s| - 1] {
      SubsequenceExtend(r[..|r| - 1], s);
    } else {
      SubsequenceDropLast(r, s[..|s| - 1]);
      SubsequenceExtend(r[..|r| - 1], s);
    }
  }

  /** Anything appended after `s` keeps `r` a subsequence. */
  lemma {:induction false} SubsequenceAppend<T>(r: seq<T>, s: seq<T>, t: seq<T>)
    requires SubsequenceOf(r, s)
    ensures SubsequenceOf(r, s + t)
    decreases |t|
  {
    if |t| > 0 {
      assert (s + t)[..|s + t| - 1] == s + t[..|t| - 1];
      SubsequenceAppend(r, s, t[..|t| - 1]);
      SubsequenceExtend(r, s + t);
    } else {
      assert s + t == s;
    }
  }

  /** Subsequences of two lists concatenate to a subsequence of the
      concatenated lists. */
  lemma {:induction false} SubsequenceConcat<T>(a: seq<T>, s: seq<T>, b: seq<T>, t: seq<T>)
    requires SubsequenceOf(a, s) && SubsequenceOf(b, t)
    ensures SubsequenceOf(a + b, s + t)
    decreases |t|
  {
    if |b| == 0 {
      assert a + b == a;
      SubsequenceAppend(a, s, t);
    } else {
      assert |t| > 0;
      assert (s + t)[..|s + t| - 1] == s + t[..|t| - 1];
      if b[|b| - 1] == t[|t| - 1] {
        assert (a + b)[..|a + b| - 1] == a + b[..|b| - 1];
        SubsequenceConcat(a, s, b[..|b| - 1], t[..|t| - 1]);
      } else {
        SubsequenceConcat(a, s, b, t[..|t| - 1]);
        SubsequenceExtend(a + b, s + t);
      }
    }
  }

  /** Filtering keeps the survivors in their original order. */
  lemma {:induction false} FilterIsSubsequence<T>(s: seq<T>, p: T -> bool)
    ensures SubsequenceOf(Filter(s, p), s)
  {
    if |s| > 0 {
      var init := s[..|s| - 1];
      FilterIsSubsequence(init, p);
      var r := Filter(s, p);
      if p(s[|s| - 1]) {
        assert r[..|r| - 1] == Filter(init, p);
      } else {
        assert r == Filter(init, p);
        SubsequenceExtend(r, s);
      }
    }
  }

  /** A set grown step by step from empty, `acc(i) == acc(i - 1) + step(i - 1)`,
      holds after `n` steps exactly what one of the first `n` steps added. */
  lemma {:induction false} GrowIff<T>(acc: nat -> set<T>, step: nat -> set<T>, n: nat, x: T)
    requires acc(0) == {}
    requires forall i :: 0 < i <= n ==> acc(i) == acc(i - 1) + step(i - 1)
    ensures x in acc(n) <==> exists k :: 0 <= k < n && x in step(k)
  {
    if n > 0 {
      GrowIff(acc, step, n - 1, x);
      if x in step(n - 1) {
        assert 0 <= n - 1 < n && x in step(n - 1);
      }
    }
  }
}
