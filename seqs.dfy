/** Sequence helpers shared by the components: the `Array.prototype.filter`
    the UI code uses everywhere, and the order-preserving subsequence relation
    that its results satisfy. */
module Seqs {

  /** `sub` can be obtained from `s` by deleting elements, keeping order. */
  predicate IsSubseq<T(==)>(sub: seq<T>, s: seq<T>)
    decreases |s|
  {
    if sub == [] then true
    else if s == [] then false
    else if sub[0] == s[0] then IsSubseq(sub[1..], s[1..])
    else IsSubseq(sub, s[1..])
  }

  /** The elements of `s` that satisfy `p`, in their original order. */
  function Filter<T>(s: seq<T>, p: T -> bool): (r: seq<T>)
    ensures |r| <= |s|
    ensures forall x :: x in r ==> x in s && p(x)
    ensures forall x :: x in s && p(x) ==> x in r
    decreases |s|
  {
    if s == [] then []
    else
      var rest := Filter(s[1..], p);
      assert forall x :: x in s[1..] ==> x in s;
      assert forall x :: x in s ==> x == s[0] || x in s[1..];
      if p(s[0]) then [s[0]] + rest else rest
  }

  function Map<T, U>(s: seq<T>, f: T -> U): (r: seq<U>)
    ensures |r| == |s|
    ensures forall i :: 0 <= i < |s| ==> r[i] == f(s[i])
    decreases |s|
  {
    if s == [] then [] else [f(s[0])] + Map(s[1..], f)
  }

  lemma AppendAssoc<T>(a: seq<T>, b: seq<T>, c: seq<T>)
    ensures a + (b + c) == a + b + c
  {
  }

  /** Filtering a sequence extended by one element at the end. */
  lemma {:induction false} FilterSnoc<T>(s: seq<T>, x: T, p: T -> bool)
    ensures Filter(s + [x], p) == if p(x) then Filter(s, p) + [x] else Filter(s, p)
    decreases |s|
  {
    if s == [] {
      assert [] + [x] == [x];
      assert [x][1..] == [];
    } else {
      assert (s + [x])[0] == s[0];
      assert (s + [x])[1..] == s[1..] + [x];
      FilterSnoc(s[1..], x, p);
      if p(s[0]) && p(x) {
        AppendAssoc([s[0]], Filter(s[1..], p), [x]);
      }
    }
  }

  /** Filtering by a test every element passes changes nothing. */
  lemma {:induction false} FilterAll<T>(s: seq<T>, p: T -> bool)
    requires forall i :: 0 <= i < |s| ==> p(s[i])
    ensures Filter(s, p) == s
    decreases |s|
  {
    if s != [] {
      assert forall i :: 0 <= i < |s[1..]| ==> s[1..][i] == s[i + 1];
      FilterAll(s[1..], p);
      assert [s[0]] + s[1..] == s;
    }
  }

  /** Filtering by two tests that agree on every element gives the same result. */
  lemma {:induction false} FilterSameTest<T>(s: seq<T>, p: T -> bool, q: T -> bool)
    requires forall i :: 0 <= i < |s| ==> p(s[i]) == q(s[i])
    ensures Filter(s, p) == Filter(s, q)
    decreases |s|
  {
    if s != [] {
      assert forall i :: 0 <= i < |s[1..]| ==> s[1..][i] == s[i + 1];
      FilterSameTest(s[1..], p, q);
    }
  }

  lemma {:induction false} FilterIsSubseq<T>(s: seq<T>, p: T -> bool)
    ensures IsSubseq(Filter(s, p), s)
    decreases |s|
  {
    if s != [] {
      FilterIsSubseq(s[1..], p);
      var rest := Filter(s[1..], p);
      if p(s[0]) {
        assert Filter(s, p) == [s[0]] + rest;
        assert ([s[0]] + rest)[1..] == rest;
      } else {
        SubseqOfTail(rest, s);
      }
    }
  }

  /** Filtering keeps every element that satisfies `p` exactly as often as
      it occurs in the input, and drops every other element. */
  lemma {:induction false} FilterCounts<T>(s: seq<T>, p: T -> bool, x: T)
    ensures multiset(Filter(s, p))[x] == if p(x) then multiset(s)[x] else 0
    decreases |s|
  {
    if s != [] {
      FilterCounts(s[1..], p, x);
      assert s == [s[0]] + s[1..];
      assert multiset(s) == multiset{s[0]} + multiset(s[1..]);
    }
  }

  /** `FilterCounts` for every element at once. */
  lemma FilterCountsAll<T>(s: seq<T>, p: T -> bool)
    ensures forall x :: multiset(Filter(s, p))[x] == if p(x) then multiset(s)[x] else 0
  {
    forall x ensures multiset(Filter(s, p))[x] == if p(x) then multiset(s)[x] else 0 {
      FilterCounts(s, p, x);
    }
  }

  /** The subsequence relation is transitive. */
  lemma {:induction false} SubseqTrans<T>(a: seq<T>, b: seq<T>, c: seq<T>)
    requires IsSubseq(a, b) && IsSubseq(b, c)
    ensures IsSubseq(a, c)
    decreases |c|
  {
    if a != [] {
      if b[0] == c[0] {
        if a[0] == b[0] {
          SubseqTrans(a[1..], b[1..], c[1..]);
        } else {
          SubseqTrans(a, b[1..], c[1..]);
          SubseqOfTail(a, c);
        }
      } else {
        SubseqTrans(a, b, c[1..]);
        SubseqOfTail(a, c);
      }
    }
  }

  /** Dropping an element from the front of the larger sequence keeps the relation. */
  lemma {:induction false} SubseqOfTail<T>(sub: seq<T>, s: seq<T>)
    requires |s| > 0 && IsSubseq(sub, s[1..])
    ensures IsSubseq(sub, s)
    decreases |s|, |sub|
  {
    if sub != [] && sub[0] == s[0] {
      // IsSubseq(sub, s) reduces to IsSubseq(sub[1..], s[1..])
      SubseqDropHead(sub, s[1..]);
    }
  }

  lemma {:induction false} SubseqDropHead<T>(sub: seq<T>, s: seq<T>)
    requires |sub| > 0 && IsSubseq(sub, s)
    ensures IsSubseq(sub[1..], s)
    decreases |s|, |sub|
  {
    assert s != [];
    if sub[0] == s[0] {
      SubseqOfTail(sub[1..], s);
    } else {
      SubseqDropHead(sub, s[1..]);
      SubseqOfTail(sub[1..], s);
    }
  }

  /** Sum of an integer-valued measure over a sequence (`reduce((a, x) => a + f(x), 0)`). */
  function SumOf<T>(s: seq<T>, f: T -> int): int
    decreases |s|
  {
    if s == [] then 0 else f(s[0]) + SumOf(s[1..], f)
  }

  lemma {:induction false} SumOfAppend<T>(s: seq<T>, t: seq<T>, f: T -> int)
    ensures SumOf(s + t, f) == SumOf(s, f) + SumOf(t, f)
    decreases |s|
  {
    if s != [] {
      assert (s + t)[0] == s[0] && (s + t)[1..] == s[1..] + t;
      SumOfAppend(s[1..], t, f);
      assert SumOf(s + t, f) == f(s[0]) + SumOf(s[1..] + t, f);
      assert SumOf(s, f) == f(s[0]) + SumOf(s[1..], f);
    } else {
      assert s + t == t;
    }
  }

  /** A sum of non-negative measures is non-negative. */
  lemma {:induction false} SumOfNonNegative<T>(s: seq<T>, f: T -> int)
    ensures (forall i :: 0 <= i < |s| ==> f(s[i]) >= 0) ==> SumOf(s, f) >= 0
    decreases |s|
  {
    if s != [] && forall i :: 0 <= i < |s| ==> f(s[i]) >= 0 {
      assert forall i :: 0 <= i < |s[1..]| ==> s[1..][i] == s[i + 1];
      SumOfNonNegative(s[1..], f);
    }
  }

  /** A sum of terms that each lie between `lo` and `hi` lies between
      `|s|` times each. */
  lemma {:induction false} SumOfBounds<T>(s: seq<T>, f: T -> int, lo: int, hi: int)
    requires forall i :: 0 <= i < |s| ==> lo <= f(s[i]) <= hi
    ensures lo * |s| <= SumOf(s, f) <= hi * |s|
    decreases |s|
  {
    if s != [] {
      assert forall i :: 0 <= i < |s[1..]| ==> s[1..][i] == s[i + 1];
      SumOfBounds(s[1..], f, lo, hi);
      assert lo * |s| == lo * |s[1..]| + lo;
      assert hi * |s| == hi * |s[1..]| + hi;
    }
  }

  /** Taking one element out of a sum. */
  lemma SumOfRemove<T>(t: seq<T>, k: nat, f: T -> int)
    requires k < |t|
    ensures SumOf(t, f) == f(t[k]) + SumOf(t[..k] + t[k + 1..], f)
  {
    var rest := t[k..];
    assert t == t[..k] + rest;
    assert rest[0] == t[k] && rest[1..] == t[k + 1..];
    assert SumOf(rest, f) == f(t[k]) + SumOf(t[k + 1..], f);
    SumOfAppend(t[..k], rest, f);
    SumOfAppend(t[..k], t[k + 1..], f);
  }

  /** Taking one element out of a multiset. */
  lemma MultisetRemove<T>(t: seq<T>, k: nat)
    requires k < |t|
    ensures multiset(t[..k] + t[k + 1..]) == multiset(t) - multiset{t[k]}
  {
    assert t == t[..k] + [t[k]] + t[k + 1..];
  }

  /** A sum is the same for every arrangement of the same elements. */
  lemma {:induction false} SumOfPermutation<T>(s: seq<T>, t: seq<T>, f: T -> int)
    requires multiset(s) == multiset(t)
    ensures SumOf(s, f) == SumOf(t, f)
    decreases |s|
  {
    if s == [] {
      assert |t| == |multiset(t)| == 0;
    } else {
      var x := s[0];
      assert x in multiset(t);
      var k :| 0 <= k < |t| && t[k] == x;
      MultisetRemove(s, 0);
      MultisetRemove(t, k);
      assert s[..0] + s[1..] == s[1..];
      SumOfPermutation(s[1..], t[..k] + t[k + 1..], f);
      SumOfRemove(t, k, f);
    }
  }

  /** `[...s]`: a fresh array with the same elements. */
  method CopyOf<T>(s: seq<T>) returns (a: array<T>)
    ensures fresh(a) && a[..] == s
  {
    a := new T[|s|](i requires 0 <= i < |s| => s[i]);
  }
}
