/** Sequence helpers shared by the scheduler model: index ranges, distinctness,
    first-occurrence removal (Python's list.remove) and prefix maps. */
module Lists {

  /** The indices 0, 1, ..., n - 1 in order. */
  function Range(n: nat): (r: seq<nat>)
    ensures |r| == n
    ensures forall i :: 0 <= i < n ==> r[i] == i
  {
    seq(n, i requires 0 <= i < n => i)
  }

  lemma Associative<T>(a: seq<T>, b: seq<T>, c: seq<T>)
    ensures a + (b + c) == a + b + c
  {
  }

  /** A suffix is its first element followed by the rest. */
  lemma SuffixCons<T>(s: seq<T>, i: nat)
    requires i < |s|
    ensures s[i..] == [s[i]] + s[i + 1..]
  {
  }

  predicate Distinct<T(==)>(s: seq<T>) {
    forall i, j :: 0 <= i < j < |s| ==> s[i] != s[j]
  }

  /** Removes the first occurrence of x, as Python's list.remove does
      (which raises an error when x is absent). */
  function RemoveFirst<T(==)>(s: seq<T>, x: T): (r: seq<T>)
    requires x in s
    ensures |r| == |s| - 1
    ensures multiset(r) == multiset(s) - multiset{x}
  {
    assert s == [s[0]] + s[1..];
    if s[0] == x then s[1..]
    else [s[0]] + RemoveFirst(s[1..], x)
  }

  /** Removing an element that does not occur earlier drops exactly that position. */
  lemma {:induction false} RemoveFirstAfter<T>(a: seq<T>, x: T, b: seq<T>)
    requires x !in a
    ensures RemoveFirst(a + [x] + b, x) == a + b
  {
    if a != [] {
      assert (a + [x] + b)[1..] == a[1..] + [x] + b;
      RemoveFirstAfter(a[1..], x, b);
    }
  }

  /** Moving a prefix of n to the end of p keeps the elements of the two together. */
  lemma MovePrefix<T>(n: seq<T>, p: seq<T>, k: nat)
    requires k <= |n|
    ensures multiset(n[k..]) + multiset(p + n[..k]) == multiset(n) + multiset(p)
  {
    assert n == n[..k] + n[k..];
  }

  /** In a sequence without repetitions, what follows a split point is not before it. */
  lemma SplitApart<T>(n: seq<T>, k: nat)
    requires Distinct(n) && k <= |n|
    ensures forall x :: x in n[k..] ==> x in n && x !in n[..k]
  {
    forall x | x in n[k..] ensures x in n && x !in n[..k] {
      var p :| 0 <= p < |n[k..]| && n[k..][p] == x;
      assert n[k + p] == x;
      forall q | 0 <= q < k ensures n[..k][q] != x {
        assert n[..k][q] == n[q];
      }
    }
  }

  /** In a sequence without repetitions every element occurs at most once. */
  lemma {:induction false} DistinctCount<T>(s: seq<T>, x: T)
    requires Distinct(s)
    ensures multiset(s)[x] <= 1
  {
    if s != [] {
      assert s == [s[0]] + s[1..];
      assert Distinct(s[1..]);
      DistinctCount(s[1..], x);
      if s[0] == x {
        assert x !in s[1..] by {
          forall k | 0 <= k < |s[1..]| ensures s[1..][k] != x {
            assert s[1..][k] == s[k + 1];
          }
        }
      }
    }
  }

  /** A sequence whose elements all occur at most once has no repetitions. */
  lemma CountDistinct<T>(s: seq<T>)
    requires forall x :: multiset(s)[x] <= 1
    ensures Distinct(s)
  {
    forall i, j | 0 <= i < j < |s| ensures s[i] != s[j] {
      assert s == s[..j] + s[j..];
      assert multiset(s) == multiset(s[..j]) + multiset(s[j..]);
      assert s[i] in s[..j] && s[j] in s[j..];
      assert multiset(s[..j])[s[i]] >= 1 && multiset(s[j..])[s[j]] >= 1;
      assert multiset(s)[s[i]] <= 1;
    }
  }

  /** Having no repetitions is invariant under permutation. */
  lemma DistinctPerm<T>(s: seq<T>, t: seq<T>)
    requires multiset(s) == multiset(t)
    requires Distinct(t)
    ensures Distinct(s)
  {
    forall x ensures multiset(s)[x] <= 1 {
      DistinctCount(t, x);
    }
    CountDistinct(s);
  }

  lemma RangeDistinct(n: nat)
    ensures Distinct(Range(n))
  {
  }

  /** r is q with some elements dropped: the elements of r occur in q, in
      the same order. */
  predicate Subsequence<T(==)>(r: seq<T>, q: seq<T>)
    decreases |q|
  {
    r == []
    || (q != []
        && (Subsequence(r, q[..|q| - 1])
            || (r[|r| - 1] == q[|q| - 1] && Subsequence(r[..|r| - 1], q[..|q| - 1]))))
  }

  /** The elements of s at the positions listed in idx. */
  function Pick<T>(s: seq<T>, idx: seq<nat>): (r: seq<T>)
    requires forall k :: 0 <= k < |idx| ==> idx[k] < |s|
    ensures |r| == |idx|
    ensures forall k :: 0 <= k < |idx| ==> r[k] == s[idx[k]]
  {
    seq(|idx|, k requires 0 <= k < |idx| => s[idx[k]])
  }

  /** r holds the elements of s at the positions listed in idx. */
  ghost predicate Picked<T>(s: seq<T>, idx: seq<nat>, r: seq<T>) {
    (forall k :: 0 <= k < |idx| ==> idx[k] < |s|) && r == Pick(s, idx)
  }

  /** Picking one more position appends that element. */
  lemma PickSnoc<T>(s: seq<T>, idx: seq<nat>, r: seq<T>, x: nat)
    requires Picked(s, idx, r) && x < |s|
    ensures Picked(s, idx + [x], r + [s[x]])
  {
  }
}
