/** Python's `sorted(xs, key=lambda x: x[1], reverse=True)` and
    `xs.sort(key=..., reverse=True)` on (item, weight) pairs (analyzer.py:69,
    report_generator.py:180): a stable sort by descending weight. Python's
    sort keeps items of equal weight in their original order even with
    `reverse=True`. */
module Ranking {

  /** Weights never increase along the sequence. */
  ghost predicate SortedDesc<T>(s: seq<(T, real)>) {
    forall i, j :: 0 <= i < j < |s| ==> s[i].1 >= s[j].1
  }

  /** The items of weight `w`, in order. */
  function WithWeight<T>(s: seq<(T, real)>, w: real): (r: seq<(T, real)>)
    ensures |r| <= |s|
    ensures forall k :: 0 <= k < |r| ==> r[k].1 == w
  {
    if s == [] then []
    else (if s[0].1 == w then [s[0]] else []) + WithWeight(s[1..], w)
  }

  /** Places `x` in front of the first item of `s` that does not outweigh it. */
  function Insert<T>(x: (T, real), s: seq<(T, real)>): (r: seq<(T, real)>)
    ensures |r| == |s| + 1
  {
    if s == [] || x.1 >= s[0].1 then [x] + s else [s[0]] + Insert(x, s[1..])
  }

  /** The stable descending sort, by insertion from the back. */
  function SortDesc<T>(s: seq<(T, real)>): (r: seq<(T, real)>)
    ensures |r| == |s|
  {
    if s == [] then [] else Insert(s[0], SortDesc(s[1..]))
  }

  lemma {:induction false} InsertSorted<T>(x: (T, real), s: seq<(T, real)>)
    requires SortedDesc(s)
    ensures SortedDesc(Insert(x, s))
    ensures Insert(x, s) != [] && (s == [] || Insert(x, s)[0].1 == if x.1 >= s[0].1 then x.1 else s[0].1)
    decreases |s|
  {
    if s != [] && x.1 < s[0].1 {
      InsertSorted(x, s[1..]);
      var t := Insert(x, s[1..]);
      assert Insert(x, s) == [s[0]] + t;
      forall k | 0 <= k < |t| ensures s[0].1 >= t[k].1 {
        InsertMembers(x, s[1..]);
        assert t[k] in multiset(Insert(x, s[1..]));
        if t[k] != x {
          assert t[k] in multiset(s[1..]);
          var m :| 0 <= m < |s[1..]| && s[1..][m] == t[k];
          assert s[m + 1] == t[k];
        }
      }
    }
  }

  lemma {:induction false} InsertMembers<T>(x: (T, real), s: seq<(T, real)>)
    ensures multiset(Insert(x, s)) == multiset(s) + multiset{x}
    decreases |s|
  {
    if s != [] && x.1 < s[0].1 {
      InsertMembers(x, s[1..]);
      assert s == [s[0]] + s[1..];
    }
  }

  /** The sort orders by weight and only reorders. */
  lemma {:induction false} SortDescSortedPermutation<T>(s: seq<(T, real)>)
    ensures SortedDesc(SortDesc(s))
    ensures multiset(SortDesc(s)) == multiset(s)
    decreases |s|
  {
    if s != [] {
      SortDescSortedPermutation(s[1..]);
      InsertSorted(s[0], SortDesc(s[1..]));
      InsertMembers(s[0], SortDesc(s[1..]));
      assert s == [s[0]] + s[1..];
    }
  }

  lemma {:induction false} WithWeightAppend<T>(a: seq<(T, real)>, b: seq<(T, real)>, w: real)
    ensures WithWeight(a + b, w) == WithWeight(a, w) + WithWeight(b, w)
    decreases |a|
  {
    if a == [] {
      assert a + b == b;
    } else {
      assert (a + b)[0] == a[0] && (a + b)[1..] == a[1..] + b;
      WithWeightAppend(a[1..], b, w);
    }
  }

  lemma {:induction false} InsertWithWeight<T>(x: (T, real), s: seq<(T, real)>, w: real)
    requires SortedDesc(s)
    ensures WithWeight(Insert(x, s), w) == (if x.1 == w then [x] else []) + WithWeight(s, w)
    decreases |s|
  {
    if s != [] && x.1 < s[0].1 {
      InsertWithWeight(x, s[1..], w);
      assert Insert(x, s) == [s[0]] + Insert(x, s[1..]);
      WithWeightAppend([s[0]], Insert(x, s[1..]), w);
      if x.1 == w {
        assert s[0].1 != w;
        assert WithWeight(s, w) == WithWeight(s[1..], w);
      }
    } else {
      WithWeightAppend([x], s, w);
    }
  }

  /** Stability: for every weight, the items of that weight come out in the
      order they went in. */
  lemma {:induction false} SortDescStable<T>(s: seq<(T, real)>, w: real)
    ensures WithWeight(SortDesc(s), w) == WithWeight(s, w)
    decreases |s|
  {
    if s != [] {
      SortDescStable(s[1..], w);
      SortDescSortedPermutation(s[1..]);
      InsertWithWeight(s[0], SortDesc(s[1..]), w);
    }
  }

  /** A sorted sequence's first item weighs at least as much as any other. */
  lemma SortedFirstIsMax<T>(s: seq<(T, real)>, x: (T, real))
    requires SortedDesc(s) && x in s
    ensures s[0].1 >= x.1
  {
    var k :| 0 <= k < |s| && s[k] == x;
    if k > 0 {
      assert s[0].1 >= s[k].1;
    }
  }

  /** Truncating keeps, for every weight, a prefix of the items of that weight. */
  lemma {:induction false} WithWeightPrefix<T>(s: seq<(T, real)>, n: nat, w: real)
    requires n <= |s|
    ensures WithWeight(s[..n], w) <= WithWeight(s, w)
    decreases n
  {
    if n > 0 {
      assert s[..n][1..] == s[1..][..n - 1];
      WithWeightPrefix(s[1..], n - 1, w);
    }
  }

  lemma SortDescSorted<T>(s: seq<(T, real)>)
    ensures SortedDesc(SortDesc(s))
  {
    SortDescSortedPermutation(s);
  }

  /** Sorting keeps exactly the items it was given. */
  lemma SortDescMember<T>(s: seq<(T, real)>, x: (T, real))
    ensures x in SortDesc(s) <==> x in s
  {
    SortDescSortedPermutation(s);
    assert x in SortDesc(s) <==> x in multiset(SortDesc(s));
  }

  /** When no weight exceeds 1 and the weight at `j` is 1, the sort starts with 1. */
  lemma SortedFirstIsOne<T>(s: seq<(T, real)>, j: nat)
    requires forall i :: 0 <= i < |s| ==> s[i].1 <= 1.0
    requires j < |s| && s[j].1 == 1.0
    ensures SortDesc(s) != [] && SortDesc(s)[0].1 == 1.0
  {
    var t := SortDesc(s);
    SortDescSorted(s);
    SortDescMember(s, s[j]);
    SortedFirstIsMax(t, s[j]);
    SortDescMember(s, t[0]);
    var i :| 0 <= i < |s| && s[i] == t[0];
  }
}
