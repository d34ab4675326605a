/**
 * `Array.prototype.filter` over a fixed, ordered table, and the facts the
 * selection and middleware properties rest on: membership, order, no
 * duplicates, and dependence on the kept elements only.
 */
module Seqs {

  /** No element occurs twice. */
  predicate Distinct<T(==)>(s: seq<T>) {
    forall i, j :: 0 <= i < j < |s| ==> s[i] != s[j]
  }

  /** The first index of `x` in `s`. */
  function IndexOf<T(==)>(s: seq<T>, x: T): (i: nat)
    requires x in s
    ensures i < |s| && s[i] == x && x !in s[..i]
  {
    if s[0] == x then 0 else 1 + IndexOf(s[1..], x)
  }

  /** `s.filter(keep)` */
  function Filter<T(==)>(s: seq<T>, keep: T -> bool): (r: seq<T>)
    ensures |r| <= |s|
    ensures forall i :: 0 <= i < |r| ==> r[i] in s
  {
    if s == [] then []
    else (if keep(s[0]) then [s[0]] else []) + Filter(s[1..], keep)
  }

  /** One step of the filter: the head, if kept, then the filtered tail. */
  lemma FilterCons<T>(x: T, s: seq<T>, keep: T -> bool)
    ensures Filter([x] + s, keep) == (if keep(x) then [x] else []) + Filter(s, keep)
  {
    assert ([x] + s)[1..] == s;
  }

  /** Appending puts the element last. */
  lemma AppendLast<T>(s: seq<T>, x: T)
    ensures |s + [x]| == |s| + 1 && (s + [x])[|s|] == x
  {
  }

  /** Concatenation regroups freely. */
  lemma AppendAssoc<T>(a: seq<T>, b: seq<T>, c: seq<T>)
    ensures a + (b + c) == a + b + c
  {
  }

  /** A non-empty prefix is the head followed by a prefix of the tail. */
  lemma TakeTail<T>(s: seq<T>, n: nat)
    requires 0 < n <= |s|
    ensures s[..n][0] == s[0] && s[..n][1..] == s[1..][..n - 1]
  {
  }

  /** Appending an element that is not yet present keeps a list without duplicates. */
  lemma AppendAbsent<T>(s: seq<T>, x: T)
    requires Distinct(s) && x !in s
    ensures Distinct(s + [x])
    ensures (s + [x])[..|s|] == s
  {
    var r := s + [x];
    forall i, j | 0 <= i < j < |r| ensures r[i] != r[j] {
      if j == |s| {
        assert r[i] == s[i];
      } else {
        assert r[i] == s[i] && r[j] == s[j];
      }
    }
  }

  /** An element is in the result exactly when it is in `s` and kept. */
  lemma {:induction false} FilterMembers<T>(s: seq<T>, keep: T -> bool, x: T)
    ensures x in Filter(s, keep) <==> x in s && keep(x)
  {
    if s != [] {
      FilterMembers(s[1..], keep, x);
      assert s == [s[0]] + s[1..];
    }
  }

  /** Every element of `s` is kept exactly when `keep` holds of it. */
  lemma FilterAll<T>(s: seq<T>, keep: T -> bool)
    requires forall x :: x in s ==> keep(x)
    ensures Filter(s, keep) == s
  {
    if s != [] {
      FilterAll(s[1..], keep);
      assert [s[0]] + s[1..] == s;
    }
  }

  /** Nothing is kept when `keep` holds of no element. */
  lemma FilterNone<T>(s: seq<T>, keep: T -> bool)
    requires forall x :: x in s ==> !keep(x)
    ensures Filter(s, keep) == []
  {
  }

  /** In a table without duplicates, kept elements keep their table order. */
  lemma FilterKeepsOrder<T>(s: seq<T>, keep: T -> bool, i: nat, j: nat)
    requires Distinct(s)
    requires i < j < |Filter(s, keep)|
    ensures IndexOf(s, Filter(s, keep)[i]) < IndexOf(s, Filter(s, keep)[j])
  {
    KeptIndexIncreasing(s, keep, i, j);
    KeptIndexElement(s, keep, i);
    KeptIndexElement(s, keep, j);
    IndexOfDistinct(s, KeptIndex(s, keep, i));
    IndexOfDistinct(s, KeptIndex(s, keep, j));
  }

  /** Where the `i`-th kept element sits in the table. */
  function KeptIndex<T(==)>(s: seq<T>, keep: T -> bool, i: nat): (a: nat)
    requires i < |Filter(s, keep)|
    ensures a < |s|
    decreases |s|
  {
    var rest := Filter(s[1..], keep);
    if keep(s[0]) then
      assert Filter(s, keep) == [s[0]] + rest;
      if i == 0 then 0 else 1 + KeptIndex(s[1..], keep, i - 1)
    else
      assert Filter(s, keep) == rest;
      1 + KeptIndex(s[1..], keep, i)
  }

  /** The `i`-th kept element is the table's element at `KeptIndex`. */
  lemma {:induction false} KeptIndexElement<T>(s: seq<T>, keep: T -> bool, i: nat)
    requires i < |Filter(s, keep)|
    ensures s[KeptIndex(s, keep, i)] == Filter(s, keep)[i]
    decreases |s|
  {
    var t := s[1..];
    var rest := Filter(t, keep);
    if keep(s[0]) {
      assert Filter(s, keep) == [s[0]] + rest;
      if i > 0 {
        KeptIndexElement(t, keep, i - 1);
        assert s[KeptIndex(s, keep, i)] == t[KeptIndex(t, keep, i - 1)];
      }
    } else {
      assert Filter(s, keep) == rest;
      KeptIndexElement(t, keep, i);
      assert s[KeptIndex(s, keep, i)] == t[KeptIndex(t, keep, i)];
    }
  }

  /** Later kept elements sit further along in the table. */
  lemma {:induction false} KeptIndexIncreasing<T>(s: seq<T>, keep: T -> bool, i: nat, j: nat)
    requires i < j < |Filter(s, keep)|
    ensures KeptIndex(s, keep, i) < KeptIndex(s, keep, j)
    decreases |s|
  {
    var t := s[1..];
    if keep(s[0]) {
      assert KeptIndex(s, keep, j) == 1 + KeptIndex(t, keep, j - 1);
      if i > 0 {
        KeptIndexIncreasing(t, keep, i - 1, j - 1);
        assert KeptIndex(s, keep, i) == 1 + KeptIndex(t, keep, i - 1);
      } else {
        assert KeptIndex(s, keep, i) == 0;
      }
    } else {
      KeptIndexIncreasing(t, keep, i, j);
      assert KeptIndex(s, keep, i) == 1 + KeptIndex(t, keep, i);
      assert KeptIndex(s, keep, j) == 1 + KeptIndex(t, keep, j);
    }
  }

  /** In a table without duplicates, an element's first index is its only index. */
  lemma {:induction false} IndexOfDistinct<T>(s: seq<T>, a: nat)
    requires Distinct(s) && a < |s|
    ensures IndexOf(s, s[a]) == a
    decreases a
  {
    if a > 0 {
      assert s[0] != s[a];
      DistinctTail(s);
      assert s[1..][a - 1] == s[a];
      IndexOfDistinct(s[1..], a - 1);
    }
  }

  /** The tail of a table without duplicates has none either, and lacks the head. */
  lemma DistinctTail<T>(s: seq<T>)
    requires Distinct(s) && s != []
    ensures Distinct(s[1..]) && s[0] !in s[1..]
  {
    var t := s[1..];
    forall a, b | 0 <= a < b < |t| ensures t[a] != t[b] {
      assert t[a] == s[a + 1] && t[b] == s[b + 1];
    }
    forall k | 0 <= k < |t| ensures t[k] != s[0] {
      assert t[k] == s[k + 1];
    }
  }

  /** Filtering distributes over concatenation. */
  lemma {:induction false} FilterAppend<T>(a: seq<T>, b: seq<T>, keep: T -> bool)
    ensures Filter(a + b, keep) == Filter(a, keep) + Filter(b, keep)
    decreases |a|
  {
    if a == [] {
      assert a + b == b;
    } else {
      assert a + b == [a[0]] + (a[1..] + b);
      FilterCons(a[0], a[1..] + b, keep);
      FilterAppend(a[1..], b, keep);
      FilterCons(a[0], a[1..], keep);
      assert [a[0]] + a[1..] == a;
    }
  }

  /** Filtering a table without duplicates gives a list without duplicates. */
  lemma FilterDistinct<T>(s: seq<T>, keep: T -> bool)
    requires Distinct(s)
    ensures Distinct(Filter(s, keep))
  {
    var r := Filter(s, keep);
    forall i, j | 0 <= i < j < |r| ensures r[i] != r[j] {
      FilterKeepsOrder(s, keep, i, j);
    }
  }

  /** The result depends only on what `keep` says about the table's elements. */
  lemma {:induction false} FilterCongruent<T>(s: seq<T>, k1: T -> bool, k2: T -> bool)
    requires forall x :: x in s ==> k1(x) == k2(x)
    ensures Filter(s, k1) == Filter(s, k2)
  {
    if s != [] {
      FilterCongruent(s[1..], k1, k2);
    }
  }
}
