/**
 * Sequence operations the control's JavaScript gets from `Array` and `Set`:
 * `filter`, de-duplication through a `Set` (which keeps first-insertion
 * order), and sorting. Definitions recurse on the last element so that a
 * loop over a prefix can keep "what is built so far" as an invariant.
 */
module Seqs {

  /** `s.filter(p)`. */
  function Filter<T(!new)>(s: seq<T>, p: T -> bool): (r: seq<T>)
    ensures |r| <= |s|
    ensures forall x :: x in r <==> x in s && p(x)
  {
    if s == [] then []
    else Filter(s[..|s| - 1], p) + (if p(s[|s| - 1]) then [s[|s| - 1]] else [])
  }

  lemma FilterAppend<T(!new)>(a: seq<T>, b: seq<T>, p: T -> bool)
    ensures Filter(a + b, p) == Filter(a, p) + Filter(b, p)
  {
    if b != [] {
      assert (a + b)[..|a + b| - 1] == a + b[..|b| - 1];
      FilterAppend(a, b[..|b| - 1], p);
    } else {
      assert a + b == a;
    }
  }

  lemma {:induction false} FilterNone<T(!new)>(s: seq<T>, p: T -> bool)
    requires forall i :: 0 <= i < |s| ==> !p(s[i])
    ensures Filter(s, p) == []
  {
    if s != [] {
      FilterNone(s[..|s| - 1], p);
    }
  }

  lemma {:induction false} FilterAll<T(!new)>(s: seq<T>, p: T -> bool)
    requires forall i :: 0 <= i < |s| ==> p(s[i])
    ensures Filter(s, p) == s
  {
    if s != [] {
      FilterAll(s[..|s| - 1], p);
      assert s[..|s| - 1] + [s[|s| - 1]] == s;
    }
  }

  /** Filtering keeps every copy of a kept value and no copy of a dropped one. */
  lemma {:induction false} FilterMultiset<T(!new)>(s: seq<T>, p: T -> bool)
    ensures forall x :: multiset(Filter(s, p))[x] == if p(x) then multiset(s)[x] else 0
  {
    if s != [] {
      var init, last := s[..|s| - 1], s[|s| - 1];
      FilterMultiset(init, p);
      assert s == init + [last];
    }
  }

  /** Dropping exactly the copies of x shortens the sequence by their number. */
  lemma {:induction false} FilterOutLength<T(!new)>(s: seq<T>, p: T -> bool, x: T)
    requires forall y :: !p(y) <==> y == x
    ensures |Filter(s, p)| == |s| - multiset(s)[x]
  {
    if s != [] {
      var init, last := s[..|s| - 1], s[|s| - 1];
      FilterOutLength(init, p, x);
      assert s == init + [last];
    }
  }

  /** Filtering an already filtered sequence again changes nothing. */
  lemma {:induction false} FilterIdempotent<T(!new)>(s: seq<T>, p: T -> bool)
    ensures Filter(Filter(s, p), p) == Filter(s, p)
  {
    if s != [] {
      var init, last := s[..|s| - 1], s[|s| - 1];
      FilterIdempotent(init, p);
      FilterAppend(Filter(init, p), if p(last) then [last] else [], p);
      if p(last) {
        assert Filter([last], p) == Filter([], p) + [last];
      }
    }
  }

  /** `a` is `b` with some elements dropped (order kept). */
  predicate Subseq<T(==)>(a: seq<T>, b: seq<T>)
    decreases |b|
  {
    if a == [] then true
    else if b == [] then false
    else if a[|a| - 1] == b[|b| - 1] then Subseq(a[..|a| - 1], b[..|b| - 1])
    else Subseq(a, b[..|b| - 1])
  }

  lemma {:induction false} SubseqOfEmpty<T>(b: seq<T>)
    ensures Subseq([], b)
  {
  }

  /** Dropping a last element of `b` keeps a subsequence of it one. */
  lemma {:induction false} SubseqExtend<T>(a: seq<T>, b: seq<T>, x: T)
    requires Subseq(a, b)
    ensures Subseq(a, b + [x])
    decreases |b|, 1
  {
    var bx := b + [x];
    assert bx[..|bx| - 1] == b;
    if a != [] && a[|a| - 1] == x {
      // Subseq(a, b + [x]) holds when Subseq(a[..|a|-1], b); it follows from Subseq(a, b).
      SubseqDropLast(a, b);
    }
  }

  lemma {:induction false} SubseqDropLast<T>(a: seq<T>, b: seq<T>)
    requires a != [] && Subseq(a, b)
    ensures Subseq(a[..|a| - 1], b)
    decreases |b|, 0
  {
    var init := a[..|a| - 1];
    var binit := b[..|b| - 1];
    if a[|a| - 1] == b[|b| - 1] {
      assert Subseq(init, binit);
      SubseqExtend(init, binit, b[|b| - 1]);
      assert binit + [b[|b| - 1]] == b;
    } else {
      SubseqDropLast(a, binit);
      SubseqExtend(init, binit, b[|b| - 1]);
      assert binit + [b[|b| - 1]] == b;
    }
  }

  /** A filter result is an order-preserving subsequence of its input. */
  lemma {:induction false} FilterIsSubseq<T(!new)>(s: seq<T>, p: T -> bool)
    ensures Subseq(Filter(s, p), s)
  {
    if s != [] {
      var init, last := s[..|s| - 1], s[|s| - 1];
      FilterIsSubseq(init, p);
      var f := Filter(init, p);
      if p(last) {
        assert Filter(s, p) == f + [last];
        assert (f + [last])[..|f + [last]| - 1] == f;
      } else {
        assert Filter(s, p) == f;
        SubseqExtend(f, init, last);
        assert init + [last] == s;
      }
    }
  }

  predicate Distinct<T(==)>(s: seq<T>) {
    forall i, j :: 0 <= i < j < |s| ==> s[i] != s[j]
  }

  /** Index of the first occurrence of `x` in `s`. */
  function FirstIndex<T(==)>(s: seq<T>, x: T): (k: nat)
    requires x in s
    ensures k < |s| && s[k] == x && x !in s[..k]
  {
    if s[0] == x then 0 else 1 + FirstIndex(s[1..], x)
  }

  /** An occurrence with no earlier one is the first. */
  lemma {:induction false} FirstIndexAt<T>(s: seq<T>, k: nat)
    requires k < |s| && s[k] !in s[..k]
    ensures FirstIndex(s, s[k]) == k
  {
    if k > 0 {
      assert s[0] in s[..k];
      assert s[1..][k - 1] == s[k];
      assert s[1..][..k - 1] == s[1..k];
      FirstIndexAt(s[1..], k - 1);
    }
  }

  lemma FirstIndexOfPrefix<T>(s: seq<T>, n: nat, x: T)
    requires n <= |s| && x in s[..n]
    ensures FirstIndex(s, x) == FirstIndex(s[..n], x)
  {
    var k := FirstIndex(s[..n], x);
    assert s[..n][..k] == s[..k];
    assert s[k] == x;
  }

  /**
   * `Array.from(new Set(s))`: each distinct element once, at the position of
   * its first occurrence (see `DedupOrder`).
   */
  function Dedup<T(==,!new)>(s: seq<T>): (r: seq<T>)
    ensures |r| <= |s|
    ensures Distinct(r)
    ensures forall x :: x in r <==> x in s
  {
    if s == [] then []
    else
      var d := Dedup(s[..|s| - 1]);
      if s[|s| - 1] in d then d else d + [s[|s| - 1]]
  }

  /** The elements of `Dedup(s)` come in the order of their first occurrences in `s`. */
  lemma {:induction false} DedupOrder<T(!new)>(s: seq<T>)
    ensures forall i, j :: 0 <= i < j < |Dedup(s)| ==> FirstIndex(s, Dedup(s)[i]) < FirstIndex(s, Dedup(s)[j])
  {
    if s != [] {
      var n := |s| - 1;
      DedupOrder(s[..n]);
      var d := Dedup(s[..n]);
      forall x | x in d ensures x in s && FirstIndex(s, x) == FirstIndex(s[..n], x) < n {
        assert x in s[..n];
        FirstIndexOfPrefix(s, n, x);
      }
      if s[n] !in d {
        assert s[n] !in s[..n];
        FirstIndexAt(s, n);
        var r := d + [s[n]];
        assert Dedup(s) == r;
        forall i, j | 0 <= i < j < |r| ensures r[i] in s && r[j] in s && FirstIndex(s, r[i]) < FirstIndex(s, r[j]) {
          assert r[i] == d[i] && d[i] in d;
          if j < |d| {
            assert r[j] == d[j] && d[j] in d;
            assert FirstIndex(s[..n], d[i]) < FirstIndex(s[..n], d[j]);
          } else {
            assert r[j] == s[n];
          }
        }
      } else {
        assert Dedup(s) == d;
        forall i, j | 0 <= i < j < |d| ensures d[i] in s && d[j] in s && FirstIndex(s, d[i]) < FirstIndex(s, d[j]) {
          assert d[i] in d && d[j] in d;
          assert FirstIndex(s[..n], d[i]) < FirstIndex(s[..n], d[j]);
        }
      }
    }
  }

  /** Appending an element `Dedup` has already seen changes nothing; a new one goes at the end. */
  lemma DedupSnoc<T(!new)>(s: seq<T>, x: T)
    ensures Dedup(s + [x]) == if x in Dedup(s) then Dedup(s) else Dedup(s) + [x]
  {
    assert (s + [x])[..|s|] == s;
  }

  /** Dedup of a sequence without repeats is that sequence. */
  lemma {:induction false} DedupOfDistinct<T(!new)>(s: seq<T>)
    requires Distinct(s)
    ensures Dedup(s) == s
  {
    if s != [] {
      var init := s[..|s| - 1];
      assert Distinct(init);
      DedupOfDistinct(init);
      assert s[|s| - 1] !in init;
      assert init + [s[|s| - 1]] == s;
    }
  }

  /** The sum of `f` over a sequence. */
  function SumOf<T>(s: seq<T>, f: T -> real): real {
    if s == [] then 0.0 else SumOf(s[..|s| - 1], f) + f(s[|s| - 1])
  }

  predicate StrictlyIncreasing(s: seq<int>) {
    forall i, j :: 0 <= i < j < |s| ==> s[i] < s[j]
  }

  lemma {:induction false} NonEmptyHasElement(s: set<int>)
    requires s != {}
    ensures exists y :: y in s
  {
    if forall y :: y !in s {
      assert false;
    }
  }

  lemma {:induction false} MinExists(s: set<int>)
    requires s != {}
    ensures exists m :: m in s && forall x :: x in s ==> m <= x
  {
    NonEmptyHasElement(s);
    var y :| y in s;
    var rest := s - {y};
    if rest != {} {
      MinExists(rest);
      var m :| m in rest && forall x :: x in rest ==> m <= x;
      var least := if y < m then y else m;
      forall x | x in s ensures least <= x {
        if x != y { assert x in rest; }
      }
      assert least in s;
    } else {
      assert s == {y};
    }
  }

  /**
   * The elements of a set of integers in ascending order: the order in which
   * JavaScript's `Object.keys` lists integer keys.
   */
  function SortedInts(s: set<int>): (r: seq<int>)
    ensures StrictlyIncreasing(r)
    ensures |r| == |s|
    ensures forall x :: x in r <==> x in s
    decreases |s|
  {
    if s == {} then []
    else
      MinExists(s);
      var m :| m in s && forall x :: x in s ==> m <= x;
      var rest := SortedInts(s - {m});
      PrependLeast(m, s, rest);
      [m] + rest
  }

  lemma PrependLeast(m: int, s: set<int>, rest: seq<int>)
    requires m in s && forall x :: x in s ==> m <= x
    requires StrictlyIncreasing(rest) && |rest| == |s - {m}| && forall x :: x in rest <==> x in s - {m}
    ensures StrictlyIncreasing([m] + rest)
    ensures |[m] + rest| == |s|
    ensures forall x :: x in [m] + rest <==> x in s
  {
    forall i, j | 0 <= i < j < |[m] + rest| ensures ([m] + rest)[i] < ([m] + rest)[j] {
      assert ([m] + rest)[j] == rest[j - 1] && rest[j - 1] in rest;
      if i > 0 {
        assert ([m] + rest)[i] == rest[i - 1];
      }
    }
  }

  predicate SortedBy<T>(s: seq<T>, key: T -> real) {
    forall i, j :: 0 <= i < j < |s| ==> key(s[i]) <= key(s[j])
  }

  /** Puts `x` after every element whose key is not greater than its own. */
  function InsertBy<T>(r: seq<T>, x: T, key: T -> real): (r': seq<T>)
    requires SortedBy(r, key)
    ensures |r'| == |r| + 1
    ensures multiset(r') == multiset(r) + multiset{x}
    ensures SortedBy(r', key)
    ensures key(r'[|r'| - 1]) == if r == [] || key(r[|r| - 1]) <= key(x) then key(x) else key(r[|r| - 1])
  {
    if r == [] || key(r[|r| - 1]) <= key(x) then r + [x]
    else
      var init, last := r[..|r| - 1], r[|r| - 1];
      assert r == init + [last];
      var r'' := InsertBy(init, x, key);
      assert key(r''[|r''| - 1]) <= key(last);
      AppendSortedBy(r'', last, key);
      r'' + [last]
  }

  lemma AppendSortedBy<T>(r: seq<T>, x: T, key: T -> real)
    requires SortedBy(r, key) && (r == [] || key(r[|r| - 1]) <= key(x))
    ensures SortedBy(r + [x], key)
  {
    forall i, j | 0 <= i < j < |r| + 1 ensures key((r + [x])[i]) <= key((r + [x])[j]) {
      if j == |r| {
        assert key(r[i]) <= key(r[|r| - 1]);
      }
    }
  }

  /**
   * A stable sort ascending by `key`, as `Array.prototype.sort` is with a
   * comparator returning `key(a) - key(b)`.
   */
  function SortBy<T>(s: seq<T>, key: T -> real): (r: seq<T>)
    ensures SortedBy(r, key)
    ensures multiset(r) == multiset(s)
    ensures |r| == |s|
  {
    if s == [] then []
    else
      assert s == s[..|s| - 1] + [s[|s| - 1]];
      InsertBy(SortBy(s[..|s| - 1], key), s[|s| - 1], key)
  }
}
