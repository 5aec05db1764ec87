/**
 * The array idioms the store and the pages are built from:
 * `Array.prototype.filter`, a `map` that rewrites only the elements a test
 * selects, the stable sort by an integer key, `reduce` sums over real and
 * integer fields, and `reverse`.
 */
module Seqs {

  /** `s.filter(keep)`: the elements `keep` accepts, in their original order. */
  function Filter<T(!new)>(s: seq<T>, keep: T -> bool): (r: seq<T>)
    ensures |r| <= |s|
    ensures forall x :: x in r <==> x in s && keep(x)
  {
    if s == [] then [] else (if keep(s[0]) then [s[0]] else []) + Filter(s[1..], keep)
  }

  /** `s.filter(keep).length`. */
  function Count<T(!new)>(s: seq<T>, keep: T -> bool): (n: nat)
    ensures n <= |s|
  {
    |Filter(s, keep)|
  }

  lemma ConcatAssociative<T>(a: seq<T>, b: seq<T>, c: seq<T>)
    ensures a + (b + c) == (a + b) + c
  {
  }

  /** Filtering a concatenation filters each part: the kept elements keep their relative order. */
  lemma {:induction false} FilterConcat<T(!new)>(a: seq<T>, b: seq<T>, keep: T -> bool)
    ensures Filter(a + b, keep) == Filter(a, keep) + Filter(b, keep)
  {
    if a == [] {
      assert a + b == b;
    } else {
      assert (a + b)[0] == a[0];
      assert (a + b)[1..] == a[1..] + b;
      FilterConcat(a[1..], b, keep);
    }
  }

  /** Putting the same element in front of two sequences keeps a relation between their filtered forms. */
  lemma FilterConsStep<T(!new)>(head: T, a: seq<T>, b: seq<T>, extra: seq<T>, keep: T -> bool)
    requires Filter(a, keep) == Filter(b, keep) + extra
    ensures Filter([head] + a, keep) == Filter([head] + b, keep) + extra
  {
    FilterConcat([head], a, keep);
    FilterConcat([head], b, keep);
    ConcatAssociative(Filter([head], keep), Filter(b, keep), extra);
  }

  /** Every occurrence of a kept value survives and every occurrence of a dropped one goes. */
  lemma {:induction false} FilterCounts<T(!new)>(s: seq<T>, keep: T -> bool, x: T)
    ensures multiset(Filter(s, keep))[x] == if keep(x) then multiset(s)[x] else 0
  {
    if s != [] {
      assert s == [s[0]] + s[1..];
      FilterCounts(s[1..], keep, x);
    }
  }

  /** A filter that keeps every element is the identity. */
  lemma {:induction false} FilterKeepsAll<T(!new)>(s: seq<T>, keep: T -> bool)
    requires forall x :: x in s ==> keep(x)
    ensures Filter(s, keep) == s
  {
    if s != [] {
      assert s == [s[0]] + s[1..];
      FilterKeepsAll(s[1..], keep);
    }
  }

  /** A filter that keeps no element yields the empty sequence. */
  lemma FilterDropsAll<T(!new)>(s: seq<T>, keep: T -> bool)
    requires forall x :: x in s ==> !keep(x)
    ensures Filter(s, keep) == []
  {
  }

  /** Filtering twice with the same test is filtering once. */
  lemma FilterIdempotent<T(!new)>(s: seq<T>, keep: T -> bool)
    ensures Filter(Filter(s, keep), keep) == Filter(s, keep)
  {
    FilterKeepsAll(Filter(s, keep), keep);
  }

  /**
   * `s.map(x => hit(x) ? change(x) : x)`: the same length and order, the
   * selected elements rewritten, every other element untouched.
   */
  function UpdateWhere<T(!new)>(s: seq<T>, hit: T -> bool, change: T -> T): (r: seq<T>)
    ensures |r| == |s|
    ensures forall i :: 0 <= i < |s| ==> r[i] == if hit(s[i]) then change(s[i]) else s[i]
  {
    if s == [] then [] else [if hit(s[0]) then change(s[0]) else s[0]] + UpdateWhere(s[1..], hit, change)
  }

  /** When the rewrite keeps the selection test's verdict, the unselected elements are exactly those of the input. */
  lemma {:induction false} UpdateWhereKeepsUnselected<T(!new)>(s: seq<T>, hit: T -> bool, miss: T -> bool, change: T -> T)
    requires forall x :: miss(x) == !hit(x)
    requires forall x :: hit(x) ==> hit(change(x))
    ensures Filter(UpdateWhere(s, hit, change), miss) == Filter(s, miss)
  {
    if s != [] {
      var r := UpdateWhere(s, hit, change);
      assert r == [r[0]] + r[1..];
      assert r[1..] == UpdateWhere(s[1..], hit, change);
      UpdateWhereKeepsUnselected(s[1..], hit, miss, change);
    }
  }

  // ------------------------------------------------------ stable sorting

  predicate SortedBy<T>(s: seq<T>, key: T -> int)
  {
    forall i, j :: 0 <= i < j < |s| ==> key(s[i]) <= key(s[j])
  }

  function KeyIs<T>(key: T -> int, k: int): T -> bool { (x: T) => key(x) == k }

  /** An element keyed no higher than every element of a sorted sequence can lead it. */
  lemma SortedCons<T>(x: T, s: seq<T>, key: T -> int)
    requires SortedBy(s, key)
    requires forall y :: y in s ==> key(x) <= key(y)
    ensures SortedBy([x] + s, key)
  {
    var t := [x] + s;
    forall i, j | 0 <= i < j < |t| ensures key(t[i]) <= key(t[j]) {
      if i == 0 {
        assert t[j] == s[j - 1];
        assert s[j - 1] in s;
      } else {
        assert t[i] == s[i - 1] && t[j] == s[j - 1];
      }
    }
  }

  /** The tail of a sorted sequence is sorted, and its head is keyed no higher than any of it. */
  lemma SortedTail<T>(s: seq<T>, key: T -> int)
    requires SortedBy(s, key) && s != []
    ensures SortedBy(s[1..], key)
    ensures forall y :: y in s[1..] ==> key(s[0]) <= key(y)
  {
    forall y | y in s[1..] ensures key(s[0]) <= key(y) {
      var i :| 0 <= i < |s[1..]| && s[1..][i] == y;
      assert s[i + 1] == y;
    }
  }

  /** Inserts `x` after every element keyed no higher than it. */
  function InsertBy<T>(s: seq<T>, x: T, key: T -> int): (r: seq<T>)
    ensures multiset(r) == multiset(s) + multiset{x}
  {
    if s == [] then [x]
    else if key(x) < key(s[0]) then [x] + s
    else
      assert s == [s[0]] + s[1..];
      [s[0]] + InsertBy(s[1..], x, key)
  }

  lemma {:induction false} InsertKeepsSorted<T>(s: seq<T>, x: T, key: T -> int)
    requires SortedBy(s, key)
    ensures SortedBy(InsertBy(s, x, key), key)
  {
    if s == [] {
    } else if key(x) < key(s[0]) {
      SortedTail(s, key);
      SortedCons(x, s, key);
    } else {
      SortedTail(s, key);
      InsertKeepsSorted(s[1..], x, key);
      var rest := InsertBy(s[1..], x, key);
      forall y | y in rest ensures key(s[0]) <= key(y) {
        assert y in multiset(rest);
        if y != x {
          assert y in multiset(s[1..]);
        }
      }
      SortedCons(s[0], rest, key);
    }
  }

  /**
   * A stable insertion sort, processing the elements in order as
   * `Array.prototype.sort` with a key comparator does: sorted by key, with
   * the same elements as the input.
   */
  function SortBy<T>(s: seq<T>, key: T -> int): (r: seq<T>)
    ensures SortedBy(r, key)
    ensures multiset(r) == multiset(s)
  {
    if s == [] then []
    else
      assert s == s[..|s| - 1] + [s[|s| - 1]];
      var sorted := SortBy(s[..|s| - 1], key);
      InsertKeepsSorted(sorted, s[|s| - 1], key);
      InsertBy(sorted, s[|s| - 1], key)
  }

  lemma {:induction false} InsertIsStable<T(!new)>(s: seq<T>, x: T, key: T -> int, k: int)
    requires SortedBy(s, key)
    ensures Filter(InsertBy(s, x, key), KeyIs(key, k)) == Filter(s, KeyIs(key, k)) + Filter([x], KeyIs(key, k))
  {
    if s == [] {
      assert [x] == [] + [x];
    } else if key(x) < key(s[0]) {
      InsertFrontIsStable(s, x, key, k);
    } else {
      SortedTail(s, key);
      InsertIsStable(s[1..], x, key, k);
      InsertBehindIsStable(s, x, key, k);
    }
  }

  lemma InsertFrontIsStable<T(!new)>(s: seq<T>, x: T, key: T -> int, k: int)
    requires SortedBy(s, key) && s != [] && key(x) < key(s[0])
    ensures Filter(InsertBy(s, x, key), KeyIs(key, k)) == Filter(s, KeyIs(key, k)) + Filter([x], KeyIs(key, k))
  {
  }

  lemma InsertBehindIsStable<T(!new)>(s: seq<T>, x: T, key: T -> int, k: int)
    requires s != [] && key(s[0]) <= key(x)
    requires Filter(InsertBy(s[1..], x, key), KeyIs(key, k)) == Filter(s[1..], KeyIs(key, k)) + Filter([x], KeyIs(key, k))
    ensures Filter(InsertBy(s, x, key), KeyIs(key, k)) == Filter(s, KeyIs(key, k)) + Filter([x], KeyIs(key, k))
  {
    assert s == [s[0]] + s[1..];
    FilterConsStep(s[0], InsertBy(s[1..], x, key), s[1..], Filter([x], KeyIs(key, k)), KeyIs(key, k));
  }

  /** The sort is stable: elements with equal keys keep their relative order. */
  lemma {:induction false} SortIsStable<T(!new)>(s: seq<T>, key: T -> int, k: int)
    ensures Filter(SortBy(s, key), KeyIs(key, k)) == Filter(s, KeyIs(key, k))
  {
    if s != [] {
      var init, last := s[..|s| - 1], s[|s| - 1];
      assert s == init + [last];
      SortIsStable(init, key, k);
      InsertIsStable(SortBy(init, key), last, key, k);
      FilterConcat(init, [last], KeyIs(key, k));
    }
  }

  lemma {:induction false} InsertLast<T>(s: seq<T>, x: T, key: T -> int)
    requires forall y :: y in s ==> key(y) <= key(x)
    ensures InsertBy(s, x, key) == s + [x]
  {
    if s != [] {
      assert s[0] in s;
      InsertLast(s[1..], x, key);
    }
  }

  /** Sorting an already sorted sequence changes nothing. */
  lemma {:induction false} SortOfSorted<T>(s: seq<T>, key: T -> int)
    requires SortedBy(s, key)
    ensures SortBy(s, key) == s
  {
    if s != [] {
      var init, last := s[..|s| - 1], s[|s| - 1];
      assert s == init + [last];
      assert SortedBy(init, key) by {
        forall i, j | 0 <= i < j < |init| ensures key(init[i]) <= key(init[j]) {
          assert init[i] == s[i] && init[j] == s[j];
        }
      }
      SortOfSorted(init, key);
      forall y | y in init ensures key(y) <= key(last) {
        var i :| 0 <= i < |init| && init[i] == y;
        assert s[i] == y;
      }
      InsertLast(init, last, key);
    }
  }

  /** Appending to a sorted sequence and sorting is inserting. */
  lemma SortedAppendIsInsert<T>(s: seq<T>, x: T, key: T -> int)
    requires SortedBy(s, key)
    ensures SortBy(s + [x], key) == InsertBy(s, x, key)
  {
    assert (s + [x])[..|s + [x]| - 1] == s;
    SortOfSorted(s, key);
  }

  /** Filtering keeps a sorted sequence sorted. */
  lemma {:induction false} FilterKeepsSorted<T(!new)>(s: seq<T>, key: T -> int, keep: T -> bool)
    requires SortedBy(s, key)
    ensures SortedBy(Filter(s, keep), key)
  {
    if s != [] {
      SortedTail(s, key);
      FilterKeepsSorted(s[1..], key, keep);
      if keep(s[0]) {
        SortedCons(s[0], Filter(s[1..], keep), key);
      }
    }
  }

  /** Three elements appended one at a time, each followed by a sort, in key order `y, x, z`. */
  lemma InsertThreeInOrder<T>(x: T, y: T, z: T, key: T -> int)
    requires key(y) < key(x) < key(z)
    ensures SortBy(SortBy(SortBy([] + [x], key) + [y], key) + [z], key) == [y, x, z]
  {
    SortOne(x, key);
    SortTwo(x, y, key);
    SortThree(y, x, z, key);
  }

  lemma SortOne<T>(x: T, key: T -> int)
    ensures SortBy([] + [x], key) == [x]
  {
  }

  lemma SortTwo<T>(x: T, y: T, key: T -> int)
    requires key(y) < key(x)
    ensures SortBy([x] + [y], key) == [y, x]
  {
  }

  lemma SortThree<T>(y: T, x: T, z: T, key: T -> int)
    requires key(y) < key(x) < key(z)
    ensures SortBy([y, x] + [z], key) == [y, x, z]
  {
    SortTwoInOrder(y, x, key);
    InsertAfterTwo(y, x, z, key);
    SortStep([y, x] + [z], key);
    assert ([y, x] + [z])[..2] == [y, x];
  }

  /** One step of the sort: the last element is inserted into the sorted rest. */
  lemma SortStep<T>(s: seq<T>, key: T -> int)
    requires s != []
    ensures SortBy(s, key) == InsertBy(SortBy(s[..|s| - 1], key), s[|s| - 1], key)
  {
  }

  lemma SortTwoInOrder<T>(y: T, x: T, key: T -> int)
    requires key(y) < key(x)
    ensures SortBy([y, x], key) == [y, x]
  {
  }

  lemma InsertAfterTwo<T>(y: T, x: T, z: T, key: T -> int)
    requires key(y) <= key(z) && key(x) <= key(z)
    ensures InsertBy([y, x], z, key) == [y, x, z]
  {
    assert [y, x][1..] == [x];
    assert InsertBy([x], z, key) == [x] + InsertBy([], z, key);
  }

  // ------------------------------------------------------------- folds

  /**
   * `s.reduce((acc, x) => acc + f(x), 0)`. On exact numbers the order in
   * which the terms are added does not matter, so the fold is written from
   * the front.
   */
  function SumReal<T>(s: seq<T>, f: T -> real): real
  {
    if s == [] then 0.0 else f(s[0]) + SumReal(s[1..], f)
  }

  function SumInt<T>(s: seq<T>, f: T -> int): int
  {
    if s == [] then 0 else f(s[0]) + SumInt(s[1..], f)
  }

  /** A total over a concatenation is the sum of the parts' totals. */
  lemma {:induction false} SumRealConcat<T>(a: seq<T>, b: seq<T>, f: T -> real)
    ensures SumReal(a + b, f) == SumReal(a, f) + SumReal(b, f)
  {
    if a == [] {
      assert a + b == b;
    } else {
      assert (a + b)[1..] == a[1..] + b;
      SumRealConcat(a[1..], b, f);
    }
  }

  /** Summing from the front gives what a left-to-right running total gives: the sum of all but the last, plus the last. */
  lemma LastOfSumReal<T>(s: seq<T>, f: T -> real)
    ensures s != [] ==> SumReal(s, f) == SumReal(s[..|s| - 1], f) + f(s[|s| - 1])
  {
    if s != [] {
      var init, last := s[..|s| - 1], s[|s| - 1];
      assert s == init + [last];
      SumRealConcat(init, [last], f);
      assert [last][1..] == [];
    }
  }

  lemma LastOfSumInt<T>(s: seq<T>, f: T -> int)
    ensures s != [] ==> SumInt(s, f) == SumInt(s[..|s| - 1], f) + f(s[|s| - 1])
  {
    if s != [] {
      var init, last := s[..|s| - 1], s[|s| - 1];
      assert s == init + [last];
      SumIntConcat(init, [last], f);
      assert [last][1..] == [];
    }
  }

  lemma {:induction false} SumIntConcat<T>(a: seq<T>, b: seq<T>, f: T -> int)
    ensures SumInt(a + b, f) == SumInt(a, f) + SumInt(b, f)
  {
    if a == [] {
      assert a + b == b;
    } else {
      assert (a + b)[1..] == a[1..] + b;
      SumIntConcat(a[1..], b, f);
    }
  }

  /** Inserting an element adds exactly its term to a total. */
  lemma {:induction false} SumIntInsert<T>(s: seq<T>, x: T, key: T -> int, f: T -> int)
    ensures SumInt(InsertBy(s, x, key), f) == SumInt(s, f) + f(x)
  {
    if s != [] && key(x) >= key(s[0]) {
      SumIntInsert(s[1..], x, key, f);
    }
  }

  /** Sorting does not change a total. */
  lemma {:induction false} SumIntSort<T>(s: seq<T>, key: T -> int, f: T -> int)
    ensures SumInt(SortBy(s, key), f) == SumInt(s, f)
  {
    if s != [] {
      var init, last := s[..|s| - 1], s[|s| - 1];
      assert s == init + [last];
      SumIntSort(init, key, f);
      SumIntInsert(SortBy(init, key), last, key, f);
      SumIntConcat(init, [last], f);
    }
  }

  /** A rewrite that keeps every element's term keeps the total. */
  lemma {:induction false} SumRealUpdateWhere<T(!new)>(s: seq<T>, hit: T -> bool, change: T -> T, f: T -> real)
    requires forall x :: f(change(x)) == f(x)
    ensures SumReal(UpdateWhere(s, hit, change), f) == SumReal(s, f)
  {
    if s != [] {
      var r := UpdateWhere(s, hit, change);
      assert r[1..] == UpdateWhere(s[1..], hit, change);
      SumRealUpdateWhere(s[1..], hit, change, f);
    }
  }

  // ---------------------------------------------------------- reversal

  /** `s.slice().reverse()`: a reversed copy, the input untouched. */
  function Reverse<T>(s: seq<T>): (r: seq<T>)
    ensures |r| == |s|
    ensures forall i :: 0 <= i < |s| ==> r[i] == s[|s| - 1 - i]
  {
    if s == [] then [] else Reverse(s[1..]) + [s[0]]
  }

  /** A sequence sorted ascending reads descending when reversed. */
  lemma ReverseOfSorted<T>(s: seq<T>, key: T -> int)
    requires SortedBy(s, key)
    ensures forall i, j :: 0 <= i < j < |s| ==> key(Reverse(s)[i]) >= key(Reverse(s)[j])
  {
  }
}
