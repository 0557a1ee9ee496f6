/** Draw order: the comparator the forms sort their members with, and the
    stable sort that lays them out. */
module DrawOrder {
  import opened Meta

  /** UIOrderComparator.compare on the draw orders of two members: an
      annotated member comes before an unannotated one, two unannotated
      members tie, annotated members ascend by value. */
  function CompareOrders(a: Option<int>, b: Option<int>): (r: int)
    ensures -1 <= r <= 1
    ensures r == 0 <==> a == b
  {
    if a.None? && b.Some? then 1
    else if a.Some? && b.None? then -1
    else if a.None? && b.None? then 0
    else if a.value > b.value then 1
    else if a.value < b.value then -1
    else 0
  }

  /** Presence beats absence, whatever the value and its sign. */
  lemma AnnotatedFirst(v: int)
    ensures CompareOrders(Some(v), None) < 0
    ensures CompareOrders(None, Some(v)) > 0
  {
  }

  /** Among annotated members the order is ascending by value. */
  lemma AnnotatedAscending(v: int, w: int)
    ensures CompareOrders(Some(v), Some(w)) < 0 <==> v < w
    ensures CompareOrders(Some(v), Some(w)) == 0 <==> v == w
  {
  }

  /** The comparator satisfies Java's Comparator contract, so it is a strict
      weak order: sgn(compare(a, b)) == -sgn(compare(b, a)), it is
      transitive, and members that compare equal compare alike with any third. */
  lemma ComparatorContract(a: Option<int>, b: Option<int>, c: Option<int>)
    ensures CompareOrders(a, b) == -CompareOrders(b, a)
    ensures CompareOrders(a, b) > 0 && CompareOrders(b, c) > 0 ==> CompareOrders(a, c) > 0
    ensures CompareOrders(a, b) <= 0 && CompareOrders(b, c) <= 0 ==> CompareOrders(a, c) <= 0
    ensures CompareOrders(a, b) == 0 ==> CompareOrders(a, c) == CompareOrders(b, c)
  {
  }

  predicate SortedBy<T>(s: seq<T>, key: T -> Option<int>) {
    forall i, j :: 0 <= i < j < |s| ==> CompareOrders(key(s[i]), key(s[j])) <= 0
  }

  /** The members of s whose draw order is k, in their order in s. */
  function Filter<T>(s: seq<T>, key: T -> Option<int>, k: Option<int>): seq<T> {
    if s == [] then [] else (if key(s[0]) == k then [s[0]] else []) + Filter(s[1..], key, k)
  }

  /** Puts x in front of the first member it does not sort after, so that
      x, which came first in declaration order, precedes the members it ties with. */
  function Insert<T>(x: T, s: seq<T>, key: T -> Option<int>): seq<T> {
    if s == [] then [x]
    else if CompareOrders(key(x), key(s[0])) <= 0 then [x] + s
    else [s[0]] + Insert(x, s[1..], key)
  }

  /** Stream.sorted with UIOrderComparator: a stable sort by draw order. */
  function SortByDrawOrder<T>(s: seq<T>, key: T -> Option<int>): seq<T> {
    if s == [] then [] else Insert(s[0], SortByDrawOrder(s[1..], key), key)
  }

  lemma {:induction false} InsertPermutes<T>(x: T, s: seq<T>, key: T -> Option<int>)
    ensures multiset(Insert(x, s, key)) == multiset(s) + multiset{x}
  {
    if s != [] && CompareOrders(key(x), key(s[0])) > 0 {
      InsertPermutes(x, s[1..], key);
      assert s == [s[0]] + s[1..];
    }
  }

  lemma {:induction false} InsertSorted<T>(x: T, s: seq<T>, key: T -> Option<int>)
    requires SortedBy(s, key)
    ensures SortedBy(Insert(x, s, key), key)
  {
    if s != [] {
      if CompareOrders(key(x), key(s[0])) <= 0 {
        forall j | 0 < j < |s| + 1 ensures CompareOrders(key(x), key(([x] + s)[j])) <= 0 {
          ComparatorContract(key(x), key(s[0]), key(s[j - 1]));
        }
      } else {
        var t := s[1..];
        InsertSorted(x, t, key);
        InsertPermutes(x, t, key);
        var r := Insert(x, t, key);
        forall j | 0 <= j < |r| ensures CompareOrders(key(s[0]), key(r[j])) <= 0 {
          assert r[j] in multiset(r);
          if r[j] == x {
            ComparatorContract(key(x), key(s[0]), key(x));
          } else {
            assert r[j] in multiset(t);
            var m :| 0 <= m < |t| && t[m] == r[j];
            assert s[m + 1] == r[j];
          }
        }
      }
    }
  }

  /** Inserting x only adds x to the members tied with it. */
  lemma {:induction false} InsertFilter<T>(x: T, s: seq<T>, key: T -> Option<int>, k: Option<int>)
    ensures Filter(Insert(x, s, key), key, k) == (if key(x) == k then [x] else []) + Filter(s, key, k)
  {
    var hx := if key(x) == k then [x] else [];
    if s == [] {
      assert Filter([x], key, k) == hx + Filter([], key, k);
    } else if CompareOrders(key(x), key(s[0])) <= 0 {
      var r := [x] + s;
      assert r[0] == x && r[1..] == s;
      assert Filter(r, key, k) == hx + Filter(s, key, k);
    } else {
      var t := s[1..];
      var i := Insert(x, t, key);
      var r := [s[0]] + i;
      assert r[0] == s[0] && r[1..] == i;
      var h0 := if key(s[0]) == k then [s[0]] else [];
      InsertFilter(x, t, key, k);
      assert Filter(r, key, k) == h0 + (hx + Filter(t, key, k));
      assert key(x) != key(s[0]);
      assert h0 == [] || hx == [];
      assert h0 + (hx + Filter(t, key, k)) == hx + (h0 + Filter(t, key, k));
      assert Filter(s, key, k) == h0 + Filter(t, key, k);
    }
  }

  /** The sorted list is a permutation of the declared members. */
  lemma {:induction false} SortPermutes<T>(s: seq<T>, key: T -> Option<int>)
    ensures multiset(SortByDrawOrder(s, key)) == multiset(s)
  {
    if s != [] {
      SortPermutes(s[1..], key);
      InsertPermutes(s[0], SortByDrawOrder(s[1..], key), key);
      assert s == [s[0]] + s[1..];
    }
  }

  /** The sorted list is ordered by the comparator. */
  lemma {:induction false} SortSorts<T>(s: seq<T>, key: T -> Option<int>)
    ensures SortedBy(SortByDrawOrder(s, key), key)
  {
    if s != [] {
      SortSorts(s[1..], key);
      InsertSorted(s[0], SortByDrawOrder(s[1..], key), key);
    }
  }

  /** The sort is stable: members with the same draw order, and in particular
      all unannotated members, keep their declaration order. */
  lemma {:induction false} SortStable<T>(s: seq<T>, key: T -> Option<int>, k: Option<int>)
    ensures Filter(SortByDrawOrder(s, key), key, k) == Filter(s, key, k)
  {
    if s != [] {
      SortStable(s[1..], key, k);
      InsertFilter(s[0], SortByDrawOrder(s[1..], key), key, k);
    }
  }

  lemma {:induction false} FilterNonEmpty<T>(s: seq<T>, key: T -> Option<int>, k: Option<int>)
    requires Filter(s, key, k) != []
    ensures exists j :: 0 <= j < |s| && key(s[j]) == k
  {
    if key(s[0]) != k {
      FilterNonEmpty(s[1..], key, k);
      var j :| 0 <= j < |s[1..]| && key(s[1..][j]) == k;
      assert key(s[j + 1]) == k;
    }
  }

  /** The first member of a sorted sequence belongs to the least draw-order
      class present, so two sorted sequences with the same classes start in
      the same class. */
  lemma HeadsInSameClass<T>(r1: seq<T>, r2: seq<T>, key: T -> Option<int>)
    requires r1 != [] && r2 != []
    requires SortedBy(r1, key) && SortedBy(r2, key)
    requires Filter(r1, key, key(r1[0])) == Filter(r2, key, key(r1[0]))
    requires Filter(r1, key, key(r2[0])) == Filter(r2, key, key(r2[0]))
    ensures key(r1[0]) == key(r2[0])
  {
    var k1, k2 := key(r1[0]), key(r2[0]);
    assert Filter(r1, key, k1) != [];
    FilterNonEmpty(r2, key, k1);
    var j2 :| 0 <= j2 < |r2| && key(r2[j2]) == k1;
    assert CompareOrders(k2, k1) <= 0;
    assert Filter(r2, key, k2) != [];
    FilterNonEmpty(r1, key, k2);
    var j1 :| 0 <= j1 < |r1| && key(r1[j1]) == k2;
    assert CompareOrders(k1, k2) <= 0;
    ComparatorContract(k1, k2, k1);
  }

  lemma FilterOwnClass<T>(s: seq<T>, key: T -> Option<int>)
    requires s != []
    ensures Filter(s, key, key(s[0])) != []
  {
  }

  lemma TailFilter<T>(r: seq<T>, key: T -> Option<int>, k: Option<int>)
    requires r != []
    ensures Filter(r[1..], key, k) == if key(r[0]) == k then Filter(r, key, k)[1..] else Filter(r, key, k)
  {
  }

  /** Two sorted sequences with the same members in each draw-order class
      are equal. */
  lemma {:induction false} SortedUnique<T>(r1: seq<T>, r2: seq<T>, key: T -> Option<int>)
    requires SortedBy(r1, key) && SortedBy(r2, key)
    requires forall k :: Filter(r1, key, k) == Filter(r2, key, k)
    ensures r1 == r2
  {
    if r1 == [] || r2 == [] {
      if r1 != [] { FilterOwnClass(r1, key); }
      if r2 != [] { FilterOwnClass(r2, key); }
    } else {
      var k1 := key(r1[0]);
      HeadsInSameClass(r1, r2, key);
      assert r1[0] == Filter(r1, key, k1)[0];
      assert r2[0] == Filter(r2, key, k1)[0];
      forall k ensures Filter(r1[1..], key, k) == Filter(r2[1..], key, k) {
        TailFilter(r1, key, k);
        TailFilter(r2, key, k);
      }
      SortedUnique(r1[1..], r2[1..], key);
      assert r1 == [r1[0]] + r1[1..] && r2 == [r2[0]] + r2[1..];
    }
  }

  /** Any stable sort by this comparator gives exactly SortByDrawOrder: a
      sequence sorted by draw order whose draw-order classes list the same
      members in the same order as s is SortByDrawOrder(s). */
  lemma StableSortIsUnique<T>(s: seq<T>, r: seq<T>, key: T -> Option<int>)
    requires SortedBy(r, key)
    requires forall k :: Filter(r, key, k) == Filter(s, key, k)
    ensures r == SortByDrawOrder(s, key)
  {
    SortSorts(s, key);
    forall k ensures Filter(r, key, k) == Filter(SortByDrawOrder(s, key), key, k) {
      SortStable(s, key, k);
    }
    SortedUnique(r, SortByDrawOrder(s, key), key);
  }
}
