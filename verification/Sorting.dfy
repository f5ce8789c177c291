/** A stable sort by a comparison, as `sort.SliceStable` and Python's `sort` perform it. */
module Sorting {
  import opened Sequences

  type Less<!T> = (T, T) -> bool

  /** An order with ties: what a sort key gives. */
  ghost predicate StrictWeak<T(!new)>(less: Less<T>) {
    && (forall a, b :: less(a, b) ==> !less(b, a))
    && (forall a, b, c :: less(a, c) ==> less(a, b) || less(b, c))
  }

  /** `x` goes behind everything it does not precede. */
  function InsertLast<T>(less: Less<T>, s: seq<T>, x: T): (r: seq<T>)
    ensures multiset(r) == multiset(s) + multiset{x}
  {
    if s == [] || !less(x, s[|s| - 1]) then s + [x]
    else
      assert s == s[..|s| - 1] + [s[|s| - 1]];
      InsertLast(less, s[..|s| - 1], x) + [s[|s| - 1]]
  }

  function StableSort<T>(less: Less<T>, s: seq<T>): (r: seq<T>)
    ensures multiset(r) == multiset(s)
  {
    if s == [] then []
    else
      assert s == s[..|s| - 1] + [s[|s| - 1]];
      InsertLast(less, StableSort(less, s[..|s| - 1]), s[|s| - 1])
  }

  /** Strings by their code points. */
  predicate CodeLess(a: string, b: string) {
    b != [] && (a == [] || a[0] < b[0] || (a[0] == b[0] && CodeLess(a[1..], b[1..])))
  }

  ghost predicate SortedBy<T>(less: Less<T>, s: seq<T>) {
    forall i, j :: 0 <= i < j < |s| ==> !less(s[j], s[i])
  }

  lemma {:induction false} InsertLastSorts<T(!new)>(less: Less<T>, s: seq<T>, x: T)
    requires StrictWeak(less) && SortedBy(less, s)
    ensures SortedBy(less, InsertLast(less, s, x))
  {
    var r := InsertLast(less, s, x);
    if s == [] || !less(x, s[|s| - 1]) {
      forall i | 0 <= i < |s| ensures !less(x, s[i]) {
        assert i < |s| - 1 ==> !less(s[|s| - 1], s[i]);
      }
    } else {
      var front, last := s[..|s| - 1], s[|s| - 1];
      InsertLastSorts(less, front, x);
      var inner := InsertLast(less, front, x);
      forall i | 0 <= i < |inner| ensures !less(last, inner[i]) {
        assert inner[i] in multiset(inner);
        if inner[i] != x {
          assert inner[i] in front;
        }
      }
    }
  }

  lemma {:induction false} StableSortSorts<T(!new)>(less: Less<T>, s: seq<T>)
    requires StrictWeak(less)
    ensures SortedBy(less, StableSort(less, s))
  {
    if s != [] {
      StableSortSorts(less, s[..|s| - 1]);
      InsertLastSorts(less, StableSort(less, s[..|s| - 1]), s[|s| - 1]);
    }
  }

  /** The elements of `s` that tie with `x`, in order. */
  function Ties<T>(less: Less<T>, s: seq<T>, x: T): seq<T> {
    if s == [] then []
    else
      var last := s[|s| - 1];
      Ties(less, s[..|s| - 1], x) + (if less(x, last) || less(last, x) then [] else [last])
  }

  lemma {:induction false} InsertLastIsStable<T(!new)>(less: Less<T>, s: seq<T>, x: T, y: T)
    requires StrictWeak(less)
    ensures Ties(less, InsertLast(less, s, x), y) == Ties(less, s + [x], y)
  {
    assert (s + [x])[..|s|] == s;
    if s != [] && less(x, s[|s| - 1]) {
      var front, last := s[..|s| - 1], s[|s| - 1];
      InsertLastIsStable(less, front, x, y);
      assert (front + [x])[..|front|] == front;
      assert InsertLast(less, s, x)[..|InsertLast(less, s, x)| - 1] == InsertLast(less, front, x);
    }
  }

  /** Stability: elements that tie keep their order. */
  lemma {:induction false} StableSortIsStable<T(!new)>(less: Less<T>, s: seq<T>, y: T)
    requires StrictWeak(less)
    ensures Ties(less, StableSort(less, s), y) == Ties(less, s, y)
  {
    if s != [] {
      var front := s[..|s| - 1];
      StableSortIsStable(less, front, y);
      var sorted := StableSort(less, front);
      InsertLastIsStable(less, sorted, s[|s| - 1], y);
      assert (sorted + [s[|s| - 1]])[..|sorted|] == sorted;
    }
  }

  lemma {:induction false} CodeLessAsymmetric(a: string, b: string)
    ensures !(CodeLess(a, b) && CodeLess(b, a))
  {
    if a != [] && b != [] {
      CodeLessAsymmetric(a[1..], b[1..]);
    }
  }

  lemma {:induction false} CodeLessSplits(a: string, b: string, c: string)
    requires CodeLess(a, c)
    ensures CodeLess(a, b) || CodeLess(b, c)
  {
    if a != [] && b != [] && a[0] == b[0] == c[0] {
      CodeLessSplits(a[1..], b[1..], c[1..]);
    }
  }

  lemma {:induction false} CodeLessTotal(a: string, b: string)
    ensures a == b || CodeLess(a, b) || CodeLess(b, a)
  {
    if a != [] && b != [] && a[0] == b[0] {
      CodeLessTotal(a[1..], b[1..]);
      assert a == [a[0]] + a[1..] && b == [b[0]] + b[1..];
    }
  }
}
