/** Discounted cumulative gain and its normalisation in
    `tools/curator-embed/evaluate-m0c-freeze.py`, over the reals and for any discount that is
    positive and never grows (the source's is 1 / log2(index + 2)). */
module Ndcg {
  import opened Base
  import opened Sequences

  type Discount = nat -> real

  ghost predicate Fading(w: Discount) {
    (forall i: nat :: w(i) > 0.0) && forall i: nat, j: nat :: i <= j ==> w(j) <= w(i)
  }

  function Pow2(n: nat): nat {
    if n == 0 then 1 else 2 * Pow2(n - 1)
  }

  function Gain(grade: nat): real {
    (Pow2(grade) - 1) as real
  }

  /** The discount, switched off from the cut-off on. */
  function Cut(w: Discount, i: nat): real {
    if i < 10 then w(i) else 0.0
  }

  function Term(grade: nat, w: Discount, at: nat): real {
    Gain(grade) * Cut(w, at)
  }

  /** Sum of discounted gains, the first grade standing at position `at`. */
  function Dcg(grades: seq<nat>, w: Discount, at: nat): real {
    if grades == [] then 0.0 else Term(grades[0], w, at) + Dcg(grades[1..], w, at + 1)
  }

  /** `dcg` as written: the first ten grades only. */
  function Sum(grades: seq<nat>, w: Discount): real {
    if grades == [] then 0.0
    else Sum(grades[..|grades| - 1], w) + Gain(grades[|grades| - 1]) * w(|grades| - 1)
  }

  function DcgAt10(grades: seq<nat>, w: Discount): real {
    Sum(grades[..Min(10, |grades|)], w)
  }

  predicate Descending(s: seq<nat>) {
    forall i, j :: 0 <= i < j < |s| ==> s[i] >= s[j]
  }

  /** `sorted(grades, reverse=True)`. */
  function Sorted(s: seq<nat>): (r: seq<nat>)
    ensures multiset(r) == multiset(s)
  {
    if s == [] then []
    else
      assert s == [s[0]] + s[1..];
      Insert(s[0], Sorted(s[1..]))
  }

  function Insert(x: nat, s: seq<nat>): (r: seq<nat>)
    ensures multiset(r) == multiset(s) + multiset{x}
  {
    if s == [] || x >= s[0] then [x] + s
    else
      assert s == [s[0]] + s[1..];
      [s[0]] + Insert(x, s[1..])
  }

  lemma {:induction false} InsertKeepsOrder(x: nat, s: seq<nat>)
    requires Descending(s)
    ensures Descending(Insert(x, s))
  {
    if s != [] && x < s[0] {
      InsertKeepsOrder(x, s[1..]);
      var rest := Insert(x, s[1..]);
      forall i | 0 <= i < |rest| ensures rest[i] <= s[0] {
        assert rest[i] in multiset(rest);
        assert rest[i] == x || rest[i] in s[1..];
      }
    }
  }

  lemma {:induction false} SortedDescends(s: seq<nat>)
    ensures Descending(Sorted(s))
  {
    if s != [] {
      SortedDescends(s[1..]);
      InsertKeepsOrder(s[0], Sorted(s[1..]));
    }
  }

  lemma {:induction false} DescendingIsUnique(a: seq<nat>, b: seq<nat>)
    requires Descending(a) && Descending(b) && multiset(a) == multiset(b)
    ensures a == b
  {
    if a == [] {
      assert |multiset(b)| == 0;
    } else {
      HeadIsMax(a, b);
      HeadIsMax(b, a);
      TailOf(a);
      TailOf(b);
      DescendingIsUnique(a[1..], b[1..]);
      assert a == [a[0]] + a[1..] && b == [b[0]] + b[1..];
    }
  }

  lemma TailOf(s: seq<nat>)
    requires s != []
    ensures multiset(s[1..]) == multiset(s) - multiset{s[0]}
  {
    assert s == [s[0]] + s[1..];
  }

  lemma HeadIsMax(a: seq<nat>, b: seq<nat>)
    requires Descending(a) && multiset(a) == multiset(b) && a != []
    ensures b != [] && b[0] <= a[0]
  {
    assert |multiset(a)| == |multiset(b)|;
    assert b[0] in multiset(a);
    var j :| 0 <= j < |a| && a[j] == b[0];
  }

  function GradesOf(ids: seq<nat>, grades: map<nat, nat>): seq<nat>
    requires forall id :: id in ids ==> id in grades
  {
    seq(|ids|, i requires 0 <= i < |ids| => grades[ids[i]])
  }

  // ---------- the two ways of writing the sum agree ----------

  lemma {:induction false} DcgSnoc(grades: seq<nat>, x: nat, w: Discount, at: nat)
    ensures Dcg(grades + [x], w, at) == Dcg(grades, w, at) + Term(x, w, at + |grades|)
    decreases |grades|
  {
    if grades == [] {
      assert [x][1..] == [];
      assert grades + [x] == [x];
    } else {
      assert (grades + [x])[1..] == grades[1..] + [x];
      DcgSnoc(grades[1..], x, w, at + 1);
    }
  }

  lemma {:induction false} SumIsDcg(grades: seq<nat>, w: Discount)
    requires |grades| <= 10
    ensures Sum(grades, w) == Dcg(grades, w, 0)
  {
    if grades != [] {
      var front := grades[..|grades| - 1];
      SumIsDcg(front, w);
      DcgSnoc(front, grades[|grades| - 1], w, 0);
      assert grades == front + [grades[|grades| - 1]];
    }
  }

  lemma {:induction false} BeyondCutIsZero(grades: seq<nat>, w: Discount, at: nat)
    requires at >= 10
    ensures Dcg(grades, w, at) == 0.0
    decreases |grades|
  {
    if grades != [] {
      BeyondCutIsZero(grades[1..], w, at + 1);
    }
  }

  lemma {:induction false} CutAt10(grades: seq<nat>, w: Discount, at: nat)
    requires at <= 10
    ensures Dcg(grades, w, at) == Dcg(grades[..Min(10 - at, |grades|)], w, at)
    decreases |grades|
  {
    var k := Min(10 - at, |grades|);
    if at == 10 {
      BeyondCutIsZero(grades, w, at);
    } else if grades != [] {
      CutAt10(grades[1..], w, at + 1);
      assert grades[..k][1..] == grades[1..][..k - 1];
    }
  }

  lemma DcgAt10IsDcg(grades: seq<nat>, w: Discount)
    ensures DcgAt10(grades, w) == Dcg(grades, w, 0)
  {
    CutAt10(grades, w, 0);
    SumIsDcg(grades[..Min(10, |grades|)], w);
  }

  // ---------- rearrangement ----------

  lemma {:induction false} PowGrows(a: nat, b: nat)
    requires a <= b
    ensures 1 <= Pow2(a) <= Pow2(b)
    decreases b
  {
    if a < b {
      PowGrows(a, b - 1);
    } else if a > 0 {
      PowGrows(a - 1, b - 1);
    }
  }

  lemma {:induction false} DcgIsNonNegative(grades: seq<nat>, w: Discount, at: nat)
    requires Fading(w)
    ensures Dcg(grades, w, at) >= 0.0
    decreases |grades|
  {
    if grades != [] {
      PowGrows(0, grades[0]);
      Product(Gain(grades[0]), Cut(w, at));
      DcgIsNonNegative(grades[1..], w, at + 1);
    }
  }

  lemma DcgCons(x: nat, rest: seq<nat>, w: Discount, at: nat)
    ensures Dcg([x] + rest, w, at) == Term(x, w, at) + Dcg(rest, w, at + 1)
  {
    assert ([x] + rest)[1..] == rest;
  }

  /** `s` with its element `j` moved to the front. */
  function Moved(s: seq<nat>, j: nat): seq<nat>
    requires j < |s|
  {
    [s[j]] + Without(s, j)
  }

  function Without(s: seq<nat>, j: nat): seq<nat>
    requires j < |s|
  {
    s[..j] + s[j + 1..]
  }

  lemma {:induction false} MoveToFrontLoses(s: seq<nat>, j: nat, w: Discount, at: nat)
    requires Fading(w) && Descending(s) && j < |s|
    ensures Dcg(Moved(s, j), w, at) <= Dcg(s, w, at)
    decreases j
  {
    if j == 0 {
      assert Moved(s, j) == s;
    } else {
      var tail, x, y := s[1..], s[j], s[0];
      MoveToFrontLoses(tail, j - 1, w, at + 1);
      var rest := Without(tail, j - 1);
      assert Without(s, j) == [y] + rest && s == [y] + tail;
      hide Term, Dcg;
      DcgCons(x, [y] + rest, w, at);
      DcgCons(y, rest, w, at + 1);
      DcgCons(x, rest, w, at + 1);
      DcgCons(y, tail, w, at);
      SwapLoses(x, y, w, at);
    }
  }

  lemma SwapLoses(x: nat, y: nat, w: Discount, at: nat)
    requires Fading(w) && x <= y
    ensures Term(x, w, at) + Term(y, w, at + 1) <= Term(y, w, at) + Term(x, w, at + 1)
  {
    PowGrows(x, y);
    Exchange(Gain(x), Gain(y), Cut(w, at + 1), Cut(w, at));
  }

  lemma Exchange(x: real, y: real, low: real, high: real)
    requires x <= y && low <= high
    ensures x * high + y * low <= y * high + x * low
  {
    Product(y - x, high - low);
    assert (y - x) * (high - low) == y * high - y * low - x * high + x * low;
  }

  lemma Product(a: real, b: real)
    requires a >= 0.0 && b >= 0.0
    ensures a * b >= 0.0
  {
  }

  lemma WithoutOne(s: seq<nat>, j: nat)
    requires j < |s|
    ensures multiset(Without(s, j)) == multiset(s) - multiset{s[j]}
  {
    assert s == s[..j] + [s[j]] + s[j + 1..];
  }

  /** The rearrangement bound: no selection from a descending list beats the list itself. */
  lemma {:induction false} DescendingIsBest(xs: seq<nat>, ys: seq<nat>, w: Discount, at: nat)
    requires Fading(w) && Descending(ys) && multiset(xs) <= multiset(ys)
    ensures Dcg(xs, w, at) <= Dcg(ys, w, at)
    decreases |xs|
  {
    hide Term, Dcg;
    if xs == [] {
      EmptyDcg(w, at);
      DcgIsNonNegative(ys, w, at);
    } else {
      var x := xs[0];
      assert xs == [x] + xs[1..];
      assert x in multiset(ys);
      var j :| 0 <= j < |ys| && ys[j] == x;
      WithoutOne(ys, j);
      DescendingIsBest(xs[1..], Without(ys, j), w, at + 1);
      MoveToFrontLoses(ys, j, w, at);
      DcgCons(x, Without(ys, j), w, at);
      DcgCons(x, xs[1..], w, at);
    }
  }

  lemma EmptyDcg(w: Discount, at: nat)
    ensures Dcg([], w, at) == 0.0
  {
  }

  lemma {:induction false} GradesOfSelection(order: seq<nat>, selected: seq<nat>, grades: map<nat, nat>)
    requires forall id :: id in selected ==> id in grades
    requires NoDup(order) && forall id :: id in order ==> id in selected
    ensures multiset(GradesOf(order, grades)) <= multiset(GradesOf(selected, grades))
    decreases |order|
  {
    if order == [] {
      assert GradesOf(order, grades) == [];
    } else {
      var id := order[0];
      assert id in order && id in selected;
      var j :| 0 <= j < |selected| && selected[j] == id;
      var rest := selected[..j] + selected[j + 1..];
      forall other | other in order[1..] ensures other in rest {
        assert other != id && other in order && other in selected;
        var k :| 0 <= k < |selected| && selected[k] == other;
        assert if k < j then rest[k] == other else rest[k - 1] == other;
      }
      GradesOfSelection(order[1..], rest, grades);
      assert GradesOf(order, grades) == [grades[id]] + GradesOf(order[1..], grades);
      var front, back := GradesOf(selected[..j], grades), GradesOf(selected[j + 1..], grades);
      assert GradesOf(selected, grades) == front + [grades[id]] + back;
      assert GradesOf(rest, grades) == front + back;
    }
  }

  // ---------- the metric ----------

  datatype Metrics = Metrics(returned: nat, suitable: nat, ndcgSelected: Option<real>, ndcgFull: Option<real>)

  function Ideal(ids: seq<nat>, grades: map<nat, nat>, w: Discount): real
    requires forall id :: id in ids ==> id in grades
  {
    DcgAt10(Sorted(GradesOf(ids, grades)), w)
  }

  function Suitable(ids: seq<nat>, grades: map<nat, nat>): nat
    requires forall id :: id in ids ==> id in grades
  {
    if ids == [] then 0
    else Suitable(ids[..|ids| - 1], grades) + (if grades[ids[|ids| - 1]] >= 2 then 1 else 0)
  }

  /** `metrics`, before rounding. */
  function Measure(order: seq<nat>, grades: map<nat, nat>, selected: seq<nat>, full: seq<nat>, w: Discount): Metrics
    requires forall id :: id in order || id in selected || id in full ==> id in grades
  {
    var top := order[..Min(20, |order|)];
    var observed := DcgAt10(GradesOf(top, grades), w);
    var selectedIdeal := Ideal(selected, grades, w);
    var fullIdeal := Ideal(full, grades, w);
    Metrics(
      |top|, Suitable(top[..Min(10, |top|)], grades),
      if selectedIdeal != 0.0 then Some(observed / selectedIdeal) else None,
      if fullIdeal != 0.0 then Some(observed / fullIdeal) else None)
  }

  lemma ObservedBelowIdeal(order: seq<nat>, grades: map<nat, nat>, selected: seq<nat>, w: Discount)
    requires Fading(w) && NoDup(order)
    requires (forall id :: id in selected ==> id in grades) && forall id :: id in order ==> id in selected
    ensures 0.0 <= DcgAt10(GradesOf(order, grades), w) <= Ideal(selected, grades, w)
  {
    var xs, ys := GradesOf(order, grades), Sorted(GradesOf(selected, grades));
    GradesOfSelection(order, selected, grades);
    SortedDescends(GradesOf(selected, grades));
    DescendingIsBest(xs, ys, w, 0);
    DcgIsNonNegative(xs, w, 0);
    DcgAt10IsDcg(xs, w);
    DcgAt10IsDcg(ys, w);
  }

  lemma IdealGrows(selected: seq<nat>, full: seq<nat>, grades: map<nat, nat>, w: Discount)
    requires Fading(w) && NoDup(selected)
    requires (forall id :: id in full ==> id in grades) && forall id :: id in selected ==> id in full
    ensures 0.0 <= Ideal(selected, grades, w) <= Ideal(full, grades, w)
  {
    var xs, ys := Sorted(GradesOf(selected, grades)), Sorted(GradesOf(full, grades));
    GradesOfSelection(selected, full, grades);
    SortedDescends(GradesOf(full, grades));
    DescendingIsBest(xs, ys, w, 0);
    DcgIsNonNegative(xs, w, 0);
    DcgAt10IsDcg(xs, w);
    DcgAt10IsDcg(ys, w);
  }

  lemma Quotients(a: real, b: real, c: real)
    requires 0.0 <= a <= b <= c && b > 0.0
    ensures 0.0 <= a / c <= a / b <= 1.0
  {
    var p, q := a / c, a / b;
    assert p * c == a && q * b == a;
    if p > q {
      Product(c - b, q);
    }
    if q > 1.0 {
      assert (q - 1.0) * b > 0.0;
    }
  }

  /** nDCG is a true ratio: for every grading, every discount and every duplicate-free order drawn
      from the selection, 0 <= ndcg_full <= ndcg_selected <= 1. */
  lemma NdcgIsARatio(order: seq<nat>, grades: map<nat, nat>, selected: seq<nat>, full: seq<nat>, w: Discount)
    requires Fading(w) && NoDup(order) && NoDup(selected)
    requires (forall id :: id in full ==> id in grades)
    requires (forall id :: id in order ==> id in selected) && forall id :: id in selected ==> id in full
    ensures var m := Measure(order, grades, selected, full, w);
      && (m.ndcgSelected.Some? ==> m.ndcgFull.Some? && 0.0 <= m.ndcgFull.value <= m.ndcgSelected.value <= 1.0)
      && (m.ndcgSelected.None? && m.ndcgFull.Some? ==> m.ndcgFull.value == 0.0)
  {
    hide Ideal, DcgAt10, Suitable;
    var top := order[..Min(20, |order|)];
    ObservedBelowIdeal(top, grades, selected, w);
    IdealGrows(selected, full, grades, w);
    var observed := DcgAt10(GradesOf(top, grades), w);
    if Ideal(selected, grades, w) != 0.0 {
      Quotients(observed, Ideal(selected, grades, w), Ideal(full, grades, w));
    }
  }

  /** The ideal is reached: the selection itself, in an order of descending grades, scores 1. */
  lemma BestOrderScoresOne(order: seq<nat>, grades: map<nat, nat>, selected: seq<nat>, w: Discount)
    requires forall id :: id in order || id in selected ==> id in grades
    requires multiset(GradesOf(order, grades)) == multiset(GradesOf(selected, grades)) && |order| <= 20
    requires Descending(GradesOf(order, grades)) && Ideal(selected, grades, w) != 0.0
    ensures Measure(order, grades, selected, selected, w).ndcgSelected == Some(1.0)
  {
    SortedDescends(GradesOf(selected, grades));
    DescendingIsUnique(GradesOf(order, grades), Sorted(GradesOf(selected, grades)));
    assert order[..Min(20, |order|)] == order;
    var ideal := Ideal(selected, grades, w);
    assert DcgAt10(GradesOf(order, grades), w) == ideal;
    hide Ideal, DcgAt10, Suitable;
    assert ideal / ideal == 1.0;
  }
}
