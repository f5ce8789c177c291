/** How `tools/curator-embed/evaluate-m0c-freeze.py` builds the lists it scores: the pool of a
    seed, the admitted part of a selection, and its ranking by some sort key. */
module Evaluation {
  import opened Base
  import opened Sequences
  import opened Sorting
  import opened Candidates
  import opened Ndcg

  function Where(ids: seq<Id>, keep: Id -> bool): seq<Id> {
    if ids == [] then []
    else
      var last := ids[|ids| - 1];
      Where(ids[..|ids| - 1], keep) + (if keep(last) then [last] else [])
  }

  lemma {:induction false} WhereMembers(ids: seq<Id>, keep: Id -> bool)
    ensures forall id :: id in Where(ids, keep) <==> id in ids && keep(id)
    ensures NoDup(ids) ==> NoDup(Where(ids, keep))
  {
    if ids != [] {
      WhereMembers(ids[..|ids| - 1], keep);
      assert ids == ids[..|ids| - 1] + [ids[|ids| - 1]];
    }
  }

  lemma {:induction false} WhereLength(ids: seq<Id>, seed: Id)
    requires NoDup(ids)
    ensures |Where(ids, id => id != seed)| == if seed in ids then |ids| - 1 else |ids|
  {
    if ids != [] {
      var front, last := ids[..|ids| - 1], ids[|ids| - 1];
      WhereLength(front, seed);
      assert ids == front + [last];
      assert last !in front;
    }
  }

  // ---------- the pool of a seed ----------

  function OthersOf(seed: Id, pages: seq<seq<Id>>): seq<Id>
    requires |pages| >= 3
  {
    Where(Unique(Filled([], pages[..2], 60) + pages[2]), id => id != seed)
  }

  /** `seed_pool`; with fewer than three pages it raises. */
  method SeedPool(seed: Id, pages: seq<seq<Id>>) returns (pool: Option<seq<Id>>)
    ensures pool == if |pages| < 3 then None else Some(PoolOf(seed, pages))
  {
    hide Filled, Unique, Where;
    if |pages| < 3 {
      return None;
    }
    var first := InterleavePages(pages[..2]);
    var others := Where(Unique(first.value + pages[2]), id => id != seed);
    pool := Some(others[..Min(60, |others|)]);
  }

  predicate OnPages(pages: seq<seq<Id>>, id: Id)
    requires |pages| >= 3
  {
    id in pages[0] || id in pages[1] || id in pages[2]
  }

  function PoolOf(seed: Id, pages: seq<seq<Id>>): seq<Id>
    requires |pages| >= 3
  {
    OthersOf(seed, pages)[..Min(60, |OthersOf(seed, pages)|)]
  }

  /** Some id of the pages is missing although the pool has room for it. */
  ghost predicate Loses(seed: Id, pages: seq<seq<Id>>)
    requires |pages| >= 3
  {
    |PoolOf(seed, pages)| < 60 && exists id :: id != seed && OnPages(pages, id) && id !in PoolOf(seed, pages)
  }

  /** The first two pages overflow their 60 places, the seed takes one of these, and the third page
      has nothing to put in its place. */
  predicate SeedTakesAPlace(seed: Id, pages: seq<seq<Id>>)
    requires |pages| >= 3
  {
    var first := Filled([], pages[..2], 60);
    |Merged([], pages[..2])| > 60 && seed in first && forall id :: id in pages[2] ==> id in first
  }

  /** The pool never holds the seed, nothing twice and nothing from elsewhere. */
  lemma SeedPoolHolds(seed: Id, pages: seq<seq<Id>>)
    requires |pages| >= 3
    ensures var pool := PoolOf(seed, pages);
      NoDup(pool) && |pool| <= 60 && forall id :: id in pool ==> id != seed && OnPages(pages, id)
  {
    hide Filled, Unique, Where, Merged, NoDup;
    AllOthers(seed, pages);
    SliceOf(OthersOf(seed, pages), Min(60, |OthersOf(seed, pages)|));
    FirstPages(pages);
  }

  /** It leaves room unused exactly in one situation. */
  lemma SeedPoolLosesIff(seed: Id, pages: seq<seq<Id>>)
    requires |pages| >= 3
    ensures Loses(seed, pages) <==> SeedTakesAPlace(seed, pages)
  {
    hide Filled, Unique, Where, Merged, NoDup, OthersOf;
    var all := OthersOf(seed, pages);
    AllOthers(seed, pages);
    FirstPages(pages);
    SliceOf(all, Min(60, |all|));
    if SeedTakesAPlace(seed, pages) {
      var id := FirstCut(pages);
      assert id != seed && OnPages(pages, id) && id !in PoolOf(seed, pages);
    }
  }

  /** With at most 60 rows on the first two pages nothing is lost. */
  lemma SmallPagesLoseNothing(seed: Id, pages: seq<seq<Id>>)
    requires |pages| >= 3 && |pages[0]| + |pages[1]| <= 60
    ensures !Loses(seed, pages)
  {
    hide Filled, NoDup;
    SeedPoolLosesIff(seed, pages);
    MergedIsShort(pages[0], pages[1]);
    assert pages[..2] == [pages[0], pages[1]];
  }

  /** 61 rows with the seed among the first 60 lose the last one. */
  lemma LossIsPossible()
    ensures exists pages: seq<seq<Id>>, seed: Id :: |pages| >= 3 && Loses(seed, pages)
  {
    var rows := seq(61, i => i);
    var pages: seq<seq<Id>> := [rows, [], []];
    hide Filled, Loses;
    OnePageMerges(rows);
    assert pages[..2] == [rows, []];
    assert Filled([], pages[..2], 60) == rows[..60] by {
      CutAt60(pages[..2], rows);
    }
    assert rows[..60][0] == 0;
    SeedPoolLosesIff(0, pages);
  }

  lemma CutAt60(lanes: seq<seq<Id>>, rows: seq<Id>)
    requires Merged([], lanes) == rows && |rows| > 60
    ensures Filled([], lanes, 60) == rows[..60]
  {
    hide Merged;
  }

  lemma OnePageMerges(rows: seq<Id>)
    requires NoDup(rows)
    ensures Merged([], [rows, []]) == rows
  {
    hide Unique;
    var lanes := [rows, []];
    assert Longest(lanes) == |rows| by {
      assert lanes[..1] == [rows] && [rows][..0] == [];
      assert Longest([rows]) == |rows|;
    }
    OnePageTurns(rows, |rows|);
    assert rows[..|rows|] == rows && [] + rows == rows;
    UniqueKeepsDistinct(rows);
  }

  lemma {:induction false} OnePageTurns(rows: seq<Id>, count: nat)
    requires count <= |rows|
    ensures Turns([rows, []], count) == rows[..count]
  {
    if count > 0 {
      OnePageTurns(rows, count - 1);
      OnePageRow(rows, count - 1);
    }
  }

  lemma OnePageRow(rows: seq<Id>, index: nat)
    requires index < |rows|
    ensures Row([rows, []], index) == [rows[index]]
  {
    var lanes := [rows, []];
    assert lanes[..1] == [rows] && [rows][..0] == [];
    assert Row([rows], index) == [rows[index]];
  }

  lemma MergedIsShort(a: seq<Id>, b: seq<Id>)
    ensures |Merged([], [a, b])| <= |a| + |b|
  {
    hide Merged;
    var lanes, all := [a, b], Merged([], [a, b]);
    MergedMembers([], lanes);
    assert forall lane :: lane in lanes ==> lane == a || lane == b;
    NoDupSize(all);
    assert Elements(all) <= Elements(a) + Elements(b);
    SubsetSize(Elements(all), Elements(a) + Elements(b));
    FewElements(a);
    FewElements(b);
  }

  lemma {:induction false} FewElements(s: seq<Id>)
    ensures |Elements(s)| <= |s|
  {
    if s != [] {
      FewElements(s[..|s| - 1]);
      assert s == s[..|s| - 1] + [s[|s| - 1]];
      assert Elements(s) == Elements(s[..|s| - 1]) + {s[|s| - 1]};
    }
  }

  /** What is left of the pages when the seed is dropped, and how much. */
  lemma AllOthers(seed: Id, pages: seq<seq<Id>>)
    requires |pages| >= 3
    ensures var all, first := OthersOf(seed, pages), Filled([], pages[..2], 60);
      && NoDup(all) && (forall id :: id in all <==> id != seed && (id in first || id in pages[2]))
      && |all| >= |first| - 1 && (|all| == |first| - 1 ==> seed in first && forall id :: id in pages[2] ==> id in first)
      && (seed in first && (forall id :: id in pages[2] ==> id in first) ==> |all| == |first| - 1)
  {
    hide Filled, Where, Merged, NoDup, Subseq, Unique;
    var first := Filled([], pages[..2], 60);
    var ids := Unique(first + pages[2]);
    UniqueIsASet(first + pages[2]);
    WhereMembers(ids, id => id != seed);
    WhereLength(ids, seed);
    LargerLimitExtends(pages[..2], 60, 60);
    UniqueGrows(first, pages[2]);
    UniqueKeepsDistinct(first);
    assert forall id :: id in ids <==> id in Elements(ids);
    assert forall id :: id in first + pages[2] <==> id in Elements(first + pages[2]);
    if |ids| == |first| {
      assert ids == first;
    }
    if forall id :: id in pages[2] ==> id in first {
      NoDupSize(ids);
      NoDupSize(first);
      assert Elements(ids) == Elements(first);
    }
  }

  lemma SliceOf(all: seq<Id>, n: nat)
    requires NoDup(all) && n <= |all|
    ensures NoDup(all[..n]) && (forall id :: id in all[..n] ==> id in all) && (n == |all| ==> all[..n] == all)
  {
  }

  lemma FirstPages(pages: seq<seq<Id>>)
    requires |pages| >= 3
    ensures var first := Filled([], pages[..2], 60);
      && NoDup(first) && |first| == Min(60, |Merged([], pages[..2])|)
      && (forall id :: id in first ==> id in pages[0] || id in pages[1])
      && (|Merged([], pages[..2])| <= 60 ==> forall id :: id in pages[0] || id in pages[1] ==> id in first)
  {
    hide Merged, NoDup;
    LargerLimitExtends(pages[..2], 60, 60);
    var all := Merged([], pages[..2]);
    TwoPages(pages);
    assert forall id :: id in Filled([], pages[..2], 60) ==> id in all;
  }

  lemma TwoPages(pages: seq<seq<Id>>)
    requires |pages| >= 3
    ensures forall id :: id in Merged([], pages[..2]) <==> id in pages[0] || id in pages[1]
  {
    hide Merged;
    var two := pages[..2];
    MergedMembers([], two);
    assert two[0] == pages[0] && two[1] == pages[1] && two[0] in two && two[1] in two;
    forall id | id in Merged([], two) ensures id in pages[0] || id in pages[1] {
      var lane :| lane in two && id in lane;
      assert lane == two[0] || lane == two[1];
    }
  }

  /** The first id the limit keeps out. */
  lemma FirstCut(pages: seq<seq<Id>>) returns (id: Id)
    requires |pages| >= 3 && |Merged([], pages[..2])| > 60
    ensures id !in Filled([], pages[..2], 60) && (id in pages[0] || id in pages[1])
  {
    hide Merged;
    var all := Merged([], pages[..2]);
    MergedMembers([], pages[..2]);
    TwoPages(pages);
    id := all[60];
  }

  // ---------- rankings ----------

  /** `sorted(eligible, key=...)`, where `eligible` is what `admitted` leaves of the selection. */
  function Ranked(selected: seq<Id>, admitted: Id -> bool, less: Less<Id>): seq<Id> {
    StableSort(less, Where(selected, admitted))
  }

  lemma RankedIsASelection(selected: seq<Id>, admitted: Id -> bool, less: Less<Id>)
    requires NoDup(selected)
    ensures var order := Ranked(selected, admitted, less); NoDup(order) && forall id :: id in order <==> id in selected && admitted(id)
  {
    hide StableSort, NoDup;
    var eligible := Where(selected, admitted);
    var order := Ranked(selected, admitted, less);
    WhereMembers(selected, admitted);
    DistinctByCount(eligible);
    DistinctByCount(order);
    assert forall id :: id in eligible <==> id in multiset(eligible);
    assert forall id :: id in order <==> id in multiset(order);
  }

  /** Every score the evaluation reports is a ratio: whatever is admitted and whatever the sort key,
      0 <= ndcg_full <= ndcg_selected <= 1. */
  lemma ReportedScoresAreRatios(selected: seq<Id>, full: seq<Id>, admitted: Id -> bool, less: Less<Id>, grades: map<Id, nat>, w: Discount)
    requires Fading(w) && NoDup(selected)
    requires (forall id :: id in full ==> id in grades) && forall id :: id in selected ==> id in full
    ensures (forall id :: id in Ranked(selected, admitted, less) ==> id in grades)
    ensures var m := Measure(Ranked(selected, admitted, less), grades, selected, full, w);
      && (m.ndcgSelected.Some? ==> m.ndcgFull.Some? && 0.0 <= m.ndcgFull.value <= m.ndcgSelected.value <= 1.0)
      && m.suitable <= m.returned <= |selected|
  {
    hide Ranked, Measure, NoDup, Ideal, DcgAt10;
    var order := Ranked(selected, admitted, less);
    RankedIsASelection(selected, admitted, less);
    NdcgIsARatio(order, grades, selected, full, w);
    RankedIsShort(selected, admitted, less);
    MeasureCounts(order, grades, selected, full, w);
  }

  lemma RankedIsShort(selected: seq<Id>, admitted: Id -> bool, less: Less<Id>)
    ensures |Ranked(selected, admitted, less)| <= |selected|
  {
    hide StableSort;
    var eligible := Where(selected, admitted);
    WhereIsShort(selected, admitted);
    assert |eligible| == |multiset(eligible)| && |StableSort(less, eligible)| == |multiset(StableSort(less, eligible))|;
  }

  lemma {:induction false} WhereIsShort(ids: seq<Id>, keep: Id -> bool)
    ensures |Where(ids, keep)| <= |ids|
  {
    if ids != [] {
      WhereIsShort(ids[..|ids| - 1], keep);
    }
  }

  lemma MeasureCounts(order: seq<Id>, grades: map<Id, nat>, selected: seq<Id>, full: seq<Id>, w: Discount)
    requires forall id :: id in order || id in selected || id in full ==> id in grades
    ensures var m := Measure(order, grades, selected, full, w); m.suitable <= m.returned <= |order|
  {
    hide Ideal, DcgAt10;
    var top := order[..Min(20, |order|)];
    SuitableIsShort(top[..Min(10, |top|)], grades);
  }

  lemma {:induction false} SuitableIsShort(ids: seq<Id>, grades: map<Id, nat>)
    requires forall id :: id in ids ==> id in grades
    ensures Suitable(ids, grades) <= |ids|
  {
    if ids != [] {
      SuitableIsShort(ids[..|ids| - 1], grades);
    }
  }
}
