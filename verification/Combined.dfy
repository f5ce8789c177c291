/** `combined` and `combined_pool` of `tools/curator-embed/freeze-corpus-candidates.py`. */
module Combined {
  import opened Base
  import opened Sequences
  import opened Candidates
  import opened CombinedPaths
  import opened Sorting

  type Scores = map<Id, int>

  function Upto14(s: seq<Id>): seq<Id> {
    s[..Min(14, |s|)]
  }

  function From14(s: seq<Id>): seq<Id> {
    s[Min(14, |s|)..]
  }

  function ScoreOf(scores: Scores, id: Id): int {
    if id in scores then scores[id] else 0
  }

  /** `{id: index for index, id in enumerate(theme)}[id]`: the last index wins. */
  function Position(theme: seq<Id>, id: Id): nat {
    if theme == [] then 0
    else if theme[|theme| - 1] == id then |theme| - 1
    else Position(theme[..|theme| - 1], id)
  }

  /** The sort key order: higher score, then earlier in the theme, then smaller id. */
  predicate Before(a: Id, b: Id, theme: seq<Id>, scores: Scores) {
    var x, y := ScoreOf(scores, a), ScoreOf(scores, b);
    var p, q := Position(theme, a), Position(theme, b);
    x > y || (x == y && (p < q || (p == q && a < b)))
  }

  lemma BeforeIsStrictWeak(theme: seq<Id>, scores: Scores)
    ensures StrictWeak((a: Id, b: Id) => Before(a, b, theme, scores))
  {
  }

  /** `theme_path.sort(key=...)`. */
  function SortPath(path: seq<Id>, theme: seq<Id>, scores: Scores): seq<Id> {
    StableSort((a: Id, b: Id) => Before(a, b, theme, scores), path)
  }

  ghost predicate Ordered(path: seq<Id>, theme: seq<Id>, scores: Scores) {
    SortedBy((a: Id, b: Id) => Before(a, b, theme, scores), path)
  }

  lemma SortIsOrdered(path: seq<Id>, theme: seq<Id>, scores: Scores)
    ensures Ordered(SortPath(path, theme, scores), theme, scores)
    ensures multiset(SortPath(path, theme, scores)) == multiset(path)
  {
    BeforeIsStrictWeak(theme, scores);
    StableSortSorts((a: Id, b: Id) => Before(a, b, theme, scores), path);
  }

  function SortedTheme(theme: seq<Id>, seed: seq<Id>, scores: Scores): seq<Id> {
    SortPath(PathsOf(theme, seed).theme, theme, scores)
  }

  /** The quota: up to fourteen of each path. */
  function Quota(theme: seq<Id>, seed: seq<Id>, scores: Scores): seq<Id> {
    Unique(Upto14(SortedTheme(theme, seed, scores)) + Upto14(PathsOf(theme, seed).seed))
  }

  function Remaining(theme: seq<Id>, seed: seq<Id>, scores: Scores): seq<seq<Id>> {
    [From14(SortedTheme(theme, seed, scores)), From14(PathsOf(theme, seed).seed)]
  }

  function CombinedOf(theme: seq<Id>, seed: seq<Id>, scores: Scores, limit: nat): seq<Id> {
    var quota := Quota(theme, seed, scores);
    if |quota| >= limit then quota[..limit] else Filled(quota, Remaining(theme, seed, scores), limit)
  }

  function PoolOf(theme: seq<Id>, seed: seq<Id>): seq<Id> {
    var all := Unique(PathsOf(theme, seed).theme + PathsOf(theme, seed).seed);
    all[..Min(60, |all|)]
  }

  /** `combined`; a limit outside 1..28 fails its assertion. */
  method Combined(theme: seq<Id>, seed: seq<Id>, scores: Scores, limit: int) returns (result: Option<seq<Id>>)
    ensures result == if 1 <= limit <= 28 then Some(CombinedOf(theme, seed, scores, limit)) else None
  {
    hide PathsOf, Unique, Filled, SortPath;
    if limit < 1 || limit > 28 {
      return None;
    }
    var p := CombinedPaths.CombinedPaths(theme, seed);
    var themePath := SortPath(p.theme, theme, scores);
    var quota := Unique(Upto14(themePath) + Upto14(p.seed));
    if |quota| >= limit {
      return Some(quota[..limit]);
    }
    UniqueIsASet(Upto14(themePath) + Upto14(p.seed));
    var merged := FillInTurns(quota, [From14(themePath), From14(p.seed)], limit);
    result := Some(merged);
  }

  method CombinedPool(theme: seq<Id>, seed: seq<Id>) returns (pool: seq<Id>)
    ensures pool == PoolOf(theme, seed)
  {
    var p := CombinedPaths.CombinedPaths(theme, seed);
    var all := Unique(p.theme + p.seed);
    pool := all[..Min(60, |all|)];
  }

  /** The unlimited merge: the quota first, then the rest of both paths, each id once. */
  lemma MergeCoversThePaths(theme: seq<Id>, seed: seq<Id>, scores: Scores)
    requires NoDup(theme) && NoDup(seed)
    ensures var all := Merged(Quota(theme, seed, scores), Remaining(theme, seed, scores));
      && NoDup(all) && Quota(theme, seed, scores) <= all
      && (forall id :: id in all <==> id in PoolOf(theme, seed))
      && |all| == |PoolOf(theme, seed)| == Min(60, |Elements(theme) + Elements(seed)|)
  {
    hide Unique, Merged, PathsOf, SortPath, Subseq;
    var p := PathsOf(theme, seed);
    PathsShareTheSlots(theme, seed);
    var t := SortedTheme(theme, seed, scores);
    SortIsOrdered(p.theme, theme, scores);
    var quota, lanes := Quota(theme, seed, scores), Remaining(theme, seed, scores);
    var all := Merged(quota, lanes);
    MergedMembers(quota, lanes);
    UniqueIsASet(Upto14(t) + Upto14(p.seed));
    UniqueKeepsDistinct(quota);
    UniqueKeepsDistinct(p.theme + p.seed);
    forall id ensures id in all <==> id in p.theme + p.seed {
      QuotaAndRest(p, t, quota, id);
    }
    NoDupSize(all);
    NoDupSize(p.theme + p.seed);
    assert Elements(all) == Elements(p.theme + p.seed);
    assert PoolOf(theme, seed) == p.theme + p.seed;
  }

  lemma QuotaAndRest(p: Paths, t: seq<Id>, quota: seq<Id>, id: Id)
    requires multiset(t) == multiset(p.theme) && Elements(quota) == Elements(Upto14(t) + Upto14(p.seed))
    ensures var lanes := [From14(t), From14(p.seed)];
      id in quota || (exists lane :: lane in lanes && id in lane) <==> id in p.theme + p.seed
  {
    var lanes := [From14(t), From14(p.seed)];
    hide Upto14, From14;
    assert id in quota <==> id in Elements(quota);
    assert id in Upto14(t) + Upto14(p.seed) <==> id in Elements(Upto14(t) + Upto14(p.seed));
    assert lanes[0] in lanes && lanes[1] in lanes;
    Halves(t, id);
    Halves(p.seed, id);
    assert id in t <==> id in multiset(t);
    assert id in p.theme <==> id in multiset(p.theme);
  }

  lemma Halves(s: seq<Id>, id: Id)
    ensures id in s <==> id in Upto14(s) || id in From14(s)
  {
    assert s == Upto14(s) + From14(s);
  }

  /** One ranking serves every limit: the result for k is the first k of the result for 28, holds
      no id twice, lies within the pool, and is as long as the offered ids allow. */
  lemma EveryLimitIsAPrefix(theme: seq<Id>, seed: seq<Id>, scores: Scores, k: nat)
    requires NoDup(theme) && NoDup(seed) && 1 <= k <= 28
    ensures var result := CombinedOf(theme, seed, scores, k);
      && result <= CombinedOf(theme, seed, scores, 28)
      && |result| == Min(k, |Elements(theme) + Elements(seed)|)
      && NoDup(result) && forall id :: id in result ==> id in PoolOf(theme, seed)
  {
    hide Unique, Merged, PathsOf, SortPath, Quota, Remaining, PoolOf;
    MergeCoversThePaths(theme, seed, scores);
    var all := Merged(Quota(theme, seed, scores), Remaining(theme, seed, scores));
    assert forall limit :: 0 < limit <= 28 ==> CombinedOf(theme, seed, scores, limit) == all[..Min(limit, |all|)];
    var result := CombinedOf(theme, seed, scores, k);
    assert forall id :: id in result ==> id in all;
  }

  /** Both paths get their quota: with fourteen of each, the 28 candidates are exactly those. */
  lemma FullQuotaIsHalfAndHalf(theme: seq<Id>, seed: seq<Id>, scores: Scores)
    requires NoDup(theme) && NoDup(seed)
    requires |PathsOf(theme, seed).theme| >= 14 && |PathsOf(theme, seed).seed| >= 14
    ensures CombinedOf(theme, seed, scores, 28) == Upto14(SortedTheme(theme, seed, scores)) + Upto14(PathsOf(theme, seed).seed)
    ensures Ordered(SortedTheme(theme, seed, scores), theme, scores)
  {
    hide PathsOf, SortPath, Subseq;
    var p := PathsOf(theme, seed);
    PathsShareTheSlots(theme, seed);
    var t := SortedTheme(theme, seed, scores);
    SortIsOrdered(p.theme, theme, scores);
    NoDupParts(p.theme, p.seed);
    DistinctByCount(p.theme);
    DistinctByCount(t);
    assert |t| == |multiset(t)| == |multiset(p.theme)|;
    forall id | id in Upto14(t) ensures id in p.theme {
      assert t == Upto14(t) + From14(t);
      assert id in multiset(t);
    }
    NoDupConcat(Upto14(t), Upto14(p.seed));
    UniqueKeepsDistinct(Upto14(t) + Upto14(p.seed));
  }
}
