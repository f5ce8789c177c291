/** Reciprocal-rank fusion of `tools/curator-embed/evaluate-m0c-freeze.py`: a nested dictionary of
    best ranks is filled in place, page by page, and summed per identity. */
module Fusion {
  import opened Base

  /** One provider page as `list_rrf` sees it: its lane, its number (providers count from 1) and
      the ids of its rows. */
  datatype Page = Page(lane: string, number: nat, rows: seq<nat>)

  predicate Numbered(pages: seq<Page>) {
    forall p :: p in pages ==> p.number >= 1
  }

  const UNRANKED: nat := 1_000_000_000

  function Rank(number: nat, index: nat): nat
    requires number >= 1
  {
    (number - 1) * 20 + index + 1
  }

  /** The row of some page that gives `id` this absolute rank in this lane. */
  ghost predicate Occurs(pages: seq<Page>, id: nat, lane: string, rank: nat)
    requires Numbered(pages)
  {
    exists p, i :: p in pages && p.lane == lane && 0 <= i < |p.rows| && p.rows[i] == id && rank == Rank(p.number, i)
  }

  // ---------- what the nested dictionary holds ----------

  function FoldRows(best: Option<nat>, rows: seq<nat>, number: nat, id: nat): Option<nat>
    requires number >= 1
  {
    if rows == [] then best
    else
      var last := |rows| - 1;
      var before := FoldRows(best, rows[..last], number, id);
      if rows[last] != id then before
      else Some(Min(if before.Some? then before.value else UNRANKED, Rank(number, last)))
  }

  function Best(pages: seq<Page>, id: nat, lane: string): Option<nat>
    requires Numbered(pages)
  {
    if pages == [] then None
    else
      var p := pages[|pages| - 1];
      var before := Best(pages[..|pages| - 1], id, lane);
      if p.lane == lane then FoldRows(before, p.rows, p.number, id) else before
  }

  ghost function Ranks(pages: seq<Page>, id: nat, lane: string): iset<nat>
    requires Numbered(pages)
  {
    iset rank: nat | Occurs(pages, id, lane, rank)
  }

  /** `best` is the least of the ranks, capped; None if there is none. */
  ghost predicate Least(ranks: iset<nat>, best: Option<nat>) {
    if best.None? then ranks == iset{}
    else
      && ranks != iset{} && best.value <= UNRANKED
      && (forall rank :: rank in ranks ==> best.value <= rank)
      && (best.value == UNRANKED || best.value in ranks)
  }

  ghost function RowRanks(p: Page, id: nat): iset<nat>
    requires p.number >= 1
  {
    iset i | 0 <= i < |p.rows| && p.rows[i] == id :: Rank(p.number, i)
  }

  lemma RanksSnoc(pages: seq<Page>, p: Page, id: nat, lane: string)
    requires Numbered(pages) && p.number >= 1
    ensures Ranks(pages + [p], id, lane) == Ranks(pages, id, lane) + (if p.lane == lane then RowRanks(p, id) else iset{})
  {
    var all := pages + [p];
    assert p in all;
    forall rank | rank in Ranks(pages, id, lane) ensures rank in Ranks(all, id, lane) {
      var q, i :| q in pages && q.lane == lane && 0 <= i < |q.rows| && q.rows[i] == id && rank == Rank(q.number, i);
      assert q in all;
    }
  }

  lemma {:induction false} RowsExtendBest(ranks: iset<nat>, p: Page, id: nat, best: Option<nat>)
    requires p.number >= 1 && Least(ranks, best)
    ensures Least(ranks + RowRanks(p, id), FoldRows(best, p.rows, p.number, id))
    decreases |p.rows|
  {
    if p.rows == [] {
      assert RowRanks(p, id) == iset{};
      assert ranks + RowRanks(p, id) == ranks;
    } else {
      var last := |p.rows| - 1;
      var q := p.(rows := p.rows[..last]);
      RowsExtendBest(ranks, q, id, best);
      RowRanksSnoc(p, q, id);
      var before := FoldRows(best, q.rows, q.number, id);
      if p.rows[last] == id {
        LeastInsert(ranks + RowRanks(q, id), before, Rank(p.number, last));
        assert ranks + RowRanks(p, id) == ranks + RowRanks(q, id) + iset{Rank(p.number, last)};
      }
    }
  }

  lemma RowRanksSnoc(p: Page, q: Page, id: nat)
    requires p.number >= 1 && p.rows != [] && q == p.(rows := p.rows[..|p.rows| - 1])
    ensures var last := |p.rows| - 1;
      RowRanks(p, id) == RowRanks(q, id) + (if p.rows[last] == id then iset{Rank(p.number, last)} else iset{})
  {
    forall rank | rank in RowRanks(q, id) ensures rank in RowRanks(p, id) {
      var i :| 0 <= i < |q.rows| && q.rows[i] == id && rank == Rank(q.number, i);
      assert p.rows[i] == id;
    }
    forall rank | rank in RowRanks(p, id)
      ensures rank in RowRanks(q, id) || (p.rows[|p.rows| - 1] == id && rank == Rank(p.number, |p.rows| - 1))
    {
      var i :| 0 <= i < |p.rows| && p.rows[i] == id && rank == Rank(p.number, i);
      assert i < |q.rows| ==> q.rows[i] == id;
    }
  }

  lemma LeastInsert(ranks: iset<nat>, best: Option<nat>, rank: nat)
    requires Least(ranks, best)
    ensures Least(ranks + iset{rank}, Some(Min(if best.Some? then best.value else UNRANKED, rank)))
  {
    assert rank in ranks + iset{rank};
  }

  lemma LeastIsUnique(ranks: iset<nat>, a: Option<nat>, b: Option<nat>)
    requires Least(ranks, a) && Least(ranks, b)
    ensures a == b
  {
  }

  lemma {:induction false} BestIsLeast(pages: seq<Page>, id: nat, lane: string)
    requires Numbered(pages)
    ensures Least(Ranks(pages, id, lane), Best(pages, id, lane))
  {
    if pages != [] {
      var front, p := pages[..|pages| - 1], pages[|pages| - 1];
      BestIsLeast(front, id, lane);
      assert pages == front + [p];
      RanksSnoc(front, p, id, lane);
      if p.lane == lane {
        RowsExtendBest(Ranks(front, id, lane), p, id, Best(front, id, lane));
      } else {
        assert Ranks(pages, id, lane) == Ranks(front, id, lane);
      }
    }
  }

  /** The ranks do not depend on the order of the pages, nor on repeating one. */
  lemma BestIgnoresOrder(a: seq<Page>, b: seq<Page>, id: nat, lane: string)
    requires Numbered(a) && (forall p :: p in a <==> p in b)
    ensures Best(a, id, lane) == Best(b, id, lane)
  {
    BestIsLeast(a, id, lane);
    BestIsLeast(b, id, lane);
    assert Ranks(a, id, lane) == Ranks(b, id, lane);
    LeastIsUnique(Ranks(a, id, lane), Best(a, id, lane), Best(b, id, lane));
  }

  // ---------- the sum over lanes ----------

  function Reciprocal(rank: nat): real {
    1.0 / (60 + rank) as real
  }

  ghost function SumOver(lanes: set<string>, ranks: map<string, nat>): real
    requires lanes <= ranks.Keys
  {
    if lanes == {} then 0.0
    else
      var lane :| lane in lanes;
      Reciprocal(ranks[lane]) + SumOver(lanes - {lane}, ranks)
  }

  /** The sum can be taken in any order of the lanes. */
  lemma {:induction false} SumInAnyOrder(lanes: set<string>, ranks: map<string, nat>, lane: string)
    requires lanes <= ranks.Keys && lane in lanes
    ensures SumOver(lanes, ranks) == Reciprocal(ranks[lane]) + SumOver(lanes - {lane}, ranks)
    decreases lanes
  {
    var first :| first in lanes && SumOver(lanes, ranks) == Reciprocal(ranks[first]) + SumOver(lanes - {first}, ranks);
    if first != lane {
      SumInAnyOrder(lanes - {first}, ranks, lane);
      SumInAnyOrder(lanes - {lane}, ranks, first);
      assert lanes - {first} - {lane} == lanes - {lane} - {first};
    }
  }

  ghost function LaneRanks(pages: seq<Page>, id: nat): map<string, nat>
    requires Numbered(pages)
  {
    map lane | lane in (set p | p in pages :: p.lane) && Best(pages, id, lane).Some? :: Best(pages, id, lane).value
  }

  /** The score the fusion promises: over every lane the id occurs in, 1 / (60 + best rank). */
  ghost function Score(pages: seq<Page>, id: nat): real
    requires Numbered(pages)
  {
    SumOver(LaneRanks(pages, id).Keys, LaneRanks(pages, id))
  }

  lemma ScoreIgnoresOrder(a: seq<Page>, b: seq<Page>, id: nat)
    requires Numbered(a) && (forall p :: p in a <==> p in b)
    ensures Score(a, id) == Score(b, id)
  {
    forall lane ensures Best(a, id, lane) == Best(b, id, lane) {
      BestIgnoresOrder(a, b, id, lane);
    }
    assert (set p | p in a :: p.lane) == (set p | p in b :: p.lane);
    assert LaneRanks(a, id) == LaneRanks(b, id);
  }

  // ---------- the loops ----------

  type Positions = map<nat, map<string, nat>>

  function Find(positions: Positions, id: nat, lane: string): Option<nat> {
    if id in positions && lane in positions[id] then Some(positions[id][lane]) else None
  }

  ghost predicate Holds(positions: Positions, pages: seq<Page>)
    requires Numbered(pages)
  {
    && (forall id, lane :: Find(positions, id, lane) == Best(pages, id, lane))
    && (forall id :: id in positions ==> positions[id] != map[])
  }

  lemma HoldsRow(positions: Positions, pages: seq<Page>, page: Page, index: nat)
    requires Numbered(pages) && page.number >= 1 && index < |page.rows|
    requires Holds(positions, pages + [page.(rows := page.rows[..index])])
    ensures var id := page.rows[index];
      var inner := if id in positions then positions[id] else map[];
      var best := Min(if page.lane in inner then inner[page.lane] else UNRANKED, Rank(page.number, index));
      Holds(positions[id := inner[page.lane := best]], pages + [page.(rows := page.rows[..index + 1])])
  {
    var before, after := page.(rows := page.rows[..index]), page.(rows := page.rows[..index + 1]);
    assert after.rows[..index] == before.rows;
    assert (pages + [before])[..|pages|] == pages && (pages + [after])[..|pages|] == pages;
    var row := page.rows[index];
    var inner := if row in positions then positions[row] else map[];
    var best := Min(if page.lane in inner then inner[page.lane] else UNRANKED, Rank(page.number, index));
    forall id, lane
      ensures Find(positions[row := inner[page.lane := best]], id, lane) == Best(pages + [after], id, lane)
    {
      assert Find(positions, id, lane) == Best(pages + [before], id, lane);
    }
  }

  lemma HoldsPage(positions: Positions, pages: seq<Page>, page: Page)
    requires Numbered(pages) && page.number >= 1
    ensures Holds(positions, pages + [page.(rows := [])]) <==> Holds(positions, pages)
  {
    var empty := page.(rows := []);
    assert (pages + [empty])[..|pages|] == pages;
    assert forall id, lane :: Best(pages + [empty], id, lane) == Best(pages, id, lane);
  }

  method FillPositions(pages: seq<Page>) returns (positions: Positions)
    requires Numbered(pages)
    ensures Holds(positions, pages)
  {
    positions := map[];
    var next := 0;
    while next < |pages|
      invariant next <= |pages| && Holds(positions, pages[..next])
    {
      var page := pages[next];
      HoldsPage(positions, pages[..next], page);
      assert page.rows[..0] == [];
      var index := 0;
      while index < |page.rows|
        invariant index <= |page.rows|
        invariant Holds(positions, pages[..next] + [page.(rows := page.rows[..index])])
      {
        HoldsRow(positions, pages[..next], page, index);
        var id := page.rows[index];
        var inner := if id in positions then positions[id] else map[];
        var best := Min(if page.lane in inner then inner[page.lane] else UNRANKED, Rank(page.number, index));
        positions := positions[id := inner[page.lane := best]];
        index := index + 1;
      }
      assert page.rows[..|page.rows|] == page.rows;
      assert pages[..next + 1] == pages[..next] + [page];
      next := next + 1;
    }
    assert pages[..next] == pages;
  }

  method SumRanks(ranks: map<string, nat>) returns (sum: real)
    ensures sum == SumOver(ranks.Keys, ranks)
  {
    sum := 0.0;
    var left := ranks.Keys;
    while left != {}
      invariant left <= ranks.Keys
      invariant sum + SumOver(left, ranks) == SumOver(ranks.Keys, ranks)
      decreases left
    {
      var lane :| lane in left;
      SumInAnyOrder(left, ranks, lane);
      sum := sum + Reciprocal(ranks[lane]);
      left := left - {lane};
    }
  }

  lemma BestOccurs(pages: seq<Page>, id: nat, lane: string)
    requires Numbered(pages)
    ensures Best(pages, id, lane).Some? <==> exists rank :: Occurs(pages, id, lane, rank)
    ensures Best(pages, id, lane).Some? ==> lane in set p | p in pages :: p.lane
  {
    BestIsLeast(pages, id, lane);
    if Best(pages, id, lane).Some? {
      var rank :| rank in Ranks(pages, id, lane);
      var p, i :| p in pages && p.lane == lane && 0 <= i < |p.rows| && p.rows[i] == id && rank == Rank(p.number, i);
    }
    if rank: nat :| Occurs(pages, id, lane, rank) {
      assert rank in Ranks(pages, id, lane);
    }
  }

  lemma HeldRanks(positions: Positions, pages: seq<Page>, id: nat)
    requires Numbered(pages) && Holds(positions, pages)
    ensures id in positions <==> exists lane, rank :: Occurs(pages, id, lane, rank)
    ensures id in positions ==> positions[id] == LaneRanks(pages, id)
  {
    forall lane ensures Best(pages, id, lane).Some? <==> exists rank :: Occurs(pages, id, lane, rank) {
      BestOccurs(pages, id, lane);
    }
    if id in positions {
      var lane :| lane in positions[id];
      assert Find(positions, id, lane) == Best(pages, id, lane);
      var inner := positions[id];
      forall lane ensures lane in inner <==> lane in LaneRanks(pages, id) {
        assert Find(positions, id, lane) == Best(pages, id, lane);
        BestOccurs(pages, id, lane);
      }
      forall lane | lane in inner ensures inner[lane] == LaneRanks(pages, id)[lane] {
        assert Find(positions, id, lane) == Best(pages, id, lane);
      }
      assert inner == LaneRanks(pages, id);
    }
    if lane, rank :| Occurs(pages, id, lane, rank) {
      assert Find(positions, id, lane) == Best(pages, id, lane);
    }
  }

  /** `list_rrf`: a score for every id, or the KeyError of an id no page holds. */
  method ListRrf(pages: seq<Page>, ids: seq<nat>) returns (scores: Option<map<nat, real>>)
    requires Numbered(pages)
    ensures scores.Some? <==> forall id :: id in ids ==> exists lane, rank :: Occurs(pages, id, lane, rank)
    ensures scores.Some? ==> scores.value.Keys == set id | id in ids
    ensures scores.Some? ==> forall id :: id in ids ==> scores.value[id] == Score(pages, id)
  {
    var positions := FillPositions(pages);
    var result: map<nat, real> := map[];
    var next := 0;
    while next < |ids|
      invariant next <= |ids|
      invariant result.Keys == set id | id in ids[..next]
      invariant forall id :: id in ids[..next] ==> result[id] == Score(pages, id) && id in positions
    {
      HeldRanks(positions, pages, ids[next]);
      if ids[next] !in positions {
        assert ids[next] in ids;
        return None;
      }
      var sum := SumRanks(positions[ids[next]]);
      result := result[ids[next] := sum];
      next := next + 1;
    }
    assert ids[..next] == ids;
    forall id | id in ids ensures exists lane, rank :: Occurs(pages, id, lane, rank) {
      HeldRanks(positions, pages, id);
    }
    scores := Some(result);
  }

  // ---------- seed_rrf ----------

  datatype RawPage = RawPage(path: string, number: nat, rows: seq<nat>)

  predicate Contains(text: string, part: string) {
    |text| >= |part| && (text[..|part|] == part || (text != [] && Contains(text[1..], part)))
  }

  function SeedPage(raw: RawPage): Page {
    Page(if Contains(raw.path, "similar") then "similar" else "recommendations", raw.number, raw.rows)
  }

  function SeedPages(raws: seq<RawPage>): (pages: seq<Page>)
    requires forall raw :: raw in raws ==> raw.number >= 1
    ensures Numbered(pages) && |pages| == |raws| && forall i :: 0 <= i < |raws| ==> pages[i] == SeedPage(raws[i])
  {
    seq(|raws|, i requires 0 <= i < |raws| => SeedPage(raws[i]))
  }

  /** `seed_rrf`: the lane comes from the path of the page. */
  method SeedRrf(raws: seq<RawPage>, ids: seq<nat>) returns (scores: Option<map<nat, real>>)
    requires forall raw :: raw in raws ==> raw.number >= 1
    ensures scores.Some? <==> forall id :: id in ids ==> exists lane, rank :: Occurs(SeedPages(raws), id, lane, rank)
    ensures scores.Some? ==> forall id :: id in ids ==> id in scores.value && scores.value[id] == Score(SeedPages(raws), id)
  {
    scores := ListRrf(SeedPages(raws), ids);
  }

  /** Several pages fall into one lane here, so only the best rank over all of them counts:
      a page that repeats an id at a worse rank in its lane changes no score. */
  lemma WorseRankIsIgnored(pages: seq<Page>, page: Page, id: nat)
    requires Numbered(pages) && page.number >= 1
    requires forall i :: 0 <= i < |page.rows| && page.rows[i] == id ==>
               exists rank: nat :: Occurs(pages, id, page.lane, rank) && rank <= Rank(page.number, i)
    ensures Score(pages + [page], id) == Score(pages, id)
  {
    var all := pages + [page];
    forall lane ensures Best(all, id, lane) == Best(pages, id, lane) {
      WorseRankKeepsBest(pages, page, id, lane);
    }
    forall lane | lane in LaneRanks(all, id) ensures lane in LaneRanks(pages, id) {
      BestOccurs(pages, id, lane);
    }
    forall lane | lane in LaneRanks(pages, id) ensures lane in LaneRanks(all, id) {
      BestOccurs(all, id, lane);
    }
    assert LaneRanks(all, id) == LaneRanks(pages, id);
  }

  lemma WorseRankKeepsBest(pages: seq<Page>, page: Page, id: nat, lane: string)
    requires Numbered(pages) && page.number >= 1
    requires forall i :: 0 <= i < |page.rows| && page.rows[i] == id ==>
               exists rank: nat :: Occurs(pages, id, page.lane, rank) && rank <= Rank(page.number, i)
    ensures Best(pages + [page], id, lane) == Best(pages, id, lane)
  {
    var prior, ranks := Ranks(pages, id, lane), Ranks(pages + [page], id, lane);
    var best := Best(pages, id, lane);
    BestIsLeast(pages + [page], id, lane);
    BestIsLeast(pages, id, lane);
    RanksSnoc(pages, page, id, lane);
    forall worse | worse in ranks && worse !in prior ensures exists rank :: rank in prior && rank <= worse {
      var i :| 0 <= i < |page.rows| && page.rows[i] == id && worse == Rank(page.number, i);
      var rank: nat :| Occurs(pages, id, page.lane, rank) && rank <= Rank(page.number, i);
      assert rank in prior;
    }
    assert Least(ranks, best);
    LeastIsUnique(ranks, best, Best(pages + [page], id, lane));
  }
}
