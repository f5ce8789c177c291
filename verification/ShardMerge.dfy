/** `merge` of `scripts/ci-go-shard.py`: the validating merge of the shards' coverage profiles. */
module ShardMerge {
  import opened Base
  import opened Sequences
  import opened Sorting
  import opened Shard

  type Folders = seq<Option<Folder>>

  // ---------- what may be merged ----------

  /** The lines of all profiles, in the order of the shards. */
  function AllLines(folders: Folders): seq<Line> {
    if folders == [] then []
    else
      var last := folders[|folders| - 1];
      AllLines(folders[..|folders| - 1]) + (if last.Some? then last.value.profile.lines else [])
  }

  predicate GoodLine(l: Line) {
    l.Block? && l.statements >= 0 && l.hits >= 0
  }

  predicate GoodLines(lines: seq<Line>) {
    forall i :: 0 <= i < |lines| ==> GoodLine(lines[i])
  }

  predicate SameBlock(a: Line, b: Line) {
    a.Block? && b.Block? && a.location == b.location
  }

  /** Lines about the same block agree on its number of statements. */
  predicate Agree(lines: seq<Line>) {
    forall i, j :: 0 <= i < |lines| && 0 <= j < |lines| && SameBlock(lines[i], lines[j]) ==> lines[i].statements == lines[j].statements
  }

  predicate SameSource(a: Plan, b: Plan) {
    a.tools == b.tools && a.tests == b.tests
  }

  predicate Provenance(f: Folder, index: nat, count: nat, digests: Digests) {
    && f.plan.index == index && f.plan.count == count
    && f.complete.planDigest == digests.plan(f.plan) && f.complete.profileDigest == digests.profile(f.profile)
  }

  /** Shard `i` fits in with the shards before it. */
  predicate FolderFits(folders: Folders, i: nat, count: nat, digests: Digests)
    requires i < |folders|
  {
    && folders[i].Some? && folders[0].Some?
    && var f := folders[i].value;
      && Provenance(f, i, count, digests)
      && SameSource(f.plan, folders[0].value.plan)
      && Elements(f.complete.executed) == Elements(f.plan.selected)
      && (forall j :: 0 <= j < i && folders[j].Some? ==> Elements(folders[j].value.plan.selected) !! Elements(f.plan.selected))
      && f.profile.header == Some("mode: atomic") && GoodLines(f.profile.lines)
  }

  function AllSelected(folders: Folders): set<Test> {
    if folders == [] then {}
    else
      var last := folders[|folders| - 1];
      AllSelected(folders[..|folders| - 1]) + (if last.Some? then Elements(last.value.plan.selected) else {})
  }

  /** What `merge` accepts. */
  predicate Acceptable(folders: Folders, digests: Digests, head: string)
    requires folders != []
  {
    && (forall i :: 0 <= i < |folders| ==> FolderFits(folders, i, |folders|, digests))
    && Agree(AllLines(folders)) && AllLines(folders) != []
    && folders[0].Some? && AllSelected(folders) == Elements(folders[0].value.plan.tests)
    && folders[0].value.plan.tools.commit == head
  }

  // ---------- hits ----------

  /** Hits of all lines, or of those at one location. */
  function Hits(lines: seq<Line>, at: Option<string>): int {
    if lines == [] then 0
    else
      var last := lines[|lines| - 1];
      Hits(lines[..|lines| - 1], at) + (if last.Block? && (at.None? || at.value == last.location) then last.hits else 0)
  }

  function Locations(lines: seq<Line>): set<string> {
    set l | l in lines && l.Block? :: l.location
  }

  lemma HitsSnoc(lines: seq<Line>, l: Line, at: Option<string>)
    ensures Hits(lines + [l], at) == Hits(lines, at) + (if l.Block? && (at.None? || at.value == l.location) then l.hits else 0)
  {
    assert (lines + [l])[..|lines|] == lines;
  }

  lemma {:induction false} HitsConcat(a: seq<Line>, b: seq<Line>, at: Option<string>)
    ensures Hits(a + b, at) == Hits(a, at) + Hits(b, at)
    decreases |b|
  {
    if b == [] {
      assert a + b == a;
    } else {
      HitsConcat(a, b[..|b| - 1], at);
      HitsSnoc(a + b[..|b| - 1], b[|b| - 1], at);
      assert a + b == a + b[..|b| - 1] + [b[|b| - 1]];
    }
  }

  lemma {:induction false} HitsElsewhere(lines: seq<Line>, location: string)
    requires location !in Locations(lines)
    ensures Hits(lines, Some(location)) == 0
  {
    if lines != [] {
      var front, last := lines[..|lines| - 1], lines[|lines| - 1];
      assert last in lines && forall l :: l in front ==> l in lines;
      assert Locations(front) <= Locations(lines);
      assert last.Block? ==> last.location in Locations(lines);
      HitsElsewhere(front, location);
    }
  }

  /** Hits summed over the shards. */
  function HitsOfShards(folders: Folders, at: Option<string>): int {
    if folders == [] then 0
    else
      var last := folders[|folders| - 1];
      HitsOfShards(folders[..|folders| - 1], at) + (if last.Some? then Hits(last.value.profile.lines, at) else 0)
  }

  lemma {:induction false} HitsAreSummedOverShards(folders: Folders, at: Option<string>)
    ensures Hits(AllLines(folders), at) == HitsOfShards(folders, at)
  {
    if folders != [] {
      HitsAreSummedOverShards(folders[..|folders| - 1], at);
      var last := folders[|folders| - 1];
      HitsConcat(AllLines(folders[..|folders| - 1]), if last.Some? then last.value.profile.lines else [], at);
    }
  }

  // ---------- the table of blocks ----------

  type Blocks = map<string, (int, int)>

  /** `blocks`, whose keys `order` lists as they came, says what the lines say. */
  ghost predicate Tallies(blocks: Blocks, order: seq<string>, lines: seq<Line>) {
    && NoDup(order) && (forall loc :: loc in order <==> loc in blocks)
    && (forall i :: 0 <= i < |lines| ==>
          GoodLine(lines[i]) && lines[i].location in blocks && blocks[lines[i].location].0 == lines[i].statements)
    && (forall loc :: loc in blocks ==> loc in Locations(lines) && blocks[loc].1 == Hits(lines, Some(loc)))
  }

  lemma TalliesAgree(blocks: Blocks, order: seq<string>, lines: seq<Line>)
    requires Tallies(blocks, order, lines)
    ensures GoodLines(lines) && Agree(lines)
  {
  }

  function Counted(blocks: Blocks, l: Line): Blocks
    requires l.Block?
  {
    var previous := if l.location in blocks then blocks[l.location] else (l.statements, 0);
    blocks[l.location := (previous.0, previous.1 + l.hits)]
  }

  lemma TallySnoc(blocks: Blocks, order: seq<string>, lines: seq<Line>, l: Line)
    requires Tallies(blocks, order, lines) && GoodLine(l)
    requires l.location in blocks ==> blocks[l.location].0 == l.statements
    ensures Tallies(Counted(blocks, l), if l.location in blocks then order else order + [l.location], lines + [l])
  {
    var blocks', lines' := Counted(blocks, l), lines + [l];
    assert Locations(lines') == Locations(lines) + {l.location} by {
      LocationsSnoc(lines, l);
    }
    forall loc | loc in blocks' ensures blocks'[loc].1 == Hits(lines', Some(loc)) {
      HitsSnoc(lines, l, Some(loc));
      if loc !in blocks {
        HitsElsewhereIn(blocks, order, lines, loc);
      }
    }
  }

  lemma LocationsSnoc(lines: seq<Line>, l: Line)
    requires l.Block?
    ensures Locations(lines + [l]) == Locations(lines) + {l.location}
  {
    forall x | x in lines + [l] ensures x in lines || x == l {
    }
    assert l in lines + [l];
    forall x | x in lines ensures x in lines + [l] {
    }
  }

  lemma HitsElsewhereIn(blocks: Blocks, order: seq<string>, lines: seq<Line>, loc: string)
    requires Tallies(blocks, order, lines) && loc !in blocks
    ensures Hits(lines, Some(loc)) == 0
  {
    HitsElsewhere(lines, loc);
  }

  // ---------- writing the result ----------

  predicate ByLocation(a: Line, b: Line) {
    a.Block? && (b.Unreadable? || CodeLess(a.location, b.location))
  }

  function Render(order: seq<string>, blocks: Blocks): seq<Line>
    requires forall loc :: loc in order ==> loc in blocks
  {
    if order == [] then []
    else
      var loc := order[|order| - 1];
      Render(order[..|order| - 1], blocks) + [Block(loc, blocks[loc].0, blocks[loc].1)]
  }

  /** The merged profile: the blocks of the input in the order of their locations, each once,
      with the statements the input gives it; and wherever one looks, no hit is lost or added. */
  ghost predicate Merges(merged: seq<Line>, lines: seq<Line>) {
    && GoodLines(merged) && Locations(merged) == Locations(lines)
    && (forall i, j :: 0 <= i < j < |merged| && merged[i].Block? && merged[j].Block? ==> CodeLess(merged[i].location, merged[j].location))
    && (forall i, k :: 0 <= i < |merged| && 0 <= k < |lines| && SameBlock(merged[i], lines[k]) ==> merged[i].statements == lines[k].statements)
    && (forall at :: Hits(merged, at) == Hits(lines, at))
  }

  lemma {:induction false} RenderAt(order: seq<string>, blocks: Blocks)
    requires forall loc :: loc in order ==> loc in blocks
    ensures |Render(order, blocks)| == |order|
    ensures forall i :: 0 <= i < |order| ==> Render(order, blocks)[i] == Block(order[i], blocks[order[i]].0, blocks[order[i]].1)
  {
    if order != [] {
      RenderAt(order[..|order| - 1], blocks);
    }
  }

  /** Sums over the locations are sums over the lines. */
  function HitsByLocation(order: seq<string>, lines: seq<Line>): int {
    if order == [] then 0
    else HitsByLocation(order[..|order| - 1], lines) + Hits(lines, Some(order[|order| - 1]))
  }

  lemma {:induction false} OneMoreLine(order: seq<string>, lines: seq<Line>, l: Line)
    requires NoDup(order) && l.Block?
    ensures HitsByLocation(order, lines + [l]) == HitsByLocation(order, lines) + (if l.location in order then l.hits else 0)
  {
    if order != [] {
      var front, last := order[..|order| - 1], order[|order| - 1];
      assert order == front + [last];
      OneMoreLine(front, lines, l);
      HitsSnoc(lines, l, Some(last));
    }
  }

  lemma {:induction false} NoLines(order: seq<string>)
    ensures HitsByLocation(order, []) == 0
  {
    if order != [] {
      NoLines(order[..|order| - 1]);
    }
  }

  lemma {:induction false} ByLocationIsAll(order: seq<string>, lines: seq<Line>)
    requires NoDup(order) && GoodLines(lines) && forall i :: 0 <= i < |lines| ==> lines[i].location in order
    ensures HitsByLocation(order, lines) == Hits(lines, None)
  {
    if lines == [] {
      NoLines(order);
    } else {
      var front, last := lines[..|lines| - 1], lines[|lines| - 1];
      assert lines == front + [last];
      ByLocationIsAll(order, front);
      OneMoreLine(order, front, last);
    }
  }

  lemma {:induction false} RenderedHits(order: seq<string>, blocks: Blocks, lines: seq<Line>)
    requires NoDup(order) && forall loc :: loc in order ==> loc in blocks && blocks[loc].1 == Hits(lines, Some(loc))
    ensures Hits(Render(order, blocks), None) == HitsByLocation(order, lines)
    ensures forall loc :: Hits(Render(order, blocks), Some(loc)) == if loc in order then Hits(lines, Some(loc)) else 0
  {
    if order != [] {
      var front, last := order[..|order| - 1], order[|order| - 1];
      assert order == front + [last];
      RenderedHits(front, blocks, lines);
    }
  }

  lemma {:induction false} InsertKeepsHits(s: seq<Line>, x: Line, at: Option<string>)
    ensures Hits(InsertLast(ByLocation, s, x), at) == Hits(s + [x], at)
  {
    hide CodeLess, ByLocation, Hits;
    if s != [] && ByLocation(x, s[|s| - 1]) {
      var front := s[..|s| - 1];
      InsertKeepsHits(front, x, at);
      HitsSnoc(front, x, at);
      HitsSnoc(InsertLast(ByLocation, front, x), s[|s| - 1], at);
      HitsSnoc(front, s[|s| - 1], at);
      HitsSnoc(s, x, at);
      assert s == front + [s[|s| - 1]];
    }
  }

  lemma {:induction false} SortKeepsHits(s: seq<Line>, at: Option<string>)
    ensures Hits(StableSort(ByLocation, s), at) == Hits(s, at)
  {
    if s != [] {
      var front := s[..|s| - 1];
      SortKeepsHits(front, at);
      InsertKeepsHits(StableSort(ByLocation, front), s[|s| - 1], at);
      HitsSnoc(StableSort(ByLocation, front), s[|s| - 1], at);
    }
  }

  lemma {:induction false} HitsAreNatural(lines: seq<Line>, at: Option<string>)
    requires GoodLines(lines)
    ensures Hits(lines, at) >= 0
  {
    if lines != [] {
      HitsAreNatural(lines[..|lines| - 1], at);
    }
  }

  lemma ByLocationIsWeak()
    ensures StrictWeak(ByLocation)
  {
    forall a, b | ByLocation(a, b) ensures !ByLocation(b, a) {
      if b.Block? {
        CodeLessAsymmetric(a.location, b.location);
      }
    }
    forall a, b, c | ByLocation(a, c) ensures ByLocation(a, b) || ByLocation(b, c) {
      if b.Block? && c.Block? {
        CodeLessSplits(a.location, b.location, c.location);
      }
    }
  }

  lemma SortedBlocks(s: seq<Line>)
    requires forall i :: 0 <= i < |s| ==> s[i].Block?
    requires forall i, j :: 0 <= i < j < |s| ==> s[i].location != s[j].location
    ensures var r := StableSort(ByLocation, s);
      && (forall l :: l in r <==> l in s)
      && forall i, j :: 0 <= i < j < |r| ==> r[i].Block? && r[j].Block? && CodeLess(r[i].location, r[j].location)
  {
    hide StableSort, CodeLess, NoDup, SortedBy;
    var r := StableSort(ByLocation, s);
    assert NoDup(s) by {
      DistinctLocations(s);
    }
    DistinctByCount(s);
    DistinctByCount(r);
    assert forall l :: l in s <==> l in multiset(s);
    assert forall l :: l in r <==> l in multiset(r);
    ByLocationIsWeak();
    StableSortSorts(ByLocation, s);
    forall i, j | 0 <= i < j < |r| ensures r[i].Block? && r[j].Block? && CodeLess(r[i].location, r[j].location) {
      assert r[i] in s && r[j] in s;
      DifferentAt(r, i, j);
      CodeLessTotal(r[i].location, r[j].location);
      NotLessAt(r, i, j);
    }
  }

  lemma DistinctLocations(s: seq<Line>)
    requires forall i :: 0 <= i < |s| ==> s[i].Block?
    requires forall i, j :: 0 <= i < j < |s| ==> s[i].location != s[j].location
    ensures NoDup(s)
  {
  }

  lemma DifferentAt(r: seq<Line>, i: nat, j: nat)
    requires NoDup(r) && i < j < |r|
    ensures r[i] != r[j]
  {
  }

  lemma NotLessAt(r: seq<Line>, i: nat, j: nat)
    requires SortedBy(ByLocation, r) && i < j < |r|
    ensures !ByLocation(r[j], r[i])
  {
  }

  lemma RenderMerges(blocks: Blocks, order: seq<string>, lines: seq<Line>)
    requires Tallies(blocks, order, lines)
    ensures Merges(StableSort(ByLocation, Render(order, blocks)), lines)
  {
    hide StableSort, Hits, Render, Merges;
    var rendered := Render(order, blocks);
    var merged := StableSort(ByLocation, rendered);
    RenderAt(order, blocks);
    SortedBlocks(rendered);
    RenderedLines(blocks, order, lines, merged);
    forall at ensures Hits(merged, at) == Hits(lines, at) {
      SortKeepsHits(rendered, at);
      RenderedHits(order, blocks, lines);
      if at.Some? {
        if at.value !in order {
          HitsElsewhereIn(blocks, order, lines, at.value);
        }
      } else {
        ByLocationIsAll(order, lines);
      }
    }
    MergesWhen(merged, lines);
  }

  lemma MergesWhen(merged: seq<Line>, lines: seq<Line>)
    requires GoodLines(merged) && Locations(merged) == Locations(lines)
    requires forall i, j :: 0 <= i < j < |merged| ==> merged[i].Block? && merged[j].Block? && CodeLess(merged[i].location, merged[j].location)
    requires forall i, k :: 0 <= i < |merged| && 0 <= k < |lines| && SameBlock(merged[i], lines[k]) ==> merged[i].statements == lines[k].statements
    requires forall at :: Hits(merged, at) == Hits(lines, at)
    ensures Merges(merged, lines)
  {
    hide Hits, Locations;
  }

  lemma RenderedLines(blocks: Blocks, order: seq<string>, lines: seq<Line>, merged: seq<Line>)
    requires Tallies(blocks, order, lines)
    requires |Render(order, blocks)| == |order|
    requires forall i :: 0 <= i < |order| ==> Render(order, blocks)[i] == Block(order[i], blocks[order[i]].0, blocks[order[i]].1)
    requires forall l :: l in merged <==> l in Render(order, blocks)
    ensures GoodLines(merged) && Locations(merged) == Locations(lines)
    ensures forall i, k :: 0 <= i < |merged| && 0 <= k < |lines| && SameBlock(merged[i], lines[k]) ==> merged[i].statements == lines[k].statements
  {
    hide Render, Hits, NoDup;
    forall l | l in merged ensures l.Block? && l.location in blocks && l == Block(l.location, blocks[l.location].0, blocks[l.location].1) && GoodLine(l) {
      var i :| 0 <= i < |order| && Render(order, blocks)[i] == l;
      var loc := order[i];
      var k := SomeLineAt(lines, loc);
      assert blocks[loc].0 == lines[k].statements;
      HitsAreNatural(lines, Some(loc));
    }
    forall loc | loc in Locations(lines) ensures loc in Locations(merged) {
      var k := SomeLineAt(lines, loc);
      var i :| 0 <= i < |order| && order[i] == loc;
      assert Render(order, blocks)[i] in merged;
    }
    forall loc | loc in Locations(merged) ensures loc in Locations(lines) {
      var k := SomeLineAt(merged, loc);
    }
  }

  lemma SomeLineAt(lines: seq<Line>, loc: string) returns (k: nat)
    requires loc in Locations(lines)
    ensures k < |lines| && lines[k].Block? && lines[k].location == loc
  {
    var l :| l in lines && l.Block? && l.location == loc;
    k :| 0 <= k < |lines| && lines[k] == l;
  }

  // ---------- the merge ----------

  lemma AgreePrefix(a: seq<Line>, b: seq<Line>)
    requires Agree(a + b)
    ensures Agree(a)
  {
    forall i, j | 0 <= i < |a| && 0 <= j < |a| && SameBlock(a[i], a[j]) ensures a[i].statements == a[j].statements {
      assert SameBlock((a + b)[i], (a + b)[j]);
    }
  }

  lemma DisagreesWith(blocks: Blocks, order: seq<string>, lines: seq<Line>, l: Line)
    requires Tallies(blocks, order, lines) && GoodLine(l)
    requires l.location in blocks && blocks[l.location].0 != l.statements
    ensures !Agree(lines + [l])
  {
    var k := SomeLineAt(lines, l.location);
    assert SameBlock((lines + [l])[k], (lines + [l])[|lines|]);
  }

  /** The inner loop of `merge`: one profile added to the blocks. */
  method AddProfile(blocks: Blocks, order: seq<string>, ghost done: seq<Line>, lines: seq<Line>)
    returns (error: Option<Error>, blocks': Blocks, order': seq<string>)
    requires Tallies(blocks, order, done)
    ensures error.None? <==> GoodLines(lines) && Agree(done + lines)
    ensures error.None? ==> Tallies(blocks', order', done + lines)
  {
    hide Tallies, Hits, Counted, Agree;
    blocks', order', error := blocks, order, None;
    assert done + lines[..0] == done;
    for j := 0 to |lines|
      invariant Tallies(blocks', order', done + lines[..j])
      invariant GoodLines(lines[..j])
    {
      var line := lines[j];
      assert lines[..j + 1] == lines[..j] + [line];
      assert done + lines[..j + 1] == done + lines[..j] + [line];
      assert done + lines == done + lines[..j + 1] + lines[j + 1..];
      if line.Unreadable? {
        return Some(BadLine), blocks', order';
      }
      if line.hits < 0 || line.statements < 0 {
        return Some(Negative), blocks', order';
      }
      if line.location in blocks' && blocks'[line.location].0 != line.statements {
        DisagreesWith(blocks', order', done + lines[..j], line);
        if Agree(done + lines) {
          AgreePrefix(done + lines[..j + 1], lines[j + 1..]);
        }
        return Some(BlocksDisagree), blocks', order';
      }
      TallySnoc(blocks', order', done + lines[..j], line);
      order' := if line.location in blocks' then order' else order' + [line.location];
      blocks' := Counted(blocks', line);
    }
    assert lines[..|lines|] == lines;
    TalliesAgree(blocks', order', done + lines);
  }

  lemma AllLinesSnoc(folders: Folders, k: nat)
    requires k < |folders| && folders[k].Some?
    ensures AllLines(folders[..k + 1]) == AllLines(folders[..k]) + folders[k].value.profile.lines
    ensures AllSelected(folders[..k + 1]) == AllSelected(folders[..k]) + Elements(folders[k].value.plan.selected)
  {
    assert folders[..k + 1][..k] == folders[..k];
  }

  lemma {:induction false} AllLinesPrefix(folders: Folders, k: nat)
    requires k <= |folders| && Agree(AllLines(folders))
    ensures Agree(AllLines(folders[..k]))
  {
    hide Agree;
    if k == |folders| {
      assert folders[..k] == folders;
    } else {
      var front, last := folders[..|folders| - 1], folders[|folders| - 1];
      AgreePrefix(AllLines(front), if last.Some? then last.value.profile.lines else []);
      AllLinesPrefix(front, k);
      assert front[..k] == folders[..k];
    }
  }

  lemma {:induction false} SelectedBefore(folders: Folders, k: nat, tests: set<Test>)
    requires k <= |folders|
    ensures AllSelected(folders[..k]) !! tests <==>
      forall j :: 0 <= j < k && folders[j].Some? ==> Elements(folders[j].value.plan.selected) !! tests
  {
    if k > 0 {
      SelectedBefore(folders, k - 1, tests);
      assert folders[..k][..k - 1] == folders[..k - 1];
    }
  }

  lemma Unfit(folders: Folders, i: nat, digests: Digests, head: string)
    requires i < |folders| && !FolderFits(folders, i, |folders|, digests)
    ensures !Acceptable(folders, digests, head)
  {
    hide FolderFits, Agree;
  }

  lemma Disagreeing(folders: Folders, k: nat, digests: Digests, head: string)
    requires k <= |folders| && folders != [] && !Agree(AllLines(folders[..k]))
    ensures !Acceptable(folders, digests, head)
  {
    hide FolderFits, Agree, AllLines;
    if Agree(AllLines(folders)) {
      AllLinesPrefix(folders, k);
    }
  }

  lemma TallyIsEmpty(blocks: Blocks, order: seq<string>, lines: seq<Line>)
    requires Tallies(blocks, order, lines)
    ensures order == [] <==> lines == []
  {
    if order != [] {
      assert order[0] in blocks;
      var k := SomeLineAt(lines, order[0]);
    }
    if lines != [] {
      assert lines[0].location in order;
    }
  }

  /** What `merge` checks of one folder before it reads the profile's blocks. */
  method CheckFolder(folders: Folders, index: nat, digests: Digests, allSelected: set<Test>) returns (error: Option<Error>)
    requires index < |folders| && folders[index].Some? && folders[0].Some?
    requires allSelected == AllSelected(folders[..index])
    ensures error.None? && GoodLines(folders[index].value.profile.lines) <==> FolderFits(folders, index, |folders|, digests)
  {
    hide GoodLines, AllSelected;
    var f := folders[index].value;
    var expected := Elements(f.plan.selected);
    SelectedBefore(folders, index, expected);
    if !Provenance(f, index, |folders|, digests) {
      return Some(Error.Provenance);
    }
    if index > 0 && !SameSource(f.plan, folders[0].value.plan) {
      return Some(DifferentSource);
    }
    if Elements(f.complete.executed) != expected || !(allSelected !! expected) {
      return Some(ShardExecution);
    }
    if f.profile.header != Some("mode: atomic") {
      return Some(NotAtomic);
    }
    error := None;
  }

  /** `merge`: it accepts exactly what may be merged, and then writes the merged profile. */
  method Merge(folders: Folders, digests: Digests, head: string) returns (r: Result<seq<Line>>)
    requires folders != []
    ensures r.Ok? <==> Acceptable(folders, digests, head)
    ensures r.Ok? ==> Merges(r.value, AllLines(folders))
  {
    hide FolderFits, Agree, Tallies, Merges, AllLines, AllSelected, Render, StableSort, GoodLines;
    var blocks: Blocks, order: seq<string> := map[], [];
    var allSelected: set<Test> := {};
    EmptyTally(folders);
    for index := 0 to |folders|
      invariant forall i :: 0 <= i < index ==> FolderFits(folders, i, |folders|, digests)
      invariant Tallies(blocks, order, AllLines(folders[..index]))
      invariant allSelected == AllSelected(folders[..index])
      invariant index > 0 ==> folders[0].Some?
    {
      if folders[index].None? {
        MissingIsUnfit(folders, index, digests);
        Unfit(folders, index, digests, head);
        return Err(MissingFolder);
      }
      var bad := CheckFolder(folders, index, digests, allSelected);
      if bad.Some? {
        Unfit(folders, index, digests, head);
        return Err(bad.value);
      }
      AllLinesSnoc(folders, index);
      var f := folders[index].value;
      allSelected := allSelected + Elements(f.plan.selected);
      var error, blocks', order' := AddProfile(blocks, order, AllLines(folders[..index]), f.profile.lines);
      if error.Some? {
        if FolderFits(folders, index, |folders|, digests) {
          Disagreeing(folders, index + 1, digests, head);
        } else {
          Unfit(folders, index, digests, head);
        }
        return Err(error.value);
      }
      blocks, order := blocks', order';
    }
    assert folders[..|folders|] == folders;
    TalliesAgree(blocks, order, AllLines(folders));
    TallyIsEmpty(blocks, order, AllLines(folders));
    if allSelected != Elements(folders[0].value.plan.tests) || order == [] {
      return Err(Incomplete);
    }
    if folders[0].value.plan.tools.commit != head {
      return Err(OtherCheckout);
    }
    RenderMerges(blocks, order, AllLines(folders));
    TallyKeys(blocks, order, AllLines(folders));
    r := Ok(StableSort(ByLocation, Render(order, blocks)));
  }

  lemma EmptyTally(folders: Folders)
    ensures Tallies(map[], [], AllLines(folders[..0])) && AllSelected(folders[..0]) == {}
  {
  }

  lemma MissingIsUnfit(folders: Folders, i: nat, digests: Digests)
    requires i < |folders| && folders[i].None?
    ensures !FolderFits(folders, i, |folders|, digests)
  {
  }

  lemma TallyKeys(blocks: Blocks, order: seq<string>, lines: seq<Line>)
    requires Tallies(blocks, order, lines)
    ensures forall loc :: loc in order ==> loc in blocks
  {
  }

  // ---------- what an accepted merge proves ----------

  function Executions(folders: Folders): seq<seq<Test>>
    requires forall i :: 0 <= i < |folders| ==> folders[i].Some?
  {
    seq(|folders|, (i: int) requires 0 <= i < |folders| => folders[i].value.complete.executed)
  }

  lemma {:induction false} SelectedSomewhere(folders: Folders, t: Test)
    requires t in AllSelected(folders)
    ensures exists i :: 0 <= i < |folders| && folders[i].Some? && t in Elements(folders[i].value.plan.selected)
  {
    var last := folders[|folders| - 1];
    if !(last.Some? && t in Elements(last.value.plan.selected)) {
      SelectedSomewhere(folders[..|folders| - 1], t);
      var i :| 0 <= i < |folders| - 1 && folders[..|folders| - 1][i].Some? && t in Elements(folders[..|folders| - 1][i].value.plan.selected);
      assert folders[i].Some? && t in Elements(folders[i].value.plan.selected);
    }
  }

  lemma {:induction false} SelectedIsPart(folders: Folders, i: nat)
    requires i < |folders| && folders[i].Some?
    ensures Elements(folders[i].value.plan.selected) <= AllSelected(folders)
  {
    if i < |folders| - 1 {
      SelectedIsPart(folders[..|folders| - 1], i);
    }
  }

  lemma FitMeans(folders: Folders, i: nat, digests: Digests, head: string)
    requires folders != [] && Acceptable(folders, digests, head) && i < |folders|
    ensures folders[i].Some? && Elements(folders[i].value.complete.executed) == Elements(folders[i].value.plan.selected)
    ensures forall j :: 0 <= j < i && folders[j].Some? ==> Elements(folders[j].value.plan.selected) !! Elements(folders[i].value.plan.selected)
  {
    hide Agree, GoodLines;
    assert FolderFits(folders, i, |folders|, digests);
  }

  /** If `merge` accepts, every test of the inventory was executed in exactly one shard, and
      nothing else was; and every block's hits are those of all shards together. */
  lemma AcceptedMeansAllRanOnce(folders: Folders, digests: Digests, head: string)
    requires folders != [] && Acceptable(folders, digests, head)
    ensures forall i :: 0 <= i < |folders| ==> folders[i].Some?
    ensures Partition(Executions(folders), folders[0].value.plan.tests)
    ensures forall at :: Hits(AllLines(folders), at) == HitsOfShards(folders, at)
  {
    hide Agree, GoodLines, FolderFits, AllLines, Hits;
    forall i | 0 <= i < |folders| ensures folders[i].Some? {
      FitMeans(folders, i, digests, head);
    }
    var parts, tests := Executions(folders), folders[0].value.plan.tests;
    forall i | 0 <= i < |parts| ensures forall t :: t in parts[i] <==> t in Elements(folders[i].value.plan.selected) {
      FitMeans(folders, i, digests, head);
      assert forall t :: t in parts[i] <==> t in Elements(parts[i]);
    }
    forall t | t in tests ensures exists i :: 0 <= i < |parts| && t in parts[i] {
      assert t in Elements(tests);
      SelectedSomewhere(folders, t);
    }
    forall i | 0 <= i < |parts| ensures forall t :: t in parts[i] ==> t in tests {
      SelectedIsPart(folders, i);
      assert forall t :: t in tests <==> t in Elements(tests);
    }
    forall i, j | 0 <= i < j < |parts| ensures forall t :: t in parts[i] ==> t !in parts[j] {
      FitMeans(folders, j, digests, head);
    }
    forall at ensures Hits(AllLines(folders), at) == HitsOfShards(folders, at) {
      HitsAreSummedOverShards(folders, at);
    }
  }

  // ---------- sharding and merging together ----------

  /** What all `count` shards leave behind when each succeeds. */
  function ShardFolders(listing: seq<GoEvent>, hash: string -> nat, count: nat, tools: Toolchain,
    goTest: string -> seq<GoEvent>, profiles: seq<Profile>, digests: Digests): (folders: Folders)
    requires count > 0 && |profiles| == count
    ensures |folders| == count
  {
    var tests := Inventory(listing);
    seq(count, (i: int) requires 0 <= i < count =>
      Some(FolderOf(PlanOf(tools, tests, hash, i, count), goTest(ShardPattern(Selected(tests, hash, i, count))), profiles[i], digests)))
  }

  /** Sharding loses nothing: for every inventory, hash and shard count, if the go tool runs what
      the patterns find and the profiles can be read and agree, then `merge` accepts. */
  lemma HonestShardsMerge(listing: seq<GoEvent>, hash: string -> nat, count: nat, tools: Toolchain,
    goTest: string -> seq<GoEvent>, profiles: seq<Profile>, digests: Digests)
    requires count > 0 && |profiles| == count && Honest(goTest, Inventory(listing))
    requires forall i :: 0 <= i < count ==> profiles[i].header == Some("mode: atomic") && GoodLines(profiles[i].lines)
    requires var lines := AllLines(ShardFolders(listing, hash, count, tools, goTest, profiles, digests));
      lines != [] && Agree(lines)
    ensures Acceptable(ShardFolders(listing, hash, count, tools, goTest, profiles, digests), digests, tools.commit)
  {
    hide Agree, GoodLines, AllLines, Honest, Inventory, ShardFolders, Selected, Owner, FolderFits;
    var folders := ShardFolders(listing, hash, count, tools, goTest, profiles, digests);
    var tests := Inventory(listing);
    forall i | 0 <= i < count ensures FolderIs(folders[i], tests, hash, i, count, tools, digests) && folders[i].value.profile == profiles[i] {
      HonestFolder(listing, hash, i, count, tools, goTest, profiles, digests);
    }
    forall i | 0 <= i < count ensures FolderFits(folders, i, count, digests) {
      HonestFits(folders, tests, hash, i, tools, digests);
    }
    forall t ensures t in AllSelected(folders) <==> t in Elements(tests) {
      if t in AllSelected(folders) {
        SelectedSomewhere(folders, t);
      }
      if t in tests {
        var k := OwnerOf(hash, count, t.name);
        assert FolderIs(folders[k], tests, hash, k, count, tools, digests);
        SelectedIsPart(folders, k);
        assert t in Elements(folders[k].value.plan.selected);
      }
    }
    assert FolderIs(folders[0], tests, hash, 0, count, tools, digests);
    assert AllSelected(folders) == Elements(tests);
  }

  ghost predicate FolderIs(folder: Option<Folder>, tests: seq<Test>, hash: string -> nat, i: nat, count: nat, tools: Toolchain, digests: Digests)
    requires count > 0
  {
    && folder.Some?
    && var f := folder.value;
      && Provenance(f, i, count, digests) && f.plan.tools == tools && f.plan.tests == tests
      && Elements(f.complete.executed) == Elements(f.plan.selected)
      && forall t :: t in f.plan.selected <==> t in tests && Owner(hash, count, t.name) == i
  }

  lemma HonestFits(folders: Folders, tests: seq<Test>, hash: string -> nat, i: nat, tools: Toolchain, digests: Digests)
    requires i < |folders| && forall k :: 0 <= k < |folders| ==> FolderIs(folders[k], tests, hash, k, |folders|, tools, digests)
    requires folders[i].Some? && folders[i].value.profile.header == Some("mode: atomic") && GoodLines(folders[i].value.profile.lines)
    ensures FolderFits(folders, i, |folders|, digests)
  {
    hide GoodLines, Owner;
    var count := |folders|;
    assert FolderIs(folders[i], tests, hash, i, count, tools, digests) && FolderIs(folders[0], tests, hash, 0, count, tools, digests);
    forall j | 0 <= j < i ensures folders[j].Some? && Elements(folders[j].value.plan.selected) !! Elements(folders[i].value.plan.selected) {
      assert FolderIs(folders[j], tests, hash, j, count, tools, digests);
    }
  }

  lemma OwnerOf(hash: string -> nat, count: nat, name: string) returns (i: nat)
    requires count > 0
    ensures i == Owner(hash, count, name) && i < count
  {
    i := Owner(hash, count, name);
  }

  lemma HonestFolder(listing: seq<GoEvent>, hash: string -> nat, i: nat, count: nat, tools: Toolchain,
    goTest: string -> seq<GoEvent>, profiles: seq<Profile>, digests: Digests)
    requires i < count == |profiles| && Honest(goTest, Inventory(listing))
    ensures var folder := ShardFolders(listing, hash, count, tools, goTest, profiles, digests)[i];
      FolderIs(folder, Inventory(listing), hash, i, count, tools, digests) && folder.value.profile == profiles[i]
  {
    hide Honest, Inventory, ShardPattern, StableSort, Unique, Acted, Selected, Readable, Owner;
    var tests := Inventory(listing);
    HonestRunsArePlanned(listing, hash, i, count, goTest);
    SortedSetIsTheSet(Acted(goTest(ShardPattern(Selected(tests, hash, i, count))), Ended));
    SelectedMembers(tests, hash, i, count);
    var folder := ShardFolders(listing, hash, count, tools, goTest, profiles, digests)[i].value;
    assert folder.plan.selected == Selected(tests, hash, i, count);
  }
}
