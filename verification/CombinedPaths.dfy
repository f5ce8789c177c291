/** The disjoint theme and seed paths of a combined query, and the candidates drawn from them
    (`tools/curator-embed/freeze-corpus-candidates.py`). */
module CombinedPaths {
  import opened Base
  import opened Sequences
  import opened Candidates

  datatype Paths = Paths(theme: seq<Id>, seed: seq<Id>)

  function Total(p: Paths): nat {
    |p.theme| + |p.seed|
  }

  predicate Taken(p: Paths, id: Id) {
    id in p.theme || id in p.seed
  }

  /** `[id for id in source if id not in set(taken)]`. */
  function Fresh(source: seq<Id>, taken: seq<Id>): seq<Id> {
    if source == [] then []
    else Fresh(source[..|source| - 1], taken) +
         (if source[|source| - 1] in taken then [] else [source[|source| - 1]])
  }

  /** The first row of `source`, from index `at` on, that neither path holds. */
  function FirstNew(source: seq<Id>, p: Paths, at: nat): Option<nat>
    decreases |source| - at
  {
    if at >= |source| then None
    else if !Taken(p, source[at]) then Some(at)
    else FirstNew(source, p, at + 1)
  }

  function AddTheme(p: Paths, theme: seq<Id>): Paths {
    var k := FirstNew(theme, p, 0);
    if k.Some? && k.value < |theme| then p.(theme := p.theme + [theme[k.value]]) else p
  }

  function AddSeed(p: Paths, seed: seq<Id>): Paths {
    var k := FirstNew(seed, p, 0);
    if k.Some? && k.value < |seed| then p.(seed := p.seed + [seed[k.value]]) else p
  }

  /** The fill loop: one row for each path in turn, until 60 are placed or none is left. */
  function FillPaths(p: Paths, theme: seq<Id>, seed: seq<Id>): Paths
    decreases 60 - Total(p)
  {
    if Total(p) >= 60 then p
    else
      var q := AddTheme(p, theme);
      if Total(q) == 60 then q
      else
        var r := AddSeed(q, seed);
        if r == p then r else FillPaths(r, theme, seed)
  }

  function Start(theme: seq<Id>, seed: seq<Id>): Paths {
    var path := theme[..Min(30, |theme|)];
    var rest := Fresh(seed, path);
    Paths(path, rest[..Min(30, |rest|)])
  }

  function PathsOf(theme: seq<Id>, seed: seq<Id>): Paths {
    FillPaths(Start(theme, seed), theme, seed)
  }

  // ---------- the loops ----------

  method FindNew(source: seq<Id>, p: Paths) returns (k: Option<nat>)
    ensures k == FirstNew(source, p, 0) && (k.Some? ==> k.value < |source|)
  {
    var at := 0;
    while at < |source|
      invariant at <= |source| && FirstNew(source, p, 0) == FirstNew(source, p, at)
    {
      if source[at] !in p.theme && source[at] !in p.seed {
        return Some(at);
      }
      at := at + 1;
    }
    k := None;
  }

  method CombinedPaths(theme: seq<Id>, seed: seq<Id>) returns (p: Paths)
    ensures p == PathsOf(theme, seed)
  {
    p := Start(theme, seed);
    while Total(p) < 60
      invariant FillPaths(p, theme, seed) == PathsOf(theme, seed)
      decreases 60 - Total(p)
    {
      var added := false;
      var k := FindNew(theme, p);
      if k.Some? {
        p := p.(theme := p.theme + [theme[k.value]]);
        added := true;
      }
      if Total(p) < 60 {
        k := FindNew(seed, p);
        if k.Some? {
          p := p.(seed := p.seed + [seed[k.value]]);
          added := true;
        }
      }
      if !added {
        break;
      }
    }
  }

  // ---------- what the paths are ----------

  /** The path is a selection, in order, of a scanned part of its source, and everything in that
      part is on one of the paths. */
  ghost predicate Scanned(path: seq<Id>, source: seq<Id>, upto: nat, p: Paths) {
    upto <= |source| && Subseq(path, source[..upto]) && forall i :: 0 <= i < upto ==> Taken(p, source[i])
  }

  ghost predicate Good(p: Paths, theme: seq<Id>, seed: seq<Id>) {
    && NoDup(p.theme) && NoDup(p.seed) && (forall id :: id in p.theme ==> id !in p.seed)
    && (exists f: nat :: Scanned(p.theme, theme, f, p)) && (exists f: nat :: Scanned(p.seed, seed, f, p))
    && Total(p) <= 60
  }

  ghost predicate Exhausted(p: Paths, theme: seq<Id>, seed: seq<Id>) {
    forall id :: id in theme || id in seed ==> Taken(p, id)
  }

  lemma {:induction false} FirstNewIsFirst(source: seq<Id>, p: Paths, at: nat)
    requires at <= |source|
    ensures var k := FirstNew(source, p, at);
      if k.None? then forall i :: at <= i < |source| ==> Taken(p, source[i])
      else at <= k.value < |source| && !Taken(p, source[k.value]) && forall i :: at <= i < k.value ==> Taken(p, source[i])
    decreases |source| - at
  {
    if at < |source| && Taken(p, source[at]) {
      FirstNewIsFirst(source, p, at + 1);
    }
  }

  lemma ScanOn(path: seq<Id>, source: seq<Id>, f: nat, p: Paths, k: nat)
    requires Scanned(path, source, f, p) && f <= k < |source| && !Taken(p, source[k])
    ensures Subseq(path + [source[k]], source[..k + 1])
  {
    hide Subseq;
    SubseqGrows(path, source[..f], source[f..k]);
    assert source[..f] + source[f..k] == source[..k];
    SubseqSnoc(path, source[..k], source[k]);
    assert source[..k] + [source[k]] == source[..k + 1];
  }

  lemma AddThemeKeepsGood(p: Paths, theme: seq<Id>, seed: seq<Id>)
    requires Good(p, theme, seed) && Total(p) < 60
    ensures Good(AddTheme(p, theme), theme, seed)
    ensures AddTheme(p, theme) == p ==> forall id :: id in theme ==> Taken(p, id)
  {
    hide Subseq;
    FirstNewIsFirst(theme, p, 0);
    var k := FirstNew(theme, p, 0);
    if k.Some? {
      var q := AddTheme(p, theme);
      var f: nat :| Scanned(p.theme, theme, f, p);
      var g: nat :| Scanned(p.seed, seed, g, p);
      assert f <= k.value;
      ScanOn(p.theme, theme, f, p, k.value);
      assert Scanned(q.theme, theme, k.value + 1, q);
      assert Scanned(q.seed, seed, g, q);
      assert |q.theme| == |p.theme| + 1;
    }
  }

  lemma AddSeedKeepsGood(p: Paths, theme: seq<Id>, seed: seq<Id>)
    requires Good(p, theme, seed) && Total(p) < 60
    ensures Good(AddSeed(p, seed), theme, seed)
    ensures AddSeed(p, seed) == p ==> forall id :: id in seed ==> Taken(p, id)
  {
    hide Subseq;
    FirstNewIsFirst(seed, p, 0);
    var k := FirstNew(seed, p, 0);
    if k.Some? {
      var q := AddSeed(p, seed);
      var f: nat :| Scanned(p.seed, seed, f, p);
      var g: nat :| Scanned(p.theme, theme, g, p);
      assert f <= k.value;
      ScanOn(p.seed, seed, f, p, k.value);
      assert Scanned(q.seed, seed, k.value + 1, q);
      assert Scanned(q.theme, theme, g, q);
      assert |q.seed| == |p.seed| + 1;
    }
  }

  lemma {:induction false} FillKeepsGood(p: Paths, theme: seq<Id>, seed: seq<Id>)
    requires Good(p, theme, seed)
    ensures var q := FillPaths(p, theme, seed);
      && Good(q, theme, seed) && (Total(q) == 60 || Exhausted(q, theme, seed))
      && p.theme <= q.theme && p.seed <= q.seed
    decreases 60 - Total(p)
  {
    hide Good;
    if Total(p) < 60 {
      var q := AddTheme(p, theme);
      AddThemeKeepsGood(p, theme, seed);
      if Total(q) < 60 {
        AddSeedKeepsGood(q, theme, seed);
        var r := AddSeed(q, seed);
        if r != p {
          FillKeepsGood(r, theme, seed);
        }
      } else {
        WithinSixty(q, theme, seed);
      }
    } else {
      WithinSixty(p, theme, seed);
    }
  }

  lemma WithinSixty(p: Paths, theme: seq<Id>, seed: seq<Id>)
    requires Good(p, theme, seed)
    ensures Total(p) <= 60
  {
  }

  lemma {:induction false} FreshIsSelection(source: seq<Id>, taken: seq<Id>)
    ensures Subseq(Fresh(source, taken), source)
  {
    hide Subseq;
    if source == [] {
      SubseqRefl(source);
    } else {
      var front, last := source[..|source| - 1], source[|source| - 1];
      FreshIsSelection(front, taken);
      SubseqSnoc(Fresh(front, taken), front, last);
      assert source == front + [last];
      assert Fresh(front, taken) + [] == Fresh(front, taken);
    }
  }

  lemma {:induction false} FreshMembers(source: seq<Id>, taken: seq<Id>)
    ensures forall id :: id in Fresh(source, taken) <==> id in source && id !in taken
  {
    if source != [] {
      FreshMembers(source[..|source| - 1], taken);
      assert source == source[..|source| - 1] + [source[|source| - 1]];
    }
  }

  /** Where the scan of `source` stands once the first `n` fresh rows are found. */
  lemma {:induction false} FreshFrontier(source: seq<Id>, taken: seq<Id>, n: nat) returns (f: nat)
    ensures f <= |source| && Fresh(source[..f], taken) == Fresh(source, taken)[..Min(n, |Fresh(source, taken)|)]
  {
    if |Fresh(source, taken)| <= n {
      f := |source|;
      assert source[..f] == source;
    } else {
      var front := source[..|source| - 1];
      f := FreshFrontier(front, taken, n);
      assert front[..f] == source[..f];
    }
  }

  lemma StartIsGood(theme: seq<Id>, seed: seq<Id>)
    requires NoDup(theme) && NoDup(seed)
    ensures Good(Start(theme, seed), theme, seed)
  {
    hide Subseq;
    var p := Start(theme, seed);
    var n := Min(30, |theme|);
    SubseqRefl(theme[..n]);
    assert Scanned(p.theme, theme, n, p);
    var f := FreshFrontier(seed, p.theme, 30);
    FreshIsSelection(seed[..f], p.theme);
    FreshMembers(seed[..f], p.theme);
    assert p.seed == Fresh(seed[..f], p.theme);
    SubseqMembers(p.seed, seed[..f]);
    forall i | 0 <= i < f ensures Taken(p, seed[i]) {
      assert seed[i] in seed[..f];
    }
    assert Scanned(p.seed, seed, f, p);
  }

  /** The two paths: disjoint, duplicate-free, each in the order of its source, holding the first
      rows of each, and together as many of the offered ids as fit into 60. */
  lemma PathsShareTheSlots(theme: seq<Id>, seed: seq<Id>)
    requires NoDup(theme) && NoDup(seed)
    ensures var p := PathsOf(theme, seed);
      && NoDup(p.theme + p.seed) && Subseq(p.theme, theme) && Subseq(p.seed, seed)
      && Total(p) == Min(60, |Elements(theme) + Elements(seed)|)
      && Start(theme, seed).theme <= p.theme && Start(theme, seed).seed <= p.seed
  {
    hide Subseq, FillPaths;
    StartIsGood(theme, seed);
    FillKeepsGood(Start(theme, seed), theme, seed);
    var p := PathsOf(theme, seed);
    var f: nat :| Scanned(p.theme, theme, f, p);
    var g: nat :| Scanned(p.seed, seed, g, p);
    SubseqGrows(p.theme, theme[..f], theme[f..]);
    SubseqGrows(p.seed, seed[..g], seed[g..]);
    assert theme[..f] + theme[f..] == theme && seed[..g] + seed[g..] == seed;
    SubseqMembers(p.theme, theme);
    SubseqMembers(p.seed, seed);
    NoDupConcat(p.theme, p.seed);
    CountTaken(p, theme, seed);
  }

  lemma CountTaken(p: Paths, theme: seq<Id>, seed: seq<Id>)
    requires NoDup(p.theme + p.seed) && Total(p) <= 60
    requires forall id :: Taken(p, id) ==> id in theme || id in seed
    requires Total(p) == 60 || Exhausted(p, theme, seed)
    ensures Total(p) == Min(60, |Elements(theme) + Elements(seed)|)
  {
    var mine, offered := Elements(p.theme + p.seed), Elements(theme) + Elements(seed);
    NoDupSize(p.theme + p.seed);
    forall id | id in mine ensures id in offered {
      assert Taken(p, id);
    }
    SubsetSize(mine, offered);
    if Exhausted(p, theme, seed) {
      assert mine == offered;
    }
  }
}
