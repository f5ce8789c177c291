/** Quota merges of `tools/curator-embed/freeze-corpus-candidates.py`. */
module Candidates {
  import opened Base
  import opened Sequences

  type Id = nat

  /** What index `index` contributes: the lanes that reach it, in order. */
  function Row(lanes: seq<seq<Id>>, index: nat): seq<Id> {
    if lanes == [] then []
    else Row(lanes[..|lanes| - 1], index) +
         (if index < |lanes[|lanes| - 1]| then [lanes[|lanes| - 1][index]] else [])
  }

  /** All lanes read in turns: index by index, lane by lane. */
  function Turns(lanes: seq<seq<Id>>, count: nat): seq<Id> {
    if count == 0 then [] else Turns(lanes, count - 1) + Row(lanes, count - 1)
  }

  function Longest(lanes: seq<seq<Id>>): nat {
    if lanes == [] then 0 else Max(Longest(lanes[..|lanes| - 1]), |lanes[|lanes| - 1]|)
  }

  lemma {:induction false} LongestBounds(lanes: seq<seq<Id>>)
    ensures forall lane :: lane in lanes ==> |lane| <= Longest(lanes)
  {
    if lanes != [] {
      LongestBounds(lanes[..|lanes| - 1]);
      assert lanes == lanes[..|lanes| - 1] + [lanes[|lanes| - 1]];
    }
  }

  function Merged(start: seq<Id>, lanes: seq<seq<Id>>): seq<Id> {
    Unique(start + Turns(lanes, Longest(lanes)))
  }

  /** What a fill loop leaves: everything in turns without repetition, cut where an append first
      makes it `limit` long. */
  function Filled(start: seq<Id>, lanes: seq<seq<Id>>, limit: int): seq<Id> {
    var all := Merged(start, lanes);
    if |start| < limit <= |all| then all[..limit] else all
  }

  /** What the loops have offered to the result after `turn` lanes of index `index`. */
  function Upto(start: seq<Id>, lanes: seq<seq<Id>>, index: nat, turn: nat): seq<Id>
    requires turn <= |lanes|
  {
    start + Turns(lanes, index) + Row(lanes[..turn], index)
  }

  method FillInTurns(start: seq<Id>, lanes: seq<seq<Id>>, limit: int) returns (result: seq<Id>)
    requires NoDup(start)
    ensures result == Filled(start, lanes, limit)
  {
    hide Unique, Upto, Merged, Longest;
    UptoEnds(start, lanes);
    result := start;
    var longest := Longest(lanes);
    var index := 0;
    while index < longest
      invariant index <= longest && result == Unique(Upto(start, lanes, index, 0))
      invariant |start| < limit ==> |result| < limit
      invariant |start| <= |result|
    {
      var turn := 0;
      while turn < |lanes|
        invariant turn <= |lanes|
        invariant result == Unique(Upto(start, lanes, index, turn))
        invariant |start| < limit ==> |result| < limit
        invariant |start| <= |result|
      {
        var lane := lanes[turn];
        UptoStep(start, lanes, index, turn);
        if index < |lane| && lane[index] !in result {
          result := result + [lane[index]];
          if |result| == limit {
            CutHere(start, lanes, index, turn + 1);
            return;
          }
        }
        turn := turn + 1;
      }
      UptoRow(start, lanes, index);
      index := index + 1;
    }
  }

  lemma UptoEnds(start: seq<Id>, lanes: seq<seq<Id>>)
    requires NoDup(start)
    ensures Unique(Upto(start, lanes, 0, 0)) == start
    ensures Unique(Upto(start, lanes, Longest(lanes), 0)) == Merged(start, lanes)
  {
    UniqueKeepsDistinct(start);
    assert lanes[..0] == [] && Upto(start, lanes, 0, 0) == start;
    assert Upto(start, lanes, Longest(lanes), 0) == start + Turns(lanes, Longest(lanes));
  }

  lemma UptoRow(start: seq<Id>, lanes: seq<seq<Id>>, index: nat)
    ensures Upto(start, lanes, index, |lanes|) == Upto(start, lanes, index + 1, 0)
  {
    assert lanes[..|lanes|] == lanes && lanes[..0] == [];
  }

  lemma UptoStep(start: seq<Id>, lanes: seq<seq<Id>>, index: nat, turn: nat)
    requires turn < |lanes|
    ensures var u := Unique(Upto(start, lanes, index, turn));
      Unique(Upto(start, lanes, index, turn + 1)) ==
        if index < |lanes[turn]| && lanes[turn][index] !in u then u + [lanes[turn][index]] else u
  {
    hide Unique;
    assert lanes[..turn + 1][..turn] == lanes[..turn];
    if index < |lanes[turn]| {
      assert Upto(start, lanes, index, turn + 1) == Upto(start, lanes, index, turn) + [lanes[turn][index]];
      UniqueSnoc(Upto(start, lanes, index, turn), lanes[turn][index]);
    } else {
      assert Upto(start, lanes, index, turn + 1) == Upto(start, lanes, index, turn);
    }
  }

  /** What has been collected at any turn is a prefix of the whole merge. */
  lemma CutHere(start: seq<Id>, lanes: seq<seq<Id>>, index: nat, turn: nat)
    requires index < Longest(lanes) && turn <= |lanes|
    ensures Unique(Upto(start, lanes, index, turn)) <= Merged(start, lanes)
  {
    hide Unique, Turns, Row;
    var more := RowPrefix(lanes, turn, index);
    var rest := TurnsPrefix(lanes, index + 1, Longest(lanes));
    var here := Upto(start, lanes, index, turn);
    UniqueGrows(here, more + rest);
    TurnsSnoc(lanes, index);
    Regroup(start, Turns(lanes, index), Row(lanes[..turn], index), more, rest);
  }

  lemma Regroup(a: seq<Id>, b: seq<Id>, c: seq<Id>, d: seq<Id>, e: seq<Id>)
    ensures a + b + c + (d + e) == a + (b + (c + d) + e)
  {
  }

  lemma TurnsSnoc(lanes: seq<seq<Id>>, index: nat)
    ensures Turns(lanes, index + 1) == Turns(lanes, index) + Row(lanes, index)
  {
  }

  lemma {:induction false} RowPrefix(lanes: seq<seq<Id>>, turn: nat, index: nat) returns (more: seq<Id>)
    requires turn <= |lanes|
    ensures Row(lanes, index) == Row(lanes[..turn], index) + more
    decreases |lanes|
  {
    if turn == |lanes| {
      assert lanes[..turn] == lanes;
      more := [];
    } else {
      var front := lanes[..|lanes| - 1];
      more := RowPrefix(front, turn, index);
      assert front[..turn] == lanes[..turn];
      more := more + (if index < |lanes[|lanes| - 1]| then [lanes[|lanes| - 1][index]] else []);
    }
  }

  lemma {:induction false} TurnsPrefix(lanes: seq<seq<Id>>, from: nat, to: nat) returns (more: seq<Id>)
    requires from <= to
    ensures Turns(lanes, to) == Turns(lanes, from) + more
  {
    if from == to {
      more := [];
    } else {
      more := TurnsPrefix(lanes, from, to - 1);
      more := more + Row(lanes, to - 1);
    }
  }

  ghost predicate Offers(lanes: seq<seq<Id>>, index: nat, x: Id) {
    exists lane :: lane in lanes && index < |lane| && lane[index] == x
  }

  lemma {:induction false} RowMembers(lanes: seq<seq<Id>>, index: nat, x: Id)
    ensures x in Row(lanes, index) <==> Offers(lanes, index, x)
  {
    if lanes != [] {
      var front, last := lanes[..|lanes| - 1], lanes[|lanes| - 1];
      RowMembers(front, index, x);
      assert lanes == front + [last];
    }
  }

  lemma {:induction false} TurnsMembers(lanes: seq<seq<Id>>, count: nat, x: Id)
    ensures x in Turns(lanes, count) <==> exists i: nat :: i < count && Offers(lanes, i, x)
  {
    hide Offers, Row;
    if count > 0 {
      TurnsMembers(lanes, count - 1, x);
      RowMembers(lanes, count - 1, x);
    }
  }

  /** The whole merge holds exactly the ids of `start` and of every lane, each once. */
  lemma MergedMembers(start: seq<Id>, lanes: seq<seq<Id>>)
    ensures NoDup(Merged(start, lanes))
    ensures forall x :: x in Merged(start, lanes) <==> x in start || exists lane :: lane in lanes && x in lane
    ensures Unique(start) <= Merged(start, lanes)
  {
    var turns := Turns(lanes, Longest(lanes));
    UniqueIsASet(start + turns);
    UniqueGrows(start, turns);
    LongestBounds(lanes);
    forall x ensures x in Merged(start, lanes) <==> x in start || exists lane :: lane in lanes && x in lane {
      TurnsMembers(lanes, Longest(lanes), x);
      assert x in Merged(start, lanes) <==> x in Elements(start + turns);
      if lane :| lane in lanes && x in lane {
        var i: nat :| i < |lane| && lane[i] == x;
        assert Offers(lanes, i, x);
      }
    }
  }

  /** `interleave`. */
  method Interleave(left: seq<Id>, right: seq<Id>, limit: int) returns (result: seq<Id>)
    ensures result == Filled([], [left, right], limit)
  {
    result := FillInTurns([], [left, right], limit);
  }

  /** `interleave_pages`; without a page there is no longest lane, and the source raises. */
  method InterleavePages(pages: seq<seq<Id>>, limit: int := 60) returns (result: Option<seq<Id>>)
    ensures result == if pages == [] then None else Some(Filled([], pages, limit))
  {
    if pages == [] {
      return None;
    }
    var merged := FillInTurns([], pages, limit);
    result := Some(merged);
  }

  /** A larger limit only appends: the smaller result is a prefix of the larger one. */
  lemma LargerLimitExtends(lanes: seq<seq<Id>>, small: nat, large: nat)
    requires 0 < small <= large
    ensures Filled([], lanes, small) <= Filled([], lanes, large)
    ensures |Filled([], lanes, small)| == Min(small, |Merged([], lanes)|)
    ensures NoDup(Filled([], lanes, small))
  {
    MergedMembers([], lanes);
  }
}
