/** Order-preserving selections and duplicate-free sequences. */
module Sequences {
  predicate NoDup<T(==)>(s: seq<T>) {
    forall i, j :: 0 <= i < j < |s| ==> s[i] != s[j]
  }

  function Elements<T>(s: seq<T>): set<T> {
    set x | x in s
  }

  /** `s` can be obtained from `t` by leaving elements out. */
  predicate Subseq<T(==)>(s: seq<T>, t: seq<T>) {
    s == [] ||
    (t != [] &&
     ((s[|s| - 1] == t[|t| - 1] && Subseq(s[..|s| - 1], t[..|t| - 1])) || Subseq(s, t[..|t| - 1])))
  }

  lemma SubseqSnoc<T>(s: seq<T>, t: seq<T>, x: T)
    requires Subseq(s, t)
    ensures Subseq(s, t + [x]) && Subseq(s + [x], t + [x])
  {
    assert (t + [x])[..|t|] == t && (s + [x])[..|s|] == s;
  }

  lemma {:induction false} SubseqGrows<T>(s: seq<T>, t: seq<T>, u: seq<T>)
    requires Subseq(s, t)
    ensures Subseq(s, t + u)
    decreases |u|
  {
    hide Subseq;
    if u == [] {
      assert t + u == t;
    } else {
      SubseqGrows(s, t, u[..|u| - 1]);
      SubseqSnoc(s, t + u[..|u| - 1], u[|u| - 1]);
      assert t + u == t + u[..|u| - 1] + [u[|u| - 1]];
    }
  }

  lemma {:induction false} SubseqMembers<T>(s: seq<T>, t: seq<T>)
    requires Subseq(s, t)
    ensures |s| <= |t| && (forall x :: x in s ==> x in t)
    ensures NoDup(t) ==> NoDup(s)
    decreases |t|
  {
    if s != [] {
      var s', t' := s[..|s| - 1], t[..|t| - 1];
      if s[|s| - 1] == t[|t| - 1] && Subseq(s', t') {
        SubseqMembers(s', t');
        assert s == s' + [s[|s| - 1]];
        if NoDup(t) {
          assert NoDup(t');
          assert t[|t| - 1] !in t';
        }
      } else {
        SubseqMembers(s, t');
        assert NoDup(t) ==> NoDup(t');
      }
    }
  }

  lemma {:induction false} SubseqRefl<T>(s: seq<T>)
    ensures Subseq(s, s)
  {
    if s != [] {
      SubseqRefl(s[..|s| - 1]);
    }
  }

  lemma {:induction false} NoDupSize<T>(s: seq<T>)
    requires NoDup(s)
    ensures |Elements(s)| == |s|
  {
    if s != [] {
      var s', x := s[..|s| - 1], s[|s| - 1];
      NoDupSize(s');
      assert s == s' + [x];
      assert Elements(s) == Elements(s') + {x};
      assert x !in s';
    }
  }

  lemma SubsetSize<T>(a: set<T>, b: set<T>)
    requires a <= b
    ensures |a| <= |b|
  {
    assert b == a + (b - a);
  }

  lemma {:induction false} DistinctByCount<T>(s: seq<T>)
    ensures NoDup(s) <==> forall x :: multiset(s)[x] <= 1
  {
    if s != [] {
      var front, last := s[..|s| - 1], s[|s| - 1];
      DistinctByCount(front);
      assert s == front + [last];
      assert multiset(s) == multiset(front) + multiset{last};
      assert NoDup(s) <==> NoDup(front) && last !in front by {
        if last in front {
          var i :| 0 <= i < |front| && front[i] == last;
          assert s[i] == s[|s| - 1];
        }
      }
      assert multiset(s)[last] == multiset(front)[last] + 1;
      assert forall x :: x != last ==> multiset(s)[x] == multiset(front)[x];
    }
  }

  lemma NoDupParts<T>(a: seq<T>, b: seq<T>)
    requires NoDup(a + b)
    ensures NoDup(a) && NoDup(b) && forall x :: x in a ==> x !in b
  {
    var ab := a + b;
    forall i, j | 0 <= i < j < |a| ensures a[i] != a[j] {
      assert ab[i] != ab[j];
    }
    forall i, j | 0 <= i < j < |b| ensures b[i] != b[j] {
      assert ab[|a| + i] != ab[|a| + j];
    }
    forall i, j | 0 <= i < |a| && 0 <= j < |b| ensures a[i] != b[j] {
      assert ab[i] != ab[|a| + j];
    }
  }

  lemma NoDupConcat<T>(a: seq<T>, b: seq<T>)
    requires NoDup(a) && NoDup(b) && forall x :: x in a ==> x !in b
    ensures NoDup(a + b)
  {
    forall i, j | 0 <= i < j < |a + b| ensures (a + b)[i] != (a + b)[j] {
      if i < |a| <= j {
        assert a[i] in a && b[j - |a|] in b;
      }
    }
  }

  /** `list(dict.fromkeys(ids))`: the first occurrences, in order. */
  function Unique<T(==)>(ids: seq<T>): seq<T> {
    if ids == [] then []
    else
      var front, last := Unique(ids[..|ids| - 1]), ids[|ids| - 1];
      if last in front then front else front + [last]
  }

  lemma UniqueSnoc<T>(ids: seq<T>, x: T)
    ensures Unique(ids + [x]) == if x in Unique(ids) then Unique(ids) else Unique(ids) + [x]
  {
    assert (ids + [x])[..|ids|] == ids;
  }

  lemma {:induction false} UniqueIsASet<T>(ids: seq<T>)
    ensures NoDup(Unique(ids)) && Elements(Unique(ids)) == Elements(ids) && Subseq(Unique(ids), ids)
  {
    if ids != [] {
      var front, last := ids[..|ids| - 1], ids[|ids| - 1];
      UniqueIsASet(front);
      assert ids == front + [last];
      assert Elements(ids) == Elements(front) + {last};
      if last !in Unique(front) {
        SubseqSnoc(Unique(front), front, last);
        assert Elements(Unique(front) + [last]) == Elements(Unique(front)) + {last};
      } else {
        SubseqSnoc(Unique(front), front, last);
        assert last in Elements(Unique(front));
      }
    }
  }

  lemma {:induction false} UniqueGrows<T>(a: seq<T>, b: seq<T>)
    ensures Unique(a) <= Unique(a + b)
    decreases |b|
  {
    if b == [] {
      assert a + b == a;
    } else {
      UniqueGrows(a, b[..|b| - 1]);
      UniqueSnoc(a + b[..|b| - 1], b[|b| - 1]);
      assert a + b == a + b[..|b| - 1] + [b[|b| - 1]];
    }
  }

  lemma {:induction false} UniqueKeepsDistinct<T>(ids: seq<T>)
    requires NoDup(ids)
    ensures Unique(ids) == ids
  {
    if ids != [] {
      UniqueKeepsDistinct(ids[..|ids| - 1]);
    }
  }

  /** `Unique` keeps the order of first occurrences: some occurrence of an earlier element comes
      before every occurrence of a later one. */
  lemma {:induction false} UniqueOrder<T>(s: seq<T>, i: nat, j: nat) returns (p: nat)
    requires i < j < |Unique(s)|
    ensures p < |s| && s[p] == Unique(s)[i]
    ensures forall q :: 0 <= q < |s| && s[q] == Unique(s)[j] ==> p < q
  {
    var front, last := s[..|s| - 1], s[|s| - 1];
    UniqueIsASet(front);
    assert forall k :: 0 <= k < |front| ==> front[k] == s[k];
    if j < |Unique(front)| {
      p := UniqueOrder(front, i, j);
    } else {
      assert Unique(front)[i] in Elements(Unique(front));
      p :| 0 <= p < |front| && front[p] == Unique(front)[i];
      assert forall q :: 0 <= q < |front| ==> front[q] in Elements(Unique(front));
      assert Unique(s)[j] == last;
    }
  }
}
