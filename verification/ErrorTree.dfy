/** Error values as the Go code of `tools/nfs-qual/main_linux.go` sees them: leaves, joins and
    wrappers, with `nil` as `None`. */
module ErrorTree {
  import opened Base

  datatype Err =
    | Canceled
    | Fault(code: int)
    | Join(children: seq<Err>)
    | Wrap(child: Option<Err>)

  /** What an error says at its tips. A join without children, or a wrapper around nil, says nothing. */
  datatype Leaf = Cancel | Failure(code: int) | Hollow

  function Leaves(e: Err): (leaves: set<Leaf>)
    ensures leaves != {}
  {
    match e
    case Canceled => {Cancel}
    case Fault(code) => {Failure(code)}
    case Join(children) => if children == [] then {Hollow} else LeavesOfAll(children)
    case Wrap(child) => if child.None? then {Hollow} else Leaves(child.value)
  }

  function LeavesOfAll(es: seq<Err>): (leaves: set<Leaf>)
    ensures es != [] ==> leaves != {}
  {
    if es == [] then {} else Leaves(es[0]) + LeavesOfAll(es[1..])
  }

  /** `onlyCancellation` on an error that is not nil. */
  predicate OnlyCancels(e: Err) {
    match e
    case Canceled => true
    case Fault(_) => false
    case Join(children) => children != [] && forall c :: c in children ==> OnlyCancels(c)
    case Wrap(child) => child.Some? && OnlyCancels(child.value)
  }

  predicate OnlyCancellation(err: Option<Err>) {
    err.Some? && OnlyCancels(err.value)
  }

  /** A tree counts as cancellation exactly when cancellation is all its tips say. */
  lemma {:induction false} OnlyCancelsIsItsLeaves(e: Err)
    ensures OnlyCancels(e) <==> Leaves(e) == {Cancel}
    decreases e
  {
    match e
    case Canceled =>
    case Fault(_) =>
    case Join(children) => AllOnlyCancel(children);
    case Wrap(child) =>
      if child.Some? {
        OnlyCancelsIsItsLeaves(child.value);
      }
  }

  lemma {:induction false} AllOnlyCancel(es: seq<Err>)
    ensures (forall c :: c in es ==> OnlyCancels(c)) <==> LeavesOfAll(es) <= {Cancel}
    decreases es
  {
    if es != [] {
      OnlyCancelsIsItsLeaves(es[0]);
      AllOnlyCancel(es[1..]);
      assert es == [es[0]] + es[1..];
      assert Leaves(es[0]) <= {Cancel} ==> Leaves(es[0]) == {Cancel};
    }
  }

  // ---------- errors.Join ----------

  function NonNil(es: seq<Option<Err>>): seq<Err> {
    if es == [] then [] else (if es[0].Some? then [es[0].value] else []) + NonNil(es[1..])
  }

  function JoinErrors(es: seq<Option<Err>>): Option<Err> {
    var some := NonNil(es);
    if some == [] then None else Some(Join(some))
  }

  function LeavesOf(err: Option<Err>): set<Leaf> {
    if err.None? then {} else Leaves(err.value)
  }

  function UnionOf(es: seq<Option<Err>>): set<Leaf> {
    if es == [] then {} else LeavesOf(es[0]) + UnionOf(es[1..])
  }

  lemma {:induction false} JoinKeepsEveryLeaf(es: seq<Option<Err>>)
    ensures LeavesOf(JoinErrors(es)) == UnionOf(es)
  {
    NonNilLeaves(es);
  }

  lemma {:induction false} NonNilLeaves(es: seq<Option<Err>>)
    ensures LeavesOfAll(NonNil(es)) == UnionOf(es)
  {
    if es != [] {
      NonNilLeaves(es[1..]);
      if es[0].Some? {
        assert NonNil(es)[1..] == NonNil(es[1..]);
      } else {
        assert NonNil(es) == NonNil(es[1..]);
      }
    }
  }
}
