/** The admission coordinator of `internal/app/maintenance/maintenance.go`.

    `State` and the functions over it say what each locked section does;
    `Coordinator` is the object itself, and every method is tied to its function.
    The lemmas speak of arbitrary sequences of operations. */
module Maintenance {
  import opened Base

  datatype Phase = Accepting | Draining | Drained | Stopping

  datatype Status = Status(phase: Phase, generation: nat, active: nat)

  datatype Error = Cancelled | Paused | WrongOwner | BadToken

  /** `active` maps the id of every admitted, unreleased piece of work to its kind.
      Generation 0 stands for the empty generation of a coordinator that never drained. */
  datatype State = State(
    paused: bool, terminal: bool, generation: nat, owner: nat,
    next: nat, active: map<nat, string>)

  const INITIAL := State(false, false, 0, 0, 0, map[])

  /** One locked operation. `parent` is the token found in the caller's context, if it
      belongs to this coordinator; an owner that is not 64 hexadecimal digits is `None`;
      `generation` in `Start` is the value the random source would hand out. */
  datatype Op =
    | Enter(cancelled: bool, parent: Option<nat>, kind: string)
    | Release(id: nat)
    | Start(owner: Option<nat>, generation: nat)
    | Abort(owner: Option<nat>, generation: nat)
    | Close

  predicate Holds(s: State, parent: Option<nat>) {
    parent.Some? && parent.value in s.active
  }

  predicate Admits(s: State, op: Op)
    requires op.Enter?
  {
    !op.cancelled && (!(s.paused || s.terminal) || Holds(s, op.parent))
  }

  predicate Matches(s: State, op: Op)
    requires op.Abort?
  {
    && !s.terminal && s.paused
    && op.owner == Some(s.owner) && op.generation == s.generation
  }

  function Apply(s: State, op: Op): State {
    match op
    case Enter(_, _, kind) =>
      if Admits(s, op) then s.(next := s.next + 1, active := s.active[s.next + 1 := kind]) else s
    case Release(id) =>
      s.(active := s.active - {id})
    case Start(owner, generation) =>
      if owner.None? || s.terminal || s.paused then s
      else s.(owner := owner.value, generation := generation, paused := true)
    case Abort(_, _) =>
      if Matches(s, op) then s.(paused := false) else s
    case Close =>
      s.(terminal := true)
  }

  function Observe(s: State): Status {
    Status(
      if s.terminal then Stopping
      else if !s.paused then Accepting
      else if |s.active| == 0 then Drained else Draining,
      s.generation, |s.active|)
  }

  function Play(s: State, ops: seq<Op>): State {
    if ops == [] then s else Apply(Play(s, ops[..|ops| - 1]), ops[|ops| - 1])
  }

  // ---------- the object ----------

  class Coordinator {
    var paused: bool
    var terminal: bool
    var generation: nat
    var owner: nat
    var next: nat
    var active: map<nat, string>

    function View(): State
      reads this
    {
      State(paused, terminal, generation, owner, next, active)
    }

    constructor ()
      ensures View() == INITIAL
    {
      paused, terminal, generation, owner, next, active := false, false, 0, 0, 0, map[];
    }

    method TryEnter(cancelled: bool, parent: Option<nat>, kind: string) returns (id: nat, error: Option<Error>)
      modifies this
      ensures View() == Apply(old(View()), Enter(cancelled, parent, kind))
      ensures error.None? <==> Admits(old(View()), Enter(cancelled, parent, kind))
      ensures error.None? ==> id == old(next) + 1
      ensures cancelled ==> error == Some(Cancelled)
      ensures error.Some? && !cancelled ==> error == Some(Paused)
    {
      id, error := 0, None;
      if cancelled {
        return 0, Some(Cancelled);
      }
      var live := parent.Some? && parent.value in active;
      if (paused || terminal) && !live {
        return 0, Some(Paused);
      }
      next := next + 1;
      id := next;
      active := active[id := kind];
    }

    /** The closure TryEnter hands out; calling it again changes nothing. */
    method ReleaseToken(id: nat)
      modifies this
      ensures View() == Apply(old(View()), Release(id))
      ensures id !in active && (id !in old(active) ==> active == old(active))
    {
      if id in active {
        active := active - {id};
      }
      assert id !in old(active) ==> old(active) - {id} == old(active);
    }

    method StartDrain(token: Option<nat>, issued: nat) returns (status: Status, error: Option<Error>)
      modifies this
      ensures View() == Apply(old(View()), Start(token, issued))
      ensures error.None? <==> token.Some? && !old(terminal) && (old(paused) ==> token.value == old(owner))
      ensures error.None? ==> status == Observe(View()) && paused && token == Some(owner)
      ensures error.None? && old(paused) ==> View() == old(View())
    {
      status, error := Status(Accepting, 0, 0), None;
      if token.None? {
        return status, Some(BadToken);
      }
      if terminal {
        status := StatusLocked();
        return status, Some(Paused);
      }
      if paused {
        status := StatusLocked();
        if token.value != owner {
          return status, Some(WrongOwner);
        }
        return status, None;
      }
      owner, generation, paused := token.value, issued, true;
      status := StatusLocked();
    }

    method AbortDrain(token: Option<nat>, expected: nat) returns (status: Status, error: Option<Error>)
      modifies this
      ensures View() == Apply(old(View()), Abort(token, expected))
      ensures error.None? <==> Matches(old(View()), Abort(token, expected))
      ensures token.Some? ==> status == Observe(View())
    {
      status, error := Status(Accepting, 0, 0), None;
      if token.None? {
        return status, Some(BadToken);
      }
      if terminal || !paused || generation != expected || owner != token.value {
        status := StatusLocked();
        return status, Some(WrongOwner);
      }
      paused := false;
      status := StatusLocked();
    }

    method CloseAdmission()
      modifies this
      ensures View() == Apply(old(View()), Close)
    {
      terminal := true;
    }

    method StatusLocked() returns (status: Status)
      ensures status == Observe(View())
    {
      var phase := Accepting;
      if paused {
        phase := Draining;
        if |active| == 0 {
          phase := Drained;
        }
      }
      if terminal {
        phase := Stopping;
      }
      status := Status(phase, generation, |active|);
    }
  }

  // ---------- what holds over every history ----------

  /** Work admitted by a history: the ids TryEnter handed out along the way. */
  function Issued(s: State, ops: seq<Op>): set<nat> {
    if ops == [] then {}
    else
      var before := Play(s, ops[..|ops| - 1]);
      var op := ops[|ops| - 1];
      Issued(s, ops[..|ops| - 1]) + (if op.Enter? && Admits(before, op) then {before.next + 1} else {})
  }

  /** Ids whose release closure has been called. */
  function Released(ops: seq<Op>): set<nat> {
    set i | 0 <= i < |ops| && ops[i].Release? :: ops[i].id
  }

  /** A release closure exists only once its token has been handed out. */
  ghost predicate Causal(s: State, ops: seq<Op>) {
    forall i :: 0 <= i < |ops| && ops[i].Release? ==> ops[i].id in Issued(s, ops[..i])
  }

  lemma {:induction false} CausalPrefix(s: State, ops: seq<Op>)
    requires Causal(s, ops) && ops != []
    ensures Causal(s, ops[..|ops| - 1])
  {
    var front := ops[..|ops| - 1];
    forall i | 0 <= i < |front| && front[i].Release?
      ensures front[i].id in Issued(s, front[..i])
    {
      assert front[..i] == ops[..i];
    }
  }

  lemma ReleasedSnoc(ops: seq<Op>)
    requires ops != []
    ensures var op := ops[|ops| - 1];
      Released(ops) == Released(ops[..|ops| - 1]) + (if op.Release? then {op.id} else {})
  {
    var front, op := ops[..|ops| - 1], ops[|ops| - 1];
    forall id | id in Released(front) ensures id in Released(ops) {
      var i :| 0 <= i < |front| && front[i].Release? && front[i].id == id;
      assert ops[i] == front[i];
    }
    forall id | id in Released(ops) ensures id in Released(front) || (op.Release? && id == op.id) {
      var i :| 0 <= i < |ops| && ops[i].Release? && ops[i].id == id;
      assert i < |front| ==> front[i] == ops[i];
    }
  }

  lemma {:induction false} NotReleasedEarly(s: State, ops: seq<Op>, id: nat)
    requires Causal(s, ops) && id !in Issued(s, ops)
    ensures id !in Released(ops)
  {
    if id in Released(ops) {
      var i :| 0 <= i < |ops| && ops[i].Release? && ops[i].id == id;
      IssuedGrows(s, ops, i);
      assert false;
    }
  }

  /** The table of active work is exactly what was admitted and not yet released, so no
      admitted work is invisible to a drain; and the next id was never handed out before. */
  lemma {:induction false} ActiveIsOutstanding(ops: seq<Op>)
    requires Causal(INITIAL, ops)
    ensures Play(INITIAL, ops).active.Keys == Issued(INITIAL, ops) - Released(ops)
    ensures forall id :: id in Issued(INITIAL, ops) ==> 0 < id <= Play(INITIAL, ops).next
  {
    if ops != [] {
      var front := ops[..|ops| - 1];
      CausalPrefix(INITIAL, ops);
      ActiveIsOutstanding(front);
      ReleasedSnoc(ops);
      NotReleasedEarly(INITIAL, front, Play(INITIAL, front).next + 1);
      ActiveStep(Play(INITIAL, front), ops[|ops| - 1], Issued(INITIAL, front), Released(front));
    }
  }

  lemma ActiveStep(s: State, op: Op, given: set<nat>, back: set<nat>)
    requires s.active.Keys == given - back
    requires s.next + 1 !in back
    requires op.Release? ==> op.id in given
    ensures var given' := given + (if op.Enter? && Admits(s, op) then {s.next + 1} else {});
      var back' := back + (if op.Release? then {op.id} else {});
      Apply(s, op).active.Keys == given' - back'
  {
  }

  lemma {:induction false} IssuedGrows(s: State, ops: seq<Op>, i: nat)
    requires i <= |ops|
    ensures Issued(s, ops[..i]) <= Issued(s, ops)
  {
    if i == |ops| {
      assert ops[..i] == ops;
    } else {
      IssuedGrows(s, ops[..|ops| - 1], i);
      assert ops[..|ops| - 1][..i] == ops[..i];
    }
  }

  /** Whether some operation of the history is the owner ending this very drain. */
  ghost predicate EndedByOwner(s: State, ops: seq<Op>) {
    exists i :: 0 <= i < |ops| && ops[i].Abort? && Matches(Play(s, ops[..i]), ops[i])
  }

  lemma EndedGrows(s: State, ops: seq<Op>)
    requires ops != []
    ensures EndedByOwner(s, ops[..|ops| - 1]) ==> EndedByOwner(s, ops)
  {
    var front := ops[..|ops| - 1];
    if i :| 0 <= i < |front| && front[i].Abort? && Matches(Play(s, front[..i]), front[i]) {
      assert front[..i] == ops[..i] && front[i] == ops[i];
    }
  }

  /** A drain is held until its owner ends it: whatever happens in between, the owner and
      generation stay, and once the coordinator has been seen drained it has no work. */
  lemma {:induction false} DrainIsHeld(s: State, ops: seq<Op>)
    requires s.paused && !EndedByOwner(s, ops)
    ensures var t := Play(s, ops);
      && t.paused && t.owner == s.owner && t.generation == s.generation
      && (s.active == map[] ==> t.active == map[])
      && (s.terminal ==> t.terminal)
  {
    if ops != [] {
      var front, op := ops[..|ops| - 1], ops[|ops| - 1];
      EndedGrows(s, ops);
      DrainIsHeld(s, front);
    }
  }

  /** Exactly the owner reopens a drained coordinator: some continuation leads to admitted
      work if and only if it is not shut down for good. */
  lemma OnlyOwnerReopens(s: State)
    requires Observe(s).phase == Drained || (s.terminal && s.paused && s.active == map[])
    ensures (exists ops :: Play(s, ops).active != map[]) <==> !s.terminal
    ensures forall ops :: Play(s, ops).active != map[] ==> EndedByOwner(s, ops)
  {
    hide Play, EndedByOwner;
    assert s.active == map[];
    forall ops: seq<Op> | Play(s, ops).active != map[]
      ensures EndedByOwner(s, ops) && !s.terminal
    {
      OnlyByTheOwner(s, ops);
    }
    if !s.terminal {
      OwnerCanReopen(s);
    }
  }

  lemma OnlyByTheOwner(s: State, ops: seq<Op>)
    requires s.paused && s.active == map[] && Play(s, ops).active != map[]
    ensures EndedByOwner(s, ops) && !s.terminal
  {
    hide Play;
    if !EndedByOwner(s, ops) {
      DrainIsHeld(s, ops);
    } else if s.terminal {
      var i :| 0 <= i < |ops| && ops[i].Abort? && Matches(Play(s, ops[..i]), ops[i]);
      TerminalStays(s, ops[..i]);
    }
  }

  lemma OwnerCanReopen(s: State)
    requires s.paused && !s.terminal
    ensures exists ops :: Play(s, ops).active != map[]
  {
    var abort, enter := Abort(Some(s.owner), s.generation), Enter(false, None, "");
    var ops := [abort, enter];
    assert ops[..1] == [abort] && ops[..1][..0] == [];
    assert Play(s, ops[..1]) == Apply(s, abort);
    assert s.next + 1 in Play(s, ops).active;
  }

  lemma {:induction false} TerminalStays(s: State, ops: seq<Op>)
    requires s.terminal
    ensures Play(s, ops).terminal
  {
    if ops != [] {
      TerminalStays(s, ops[..|ops| - 1]);
    }
  }

  /** A lost reply is recovered by asking again: until the drain ends, repeating Start with the
      same owner changes nothing and reports the first generation, and a stranger is refused. */
  lemma RepeatedStartIsIdempotent(s: State, owner: nat, first: nat, ops: seq<Op>, again: nat)
    requires !s.paused && !s.terminal
    requires var held := Apply(s, Start(Some(owner), first));
      !EndedByOwner(held, ops) && !Play(held, ops).terminal
    ensures var now := Play(Apply(s, Start(Some(owner), first)), ops);
      && (forall other, g :: Apply(now, Start(other, g)) == now)
      && Observe(now).generation == first && now.owner == owner
  {
    DrainIsHeld(Apply(s, Start(Some(owner), first)), ops);
  }

  /** A delayed abort of an earlier drain cannot end a later one, nor can any abort after Close. */
  lemma StaleAbortIsRefused(s: State, owner: Option<nat>, stale: nat, ops: seq<Op>)
    requires s.paused && stale != s.generation && !EndedByOwner(s, ops)
    ensures Apply(Play(s, ops), Abort(owner, stale)) == Play(s, ops)
  {
    DrainIsHeld(s, ops);
  }
}
