/** The priority token-bucket scheduler of `tools/curator-embed/bench-scheduler.go`.

    `Do` says what one step of the scheduler goroutine does; `Scheduler` is the goroutine's own
    state with `DispatchOne` and its loop; the lemmas speak of every sequence of steps. */
module Scheduler {
  import opened Base
  import opened Sequences

  const MASTER_BURST: nat := 10
  const REC_BURST: nat := 4

  datatype State = State(normals: seq<nat>, recs: seq<nat>, master: nat, sub: nat)

  const INITIAL := State([], [], MASTER_BURST, REC_BURST)

  datatype Grant = Grant(recommendation: bool, id: nat)

  /** `seen` holds the requests whose context was found cancelled when this call looked at them. */
  datatype Step =
    | Receive(recommendation: bool, id: nat)
    | TryDispatch(seen: set<nat>)
    | MasterTick
    | SubTick

  function Purge(queue: seq<nat>, seen: set<nat>): seq<nat> {
    if queue != [] && queue[0] in seen then Purge(queue[1..], seen) else queue
  }

  function Purged(s: State, seen: set<nat>): State {
    s.(normals := Purge(s.normals, seen), recs := Purge(s.recs, seen))
  }

  function Granted(s: State, seen: set<nat>): Option<Grant> {
    var p := Purged(s, seen);
    if p.master > 0 && p.normals != [] then Some(Grant(false, p.normals[0]))
    else if p.master > 0 && p.sub > 0 && p.recs != [] then Some(Grant(true, p.recs[0]))
    else None
  }

  function Do(s: State, step: Step): State {
    match step
    case Receive(recommendation, id) =>
      if recommendation then s.(recs := s.recs + [id]) else s.(normals := s.normals + [id])
    case TryDispatch(seen) =>
      var p := Purged(s, seen);
      (match Granted(s, seen)
       case None => p
       case Some(g) =>
         if g.recommendation then p.(recs := p.recs[1..], master := p.master - 1, sub := p.sub - 1)
         else p.(normals := p.normals[1..], master := p.master - 1))
    case MasterTick => s.(master := if s.master < MASTER_BURST then s.master + 1 else s.master)
    case SubTick => s.(sub := if s.sub < REC_BURST then s.sub + 1 else s.sub)
  }

  function Play(steps: seq<Step>): State {
    if steps == [] then INITIAL else Do(Play(steps[..|steps| - 1]), steps[|steps| - 1])
  }

  function GrantAt(s: State, step: Step): seq<Grant> {
    if step.TryDispatch? && Granted(s, step.seen).Some? then [Granted(s, step.seen).value] else []
  }

  /** All grants of a history, in order. */
  function Grants(steps: seq<Step>): seq<Grant> {
    if steps == [] then []
    else Grants(steps[..|steps| - 1]) + GrantAt(Play(steps[..|steps| - 1]), steps[|steps| - 1])
  }

  function Ids(grants: seq<Grant>, recommendation: bool): seq<nat> {
    if grants == [] then []
    else
      var g := grants[|grants| - 1];
      Ids(grants[..|grants| - 1], recommendation) + (if g.recommendation == recommendation then [g.id] else [])
  }

  function Received(steps: seq<Step>, recommendation: bool): seq<nat> {
    if steps == [] then []
    else
      var step := steps[|steps| - 1];
      Received(steps[..|steps| - 1], recommendation) +
      (if step.Receive? && step.recommendation == recommendation then [step.id] else [])
  }

  function Count(steps: seq<Step>, what: Step): nat {
    if steps == [] then 0 else Count(steps[..|steps| - 1], what) + (if steps[|steps| - 1] == what then 1 else 0)
  }

  function Queue(s: State, recommendation: bool): seq<nat> {
    if recommendation then s.recs else s.normals
  }

  // ---------- the goroutine ----------

  /** One turn of the loop: what the channels hold, which contexts are cancelled when looked at,
      and what wakes the loop if it has to block (None: stop). */
  datatype Round = Round(waiting: seq<Step>, seen: set<nat>, wake: Option<Step>)

  predicate WellFormed(r: Round) {
    (forall w :: w in r.waiting ==> w.Receive?) && (r.wake.Some? ==> !r.wake.value.TryDispatch?)
  }

  /** What the loop does in these turns: take what waits, try to grant one request, and only if
      none was granted wait for the next event. */
  function Script(steps: seq<Step>, rounds: seq<Round>): seq<Step>
    decreases |rounds|
  {
    if rounds == [] then steps
    else
      var r := rounds[0];
      var tried := steps + r.waiting + [TryDispatch(r.seen)];
      if Granted(Play(steps + r.waiting), r.seen).Some? then Script(tried, rounds[1..])
      else if r.wake.None? then tried
      else Script(tried + [r.wake.value], rounds[1..])
  }

  class Scheduler {
    var normals: seq<nat>
    var recs: seq<nat>
    var masterTokens: int
    var recTokens: int
    ghost var steps: seq<Step>

    ghost predicate Valid()
      reads this
    {
      && 0 <= masterTokens <= MASTER_BURST && 0 <= recTokens <= REC_BURST
      && State(normals, recs, masterTokens, recTokens) == Play(steps)
    }

    constructor ()
      ensures Valid() && steps == []
    {
      normals, recs, masterTokens, recTokens, steps := [], [], MASTER_BURST, REC_BURST, [];
    }

    method DispatchOne(seen: set<nat>) returns (grant: Option<Grant>)
      requires Valid()
      modifies this
      ensures Valid() && steps == old(steps) + [TryDispatch(seen)]
      ensures grant == Granted(Play(old(steps)), seen)
    {
      ghost var before := Play(steps);
      while |normals| > 0 && normals[0] in seen
        invariant Purge(normals, seen) == Purge(before.normals, seen)
        invariant recs == old(recs) && masterTokens == old(masterTokens) && recTokens == old(recTokens) && steps == old(steps)
      {
        normals := normals[1..];
      }
      while |recs| > 0 && recs[0] in seen
        invariant Purge(recs, seen) == Purge(before.recs, seen) && normals == Purge(before.normals, seen)
        invariant masterTokens == old(masterTokens) && recTokens == old(recTokens) && steps == old(steps)
      {
        recs := recs[1..];
      }
      grant := None;
      if masterTokens > 0 && |normals| > 0 {
        grant := Some(Grant(false, normals[0]));
        normals := normals[1..];
        masterTokens := masterTokens - 1;
      } else if masterTokens > 0 && recTokens > 0 && |recs| > 0 {
        grant := Some(Grant(true, recs[0]));
        recs := recs[1..];
        masterTokens := masterTokens - 1;
        recTokens := recTokens - 1;
      }
      steps := steps + [TryDispatch(seen)];
      assert steps[..|steps| - 1] == old(steps);
    }

    method Enqueue(recommendation: bool, id: nat)
      requires Valid()
      modifies this
      ensures Valid() && steps == old(steps) + [Receive(recommendation, id)]
    {
      if recommendation {
        recs := recs + [id];
      } else {
        normals := normals + [id];
      }
      steps := steps + [Receive(recommendation, id)];
      assert steps[..|steps| - 1] == old(steps);
    }

    method Wake(event: Step)
      requires Valid() && !event.TryDispatch?
      modifies this
      ensures Valid() && steps == old(steps) + [event]
    {
      match event {
        case Receive(recommendation, id) => Enqueue(recommendation, id);
        case MasterTick =>
          if masterTokens < 10 {
            masterTokens := masterTokens + 1;
          }
          steps := steps + [event];
        case SubTick =>
          if recTokens < 4 {
            recTokens := recTokens + 1;
          }
          steps := steps + [event];
      }
      assert steps[..|steps| - 1] == old(steps);
    }

    /** The inner select: take what the channels hold. */
    method Drain(waiting: seq<Step>)
      requires Valid() && Disciplined(steps)
      requires forall w :: w in waiting ==> w.Receive?
      modifies this
      ensures Valid() && Disciplined(steps) && steps == old(steps) + waiting
    {
      hide Play;
      var next := 0;
      while next < |waiting|
        invariant next <= |waiting|
        invariant Valid() && Disciplined(steps) && steps == old(steps) + waiting[..next]
      {
        assert waiting[next] in waiting;
        var item := waiting[next];
        DisciplinedSnoc(steps, item);
        Enqueue(item.recommendation, item.id);
        next := next + 1;
      }
    }

    /** The loop: drain the channels, dispatch one request, block only if none was dispatched. */
    method Run(rounds: seq<Round>)
      requires Valid() && Disciplined(steps)
      requires forall r :: r in rounds ==> WellFormed(r)
      modifies this
      ensures Valid() && Disciplined(steps) && steps == Script(old(steps), rounds)
    {
      hide Play, Granted, Disciplined;
      var turn := 0;
      assert rounds[0..] == rounds;
      while turn < |rounds|
        invariant turn <= |rounds|
        invariant Valid() && Disciplined(steps) && Script(steps, rounds[turn..]) == Script(old(steps), rounds)
      {
        var r := rounds[turn];
        assert r in rounds;
        assert rounds[turn..][0] == r && rounds[turn..][1..] == rounds[turn + 1..];
        turn := turn + 1;
        Drain(r.waiting);
        DisciplinedSnoc(steps, TryDispatch(r.seen));
        ghost var before := steps;
        var grant := DispatchOne(r.seen);
        if grant.Some? {
          continue;
        }
        if r.wake.None? {
          return;
        }
        assert steps[..|steps| - 1] == before;
        assert Idle(steps);
        DisciplinedSnoc(steps, r.wake.value);
        Wake(r.wake.value);
      }
    }
  }

  /** The last step tried to dispatch and found nothing to grant. */
  ghost predicate Idle(steps: seq<Step>) {
    && steps != [] && steps[|steps| - 1].TryDispatch?
    && Granted(Play(steps[..|steps| - 1]), steps[|steps| - 1].seen).None?
  }

  /** The tickers are heard only while the loop is blocked. */
  ghost predicate Disciplined(steps: seq<Step>) {
    forall i :: 0 <= i < |steps| && (steps[i].MasterTick? || steps[i].SubTick?) ==> Idle(steps[..i])
  }

  lemma DisciplinedSnoc(steps: seq<Step>, step: Step)
    requires Disciplined(steps) && (step.MasterTick? || step.SubTick? ==> Idle(steps))
    ensures Disciplined(steps + [step])
  {
    var all := steps + [step];
    forall i | 0 <= i < |all| && (all[i].MasterTick? || all[i].SubTick?) ensures Idle(all[..i]) {
      assert all[..i] == steps[..i];
      assert steps[..|steps|] == steps;
    }
  }

  // ---------- every history ----------

  lemma {:induction false} TokensStayInBuckets(steps: seq<Step>)
    ensures Play(steps).master <= MASTER_BURST && Play(steps).sub <= REC_BURST
  {
    if steps != [] {
      TokensStayInBuckets(steps[..|steps| - 1]);
    }
  }

  /** In any stretch of a run, grants are paid by the tokens at its start and the ticks within it. */
  lemma {:induction false} GrantsArePaid(steps: seq<Step>, more: seq<Step>)
    ensures |Grants(steps)| <= |Grants(steps + more)|
    ensures |Grants(steps + more)| - |Grants(steps)| + Play(steps + more).master <= Play(steps).master + Count(more, MasterTick)
    ensures |Ids(Grants(steps + more), true)| - |Ids(Grants(steps), true)| + Play(steps + more).sub
              <= Play(steps).sub + Count(more, SubTick)
    decreases |more|
  {
    hide Do, GrantAt;
    if more == [] {
      assert steps + more == steps;
    } else {
      var front, step := more[..|more| - 1], more[|more| - 1];
      GrantsArePaid(steps, front);
      var all := steps + more;
      assert all[..|all| - 1] == steps + front && all[|all| - 1] == step;
      StepIsPaid(Play(steps + front), step);
      IdsOfAppend(Grants(steps + front), GrantAt(Play(steps + front), step));
      assert Count(more, MasterTick) == Count(front, MasterTick) + (if step == MasterTick then 1 else 0);
      assert Count(more, SubTick) == Count(front, SubTick) + (if step == SubTick then 1 else 0);
    }
  }

  lemma StepIsPaid(s: State, step: Step)
    ensures var g := GrantAt(s, step);
      && |g| <= 1
      && |g| + Do(s, step).master <= s.master + (if step == MasterTick then 1 else 0)
      && (if g != [] && g[0].recommendation then 1 else 0) + Do(s, step).sub <= s.sub + (if step == SubTick then 1 else 0)
  {
  }

  lemma IdsOfAppend(grants: seq<Grant>, g: seq<Grant>)
    requires |g| <= 1
    ensures forall rec :: Ids(grants + g, rec) == Ids(grants, rec) + (if g != [] && g[0].recommendation == rec then [g[0].id] else [])
  {
    if g == [] {
      assert grants + g == grants;
    } else {
      assert (grants + g)[..|grants|] == grants;
    }
  }

  /** The rate promise: a stretch with m master ticks and r sub ticks grants at most 10 + m
      requests in all and at most 4 + r recommendations. */
  lemma RateIsBounded(steps: seq<Step>, more: seq<Step>)
    ensures |Grants(steps + more)| - |Grants(steps)| <= 10 + Count(more, MasterTick)
    ensures |Ids(Grants(steps + more), true)| - |Ids(Grants(steps), true)| <= 4 + Count(more, SubTick)
  {
    GrantsArePaid(steps, more);
    TokensStayInBuckets(steps);
  }

  lemma {:induction false} PurgeIsSuffix(queue: seq<nat>, seen: set<nat>) returns (dropped: seq<nat>)
    ensures queue == dropped + Purge(queue, seen)
    ensures forall x :: x in dropped ==> x in seen
    ensures Purge(queue, seen) != [] ==> Purge(queue, seen)[0] !in seen
  {
    if queue != [] && queue[0] in seen {
      dropped := PurgeIsSuffix(queue[1..], seen);
      dropped := [queue[0]] + dropped;
    } else {
      dropped := [];
    }
  }

  /** Each queue is served in order: what was received is what left the queue, followed by what is
      still queued, and the grants are a selection in that order of what left. */
  lemma {:induction false} ServedInOrder(steps: seq<Step>, rec: bool) returns (left: seq<nat>)
    ensures Received(steps, rec) == left + Queue(Play(steps), rec)
    ensures Subseq(Ids(Grants(steps), rec), left)
  {
    hide Subseq, Do, Ids, GrantAt;
    if steps == [] {
      left := [];
      EmptyOrder(rec);
    } else {
      var front, step := steps[..|steps| - 1], steps[|steps| - 1];
      left := ServedInOrder(front, rec);
      left := StepInOrder(Play(front), step, rec, left, Grants(front));
      assert Received(steps, rec) == Received(front, rec) + Arrival(step, rec);
    }
  }

  lemma EmptyOrder(rec: bool)
    ensures Subseq(Ids([], rec), [])
  {
  }

  function Arrival(step: Step, rec: bool): seq<nat> {
    if step.Receive? && step.recommendation == rec then [step.id] else []
  }

  lemma StepInOrder(s: State, step: Step, rec: bool, left: seq<nat>, grants: seq<Grant>) returns (after: seq<nat>)
    requires Subseq(Ids(grants, rec), left)
    ensures left + Queue(s, rec) + Arrival(step, rec) == after + Queue(Do(s, step), rec)
    ensures Subseq(Ids(grants + GrantAt(s, step), rec), after)
  {
    hide Subseq, Ids;
    IdsOfAppend(grants, GrantAt(s, step));
    after := left;
    if step.TryDispatch? {
      after := DispatchInOrder(s, step.seen, rec, left, Ids(grants, rec));
    }
    assert Ids(grants, rec) + [] == Ids(grants, rec);
    assert left + Queue(s, rec) + [] == left + Queue(s, rec);
    assert left + Queue(s, rec) + Arrival(step, rec) == left + (Queue(s, rec) + Arrival(step, rec));
  }

  lemma DispatchInOrder(s: State, seen: set<nat>, rec: bool, left: seq<nat>, ids: seq<nat>) returns (after: seq<nat>)
    requires Subseq(ids, left)
    ensures left + Queue(s, rec) == after + Queue(Do(s, TryDispatch(seen)), rec)
    ensures var g := Granted(s, seen);
      Subseq(ids + (if g.Some? && g.value.recommendation == rec then [g.value.id] else []), after)
  {
    hide Subseq, Do, Granted, Purge;
    DispatchedQueue(s, seen, rec);
    var queue := Queue(s, rec);
    var rest := Purge(queue, seen);
    var dropped := PurgeIsSuffix(queue, seen);
    after := left + dropped;
    SubseqGrows(ids, left, dropped);
    assert left + queue == after + rest;
    var g := Granted(s, seen);
    if g.Some? && g.value.recommendation == rec {
      SubseqSnoc(ids, after, g.value.id);
      assert after + rest == after + [g.value.id] + rest[1..];
      after := after + [g.value.id];
    } else {
      assert ids + [] == ids;
    }
  }

  /** A grant takes the head of its purged queue; the other queue is only purged. */
  lemma DispatchedQueue(s: State, seen: set<nat>, rec: bool)
    ensures var rest := Purge(Queue(s, rec), seen);
      var g := Granted(s, seen);
      if g.Some? && g.value.recommendation == rec
      then rest != [] && rest == [g.value.id] + rest[1..] && Queue(Do(s, TryDispatch(seen)), rec) == rest[1..]
      else Queue(Do(s, TryDispatch(seen)), rec) == rest
  {
  }

  lemma Clash(left: seq<nat>, right: seq<nat>, i: nat, j: nat)
    requires i < |left| && j < |right| && left[i] == right[j]
    ensures !NoDup(left + right)
  {
    var all := left + right;
    assert all[i] == all[|left| + j];
  }

  /** Distinct requests are granted at most once, and none is both granted and still queued. */
  lemma GrantedAtMostOnce(steps: seq<Step>, rec: bool)
    requires NoDup(Received(steps, rec))
    ensures NoDup(Ids(Grants(steps), rec))
    ensures forall id :: id in Ids(Grants(steps), rec) ==> id in Received(steps, rec) && id !in Queue(Play(steps), rec)
  {
    var left := ServedInOrder(steps, rec);
    var all := Received(steps, rec);
    forall i, j | 0 <= i < j < |left| ensures left[i] != left[j] {
      assert left[i] == all[i] && left[j] == all[j];
    }
    SubseqMembers(Ids(Grants(steps), rec), left);
    forall id | id in left ensures id in all && id !in Queue(Play(steps), rec) {
      var i :| 0 <= i < |left| && left[i] == id;
      assert all[i] == id && id in all;
      if id in Queue(Play(steps), rec) {
        var j :| 0 <= j < |Queue(Play(steps), rec)| && Queue(Play(steps), rec)[j] == all[i];
        Clash(left, Queue(Play(steps), rec), i, j);
      }
    }
  }

  /** A recommendation is granted only when every ordinary request received so far has left its
      queue; no grant goes to a request seen cancelled, and without a grant no token moves. */
  lemma PriorityAndCost(steps: seq<Step>, seen: set<nat>)
    ensures var s := Play(steps);
      var t := Do(s, TryDispatch(seen));
      match Granted(s, seen)
      case None =>
        t.master == s.master && t.sub == s.sub
      case Some(g) =>
        && g.id !in seen && t.master == s.master - 1
        && (g.recommendation ==> t.normals == [] && (forall id :: id in s.normals ==> id in seen) && t.sub == s.sub - 1)
        && (!g.recommendation ==> t.sub == s.sub)
  {
    var s := Play(steps);
    var droppedNormals := PurgeIsSuffix(s.normals, seen);
    var droppedRecs := PurgeIsSuffix(s.recs, seen);
  }

  /** When the loop blocks, nothing is dispatchable: it lacks tokens, or live requests. */
  lemma BlockedMeansNothingToDo(steps: seq<Step>, seen: set<nat>)
    ensures var s := Play(steps);
      Granted(s, seen).None? <==>
        (s.master == 0 || ((forall id :: id in s.normals ==> id in seen) && (s.sub == 0 || (forall id :: id in s.recs ==> id in seen))))
  {
    var s := Play(steps);
    PurgedEmpty(s.normals, seen);
    PurgedEmpty(s.recs, seen);
  }

  lemma {:induction false} PurgedEmpty(queue: seq<nat>, seen: set<nat>)
    ensures Purge(queue, seen) == [] <==> forall id :: id in queue ==> id in seen
  {
    var dropped := PurgeIsSuffix(queue, seen);
    if Purge(queue, seen) != [] {
      assert Purge(queue, seen)[0] in queue;
    }
  }
}
