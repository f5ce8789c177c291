/** Shutdown and join of `internal/api/lifecycle.go`, with the admission tokens that
    `internal/api/maintenance.go` takes around a mutating request.

    `Life` holds the lock, the flags, both wait groups, the coordinator and the program counter
    of every request, background job and of the shutting-down thread; an `Event` is one step
    of one of them. The lemmas speak of every interleaving; `Server` is the object. */
module Lifecycle {
  import opened Base
  import Maintenance

  datatype Stage = Arrived | Holding | Leaving | Gone

  /** A handler or a background job; `token` is the admission it was handed, if any. */
  datatype Task = Task(job: bool, token: Option<nat>, stage: Stage)

  /** `lifecycleMu`. A starter of background work holds it over three steps. */
  datatype Lock = Free | Checked(parent: Option<nat>) | Entered(token: nat)

  /** Where the thread that shuts the server down has got to. */
  datatype Shutdown = Serving | AdmissionClosed | ClosingSet | Begun | HandlersJoined | Joined

  datatype Life = Life(
    shutdown: Shutdown, closing: bool, cancelled: bool, lock: Lock,
    handlers: nat, background: nat, tasks: seq<Task>, admission: Maintenance.State)

  const INITIAL := Life(Serving, false, false, Free, 0, 0, [], Maintenance.INITIAL)

  datatype Event =
    | Arrive
    | Admit(task: nat, cancelled: bool, kind: string)
    | Serve(task: nat)
    | Release(task: nat)
    | Done(task: nat)
    | Check(parent: Option<nat>)
    | Start(cancelled: bool)
    | Register
    | CancelRun
    | CloseAdmission | SetClosing | CancelBackground | JoinHandlers | JoinBackground
    | Other(op: Maintenance.Op)

  predicate At(s: Life, task: nat, stage: Stage) {
    task < |s.tasks| && s.tasks[task].stage == stage
  }

  /** Tokens the server's own threads hold the release closures of. */
  predicate Owns(s: Life, token: nat) {
    s.lock == Entered(token) || exists i :: 0 <= i < |s.tasks| && s.tasks[i].token == Some(token)
  }

  predicate Enabled(s: Life, e: Event) {
    match e
    case Arrive => s.lock == Free
    case Admit(i, _, _) => At(s, i, Arrived)
    case Serve(i) => At(s, i, Arrived)
    case Release(i) => At(s, i, Holding)
    case Done(i) => At(s, i, Leaving)
    case Check(_) => s.lock == Free
    case Start(_) => s.lock.Checked?
    case Register => s.lock.Entered?
    case CancelRun => true
    case CloseAdmission => s.shutdown == Serving
    case SetClosing => s.shutdown == AdmissionClosed && s.lock == Free
    case CancelBackground => s.shutdown == ClosingSet
    case JoinHandlers => s.shutdown == Begun && s.handlers == 0
    case JoinBackground => s.shutdown == HandlersJoined && s.background == 0
    case Other(op) => op.Release? ==> !Owns(s, op.id)
  }

  function Move(s: Life, task: nat, to: Task): Life {
    if task < |s.tasks| then s.(tasks := s.tasks[task := to]) else s
  }

  const JOB := "background search"

  function Apply(s: Life, e: Event): Life {
    match e
    case Arrive =>
      if s.closing then s
      else s.(handlers := s.handlers + 1, tasks := s.tasks + [Task(false, None, Arrived)])
    case Admit(i, cancelled, kind) =>
      var op := Maintenance.Enter(cancelled, None, kind);
      if Maintenance.Admits(s.admission, op) then
        Move(s, i, Task(false, Some(s.admission.next + 1), Holding)).(admission := Maintenance.Apply(s.admission, op))
      else Move(s, i, Task(false, None, Leaving))
    case Serve(i) =>
      Move(s, i, Task(false, None, Leaving))
    case Release(i) =>
      if At(s, i, Holding) && s.tasks[i].token.Some? then
        var op := Maintenance.Release(s.tasks[i].token.value);
        Move(s, i, s.tasks[i].(stage := Leaving)).(admission := Maintenance.Apply(s.admission, op))
      else s
    case Done(i) =>
      if !At(s, i, Leaving) then s
      else if s.tasks[i].job then Move(s, i, s.tasks[i].(stage := Gone)).(background := Max(0, s.background - 1))
      else Move(s, i, s.tasks[i].(stage := Gone)).(handlers := Max(0, s.handlers - 1))
    case Check(parent) =>
      if s.closing || s.cancelled then s else s.(lock := Checked(parent))
    case Start(cancelled) =>
      if !s.lock.Checked? then s
      else
        var op := Maintenance.Enter(cancelled, s.lock.parent, JOB);
        if Maintenance.Admits(s.admission, op) then
          s.(lock := Entered(s.admission.next + 1), admission := Maintenance.Apply(s.admission, op))
        else s.(lock := Free)
    case Register =>
      if !s.lock.Entered? then s
      else s.(lock := Free, background := s.background + 1, tasks := s.tasks + [Task(true, Some(s.lock.token), Holding)])
    case CancelRun => s.(cancelled := true)
    case CloseAdmission =>
      s.(shutdown := AdmissionClosed, admission := Maintenance.Apply(s.admission, Maintenance.Close))
    case SetClosing => s.(shutdown := ClosingSet, closing := true)
    case CancelBackground => s.(shutdown := Begun, cancelled := true)
    case JoinHandlers => s.(shutdown := HandlersJoined)
    case JoinBackground => s.(shutdown := Joined)
    case Other(op) => s.(admission := Maintenance.Apply(s.admission, op))
  }

  function Play(s: Life, events: seq<Event>): Life {
    if events == [] then s else Apply(Play(s, events[..|events| - 1]), events[|events| - 1])
  }

  /** Every step was possible when it was taken. */
  ghost predicate Legal(s: Life, events: seq<Event>) {
    events == [] ||
    (Legal(s, events[..|events| - 1]) && Enabled(Play(s, events[..|events| - 1]), events[|events| - 1]))
  }

  // ---------- what every step keeps ----------

  function Live(tasks: seq<Task>, job: bool): nat {
    if tasks == [] then 0
    else
      var last := tasks[|tasks| - 1];
      Live(tasks[..|tasks| - 1], job) + (if last.job == job && last.stage != Gone then 1 else 0)
  }

  lemma {:induction false} LiveMoves(tasks: seq<Task>, i: nat, to: Task, job: bool)
    requires i < |tasks| && tasks[i].job == to.job
    ensures Live(tasks[i := to], job) == Live(tasks, job)
      - (if tasks[i].job == job && tasks[i].stage != Gone then 1 else 0)
      + (if to.job == job && to.stage != Gone then 1 else 0)
  {
    var front := tasks[..|tasks| - 1];
    if i == |tasks| - 1 {
      assert tasks[i := to][..|tasks| - 1] == front;
    } else {
      LiveMoves(front, i, to, job);
      assert tasks[i := to][..|tasks| - 1] == front[i := to];
    }
  }

  lemma LiveGrows(tasks: seq<Task>, t: Task, job: bool)
    ensures Live(tasks + [t], job) == Live(tasks, job) + (if t.job == job && t.stage != Gone then 1 else 0)
  {
    assert (tasks + [t])[..|tasks|] == tasks;
  }

  lemma {:induction false} NoneLive(tasks: seq<Task>, job: bool)
    requires Live(tasks, job) == 0
    ensures forall i :: 0 <= i < |tasks| && tasks[i].job == job ==> tasks[i].stage == Gone
  {
    if tasks != [] {
      NoneLive(tasks[..|tasks| - 1], job);
    }
  }

  /** Every wait-group counter is the number of its unfinished tasks. */
  predicate Counted(s: Life) {
    s.handlers == Live(s.tasks, false) && s.background == Live(s.tasks, true)
  }

  ghost predicate TaskInv(s: Life, t: Task) {
    && (t.token.Some? ==> 0 < t.token.value <= s.admission.next)
    && (t.stage == Holding ==> t.token.Some? && t.token.value in s.admission.active)
    && (t.stage == Arrived ==> t.token.None?)
    && (t.stage in {Leaving, Gone} && t.token.Some? ==> t.token.value !in s.admission.active)
    && (t.job ==> t.token.Some?)
  }

  ghost predicate Distinct(tasks: seq<Task>) {
    forall i, j :: 0 <= i < j < |tasks| && tasks[i].token.Some? ==> tasks[i].token != tasks[j].token
  }

  /** The token taken under the lock is live and belongs to no task yet. */
  ghost predicate LockInv(s: Life) {
    s.lock.Entered? ==>
      0 < s.lock.token <= s.admission.next && s.lock.token in s.admission.active && Unowned(s.tasks, s.lock.token)
  }

  ghost predicate Unowned(tasks: seq<Task>, token: nat) {
    forall i :: 0 <= i < |tasks| ==> tasks[i].token != Some(token)
  }

  ghost predicate TokenInv(s: Life) {
    && (forall i :: 0 <= i < |s.tasks| ==> TaskInv(s, s.tasks[i]))
    && Distinct(s.tasks) && LockInv(s)
    && (forall id :: id in s.admission.active ==> id <= s.admission.next)
  }

  predicate ShutdownInv(s: Life) {
    && (s.closing <==> s.shutdown !in {Serving, AdmissionClosed})
    && (s.closing ==> s.lock == Free)
    && (s.shutdown != Serving ==> s.admission.terminal)
    && (s.shutdown in {Begun, HandlersJoined, Joined} ==> s.cancelled)
    && (s.shutdown in {HandlersJoined, Joined} ==> s.handlers == 0)
    && (s.shutdown == Joined ==> s.background == 0)
  }

  ghost predicate Inv(s: Life) {
    Counted(s) && TokenInv(s) && ShutdownInv(s)
  }

  lemma CountGrows(s: Life, t: Task)
    requires Counted(s)
    ensures var added := if t.stage != Gone then 1 else 0;
      Live(s.tasks + [t], false) == s.handlers + (if t.job then 0 else added) &&
      Live(s.tasks + [t], true) == s.background + (if t.job then added else 0)
  {
    LiveGrows(s.tasks, t, false);
    LiveGrows(s.tasks, t, true);
  }

  lemma CountMoves(s: Life, i: nat, to: Task)
    requires Counted(s) && i < |s.tasks| && s.tasks[i].job == to.job && s.tasks[i].stage != Gone
    ensures var left := if to.stage == Gone then 1 else 0;
      Live(s.tasks[i := to], false) == s.handlers - (if to.job then 0 else left) &&
      Live(s.tasks[i := to], true) == s.background - (if to.job then left else 0)
  {
    LiveMoves(s.tasks, i, to, false);
    LiveMoves(s.tasks, i, to, true);
  }

  lemma StepKeepsCount(s: Life, e: Event)
    requires Inv(s) && Enabled(s, e)
    ensures Counted(Apply(s, e))
  {
    hide TokenInv, ShutdownInv, Live, Maintenance.Apply;
    match e {
      case Arrive => CountGrows(s, Task(false, None, Arrived));
      case Register => CountGrows(s, Task(true, Some(s.lock.token), Holding));
      case Admit(i, _, _) =>
        ArrivedIsHandler(s, i);
        CountMoves(s, i, Apply(s, e).tasks[i]);
      case Serve(i) =>
        ArrivedIsHandler(s, i);
        CountMoves(s, i, Apply(s, e).tasks[i]);
      case Release(i) => CountMoves(s, i, Apply(s, e).tasks[i]);
      case Done(i) => CountMoves(s, i, Apply(s, e).tasks[i]);
      case _ =>
    }
  }

  lemma ArrivedIsHandler(s: Life, i: nat)
    requires TokenInv(s) && At(s, i, Arrived)
    ensures !s.tasks[i].job
  {
    assert TaskInv(s, s.tasks[i]);
  }

  lemma NewTokenIsUnowned(s: Life)
    requires TokenInv(s)
    ensures Unowned(s.tasks, s.admission.next + 1)
  {
    forall i | 0 <= i < |s.tasks| ensures s.tasks[i].token != Some(s.admission.next + 1) {
      assert TaskInv(s, s.tasks[i]);
    }
  }

  lemma DistinctMoves(tasks: seq<Task>, i: nat, to: Task)
    requires Distinct(tasks) && i < |tasks|
    requires to.token == tasks[i].token || to.token.None? || Unowned(tasks, to.token.value)
    ensures Distinct(tasks[i := to])
  {
  }

  lemma StepKeepsTasks(s: Life, e: Event)
    requires Inv(s) && Enabled(s, e)
    ensures var t := Apply(s, e); forall i :: 0 <= i < |t.tasks| ==> TaskInv(t, t.tasks[i])
  {
    hide Live, Distinct, Unowned, Legal;
    var t := Apply(s, e);
    forall i | 0 <= i < |t.tasks| ensures TaskInv(t, t.tasks[i]) {
      if i < |s.tasks| {
        TaskStep(s, e, i);
      }
    }
  }

  predicate Acts(e: Event, i: nat) {
    (e.Admit? || e.Serve? || e.Release? || e.Done?) && e.task == i
  }

  lemma TaskStep(s: Life, e: Event, i: nat)
    requires Inv(s) && Enabled(s, e) && i < |s.tasks|
    ensures i < |Apply(s, e).tasks| && TaskInv(Apply(s, e), Apply(s, e).tasks[i])
  {
    hide Live, Unowned, Legal, Counted, ShutdownInv, LockInv, Apply, Enabled, TaskInv;
    if Acts(e, i) {
      ActingStep(s, e, i);
    } else if e.Release? {
      hide Distinct;
      assert At(s, e.task, Holding) by {
        EnabledRelease(s, e);
      }
      ReleaseStep(s, e.task, i);
    } else {
      IdleStep(s, e, i);
    }
  }

  lemma EnabledRelease(s: Life, e: Event)
    requires Enabled(s, e) && e.Release?
    ensures At(s, e.task, Holding)
  {
  }

  lemma ActingStep(s: Life, e: Event, i: nat)
    requires TokenInv(s) && Enabled(s, e) && i < |s.tasks| && Acts(e, i)
    ensures i < |Apply(s, e).tasks| && TaskInv(Apply(s, e), Apply(s, e).tasks[i])
  {
    hide LockInv, Distinct;
    assert TaskInv(s, s.tasks[i]);
  }

  lemma IdleStep(s: Life, e: Event, i: nat)
    requires TokenInv(s) && Enabled(s, e) && i < |s.tasks| && !Acts(e, i) && !e.Release?
    ensures i < |Apply(s, e).tasks| && TaskInv(Apply(s, e), Apply(s, e).tasks[i])
  {
    hide LockInv, Distinct;
    assert TaskInv(s, s.tasks[i]);
    assert Apply(s, e).tasks[i] == s.tasks[i];
  }

  lemma ReleaseStep(s: Life, j: nat, i: nat)
    requires TokenInv(s) && At(s, j, Holding) && i < |s.tasks| && i != j
    ensures i < |Apply(s, Release(j)).tasks| && TaskInv(Apply(s, Release(j)), Apply(s, Release(j)).tasks[i])
  {
    hide LockInv, Distinct;
    assert TaskInv(s, s.tasks[j]) && TaskInv(s, s.tasks[i]);
    OtherToken(s.tasks, j, i);
  }

  lemma OtherToken(tasks: seq<Task>, i: nat, j: nat)
    requires Distinct(tasks) && i < |tasks| && j < |tasks| && i != j && tasks[i].token.Some?
    ensures tasks[i].token != tasks[j].token
  {
  }

  lemma StepKeepsDistinct(s: Life, e: Event)
    requires Inv(s) && Enabled(s, e)
    ensures Distinct(Apply(s, e).tasks)
  {
    hide Live, Legal;
    NewTokenIsUnowned(s);
    if e.Admit? || e.Serve? || e.Release? || e.Done? {
      hide Unowned, Distinct;
      if e.Admit? || e.Serve? {
        assert TaskInv(s, s.tasks[e.task]);
      }
      DistinctMoves(s.tasks, e.task, Apply(s, e).tasks[e.task]);
    }
  }

  lemma StepKeepsLock(s: Life, e: Event)
    requires Inv(s) && Enabled(s, e)
    ensures LockInv(Apply(s, e)) && forall id :: id in Apply(s, e).admission.active ==> id <= Apply(s, e).admission.next
  {
    hide Live, Legal, Distinct;
    NewTokenIsUnowned(s);
  }

  lemma StepKeepsTokens(s: Life, e: Event)
    requires Inv(s) && Enabled(s, e)
    ensures TokenInv(Apply(s, e))
  {
    hide Apply, Enabled, Inv, TaskInv, Distinct, LockInv;
    StepKeepsTasks(s, e);
    StepKeepsDistinct(s, e);
    StepKeepsLock(s, e);
  }

  lemma StepKeepsShutdown(s: Life, e: Event)
    requires Inv(s) && Enabled(s, e)
    ensures ShutdownInv(Apply(s, e))
  {
    hide Live, TokenInv;
  }

  lemma StepKeepsInv(s: Life, e: Event)
    requires Inv(s) && Enabled(s, e)
    ensures Inv(Apply(s, e))
  {
    hide Counted, TokenInv, ShutdownInv, Enabled, Apply;
    StepKeepsCount(s, e);
    StepKeepsTokens(s, e);
    StepKeepsShutdown(s, e);
  }

  lemma {:induction false} InvHolds(s: Life, events: seq<Event>)
    requires Inv(s) && Legal(s, events)
    ensures Inv(Play(s, events))
  {
    hide Inv, Enabled, Apply;
    if events != [] {
      InvHolds(s, events[..|events| - 1]);
      StepKeepsInv(Play(s, events[..|events| - 1]), events[|events| - 1]);
    }
  }

  lemma {:induction false} InitialInv(events: seq<Event>)
    requires Legal(INITIAL, events)
    ensures Inv(Play(INITIAL, events))
  {
    InvHolds(INITIAL, events);
  }

  // ---------- the stable join ----------

  ghost predicate Registers(s: Life, e: Event) {
    Apply(s, e).handlers > s.handlers || Apply(s, e).background > s.background
  }

  lemma ClosedStep(s: Life, e: Event)
    requires ShutdownInv(s) && s.closing && Enabled(s, e)
    ensures var t := Apply(s, e);
      t.closing && |t.tasks| == |s.tasks| && t.handlers <= s.handlers && t.background <= s.background
  {
  }

  /** Once `closing` is set no step of any thread ever enters a wait group again. */
  lemma {:induction false} ClosingIsTheEnd(s: Life, events: seq<Event>)
    requires Inv(s) && s.closing && Legal(s, events)
    ensures var t := Play(s, events);
      t.closing && |t.tasks| == |s.tasks| && t.handlers <= s.handlers && t.background <= s.background
    ensures forall i :: 0 <= i < |events| ==> !Registers(Play(s, events[..i]), events[i])
  {
    hide TokenInv, Counted, ShutdownInv, Apply, Enabled;
    if events != [] {
      var front := events[..|events| - 1];
      ClosingIsTheEnd(s, front);
      InvHolds(s, front);
      ClosedStep(Play(s, front), events[|events| - 1]);
      forall i | 0 <= i < |events| ensures !Registers(Play(s, events[..i]), events[i]) {
        assert events[..i] == front[..i];
      }
    }
  }

  /** Nothing of the server is left: no thread, no token of one, nobody inside the lock. */
  ghost predicate Empty(s: Life) {
    && s.handlers == 0 && s.background == 0 && s.lock == Free
    && (forall i :: 0 <= i < |s.tasks| ==> s.tasks[i].stage == Gone)
    && (forall token :: token in s.admission.active ==> !Owns(s, token))
  }

  lemma QuietIsEmpty(s: Life)
    requires Inv(s) && s.handlers == 0 && s.background == 0 && s.lock == Free
    ensures Empty(s)
  {
    NoneLive(s.tasks, false);
    NoneLive(s.tasks, true);
    forall i | 0 <= i < |s.tasks| && s.tasks[i].token.Some? ensures s.tasks[i].token.value !in s.admission.active {
      assert TaskInv(s, s.tasks[i]);
    }
  }

  /** When `Wait` has returned, nothing of the server is left, and so it stays for ever. */
  lemma JoinIsStable(events: seq<Event>, more: seq<Event>)
    requires Legal(INITIAL, events) && Play(INITIAL, events).shutdown == Joined
    requires Legal(Play(INITIAL, events), more)
    ensures Empty(Play(INITIAL, events)) && Empty(Play(Play(INITIAL, events), more))
  {
    hide Empty, Enabled, Apply, TokenInv;
    var s := Play(INITIAL, events);
    InitialInv(events);
    QuietIsEmpty(s);
    ClosingIsTheEnd(s, more);
    InvHolds(s, more);
    QuietIsEmpty(Play(s, more));
  }

  /** Two empty wait groups mean anything only after `closing`: they stay empty if and only if
      it is set. So `Wait` has to follow `BeginShutdown`. */
  lemma QuietStaysIffClosing(s: Life)
    requires Inv(s) && s.handlers == 0 && s.background == 0 && s.lock == Free
    ensures (forall more :: Legal(s, more) ==> Play(s, more).handlers == 0 && Play(s, more).background == 0) <==> s.closing
  {
    if s.closing {
      forall more | Legal(s, more) ensures Play(s, more).handlers == 0 && Play(s, more).background == 0 {
        ClosingIsTheEnd(s, more);
      }
    } else {
      var more := [Arrive];
      assert more[..|more| - 1] == [];
      assert Legal(s, []) && Legal(s, more);
      assert Play(s, more).handlers == 1;
    }
  }

  // ---------- release exactly once, before Done ----------

  predicate IsRelease(e: Event, task: nat) {
    e.Release? && e.task == task
  }

  function Releases(events: seq<Event>, task: nat): nat {
    if events == [] then 0
    else Releases(events[..|events| - 1], task) + (if IsRelease(events[|events| - 1], task) then 1 else 0)
  }

  function Dones(events: seq<Event>, task: nat): nat {
    if events == [] then 0
    else Dones(events[..|events| - 1], task) + (if events[|events| - 1] == Done(task) then 1 else 0)
  }

  /** What a task's stage says about the whole run so far. */
  ghost predicate Told(s: Life, events: seq<Event>, i: nat) {
    if i >= |s.tasks| then Releases(events, i) == 0 && Dones(events, i) == 0
    else
      && Releases(events, i) == (if s.tasks[i].token.Some? && s.tasks[i].stage in {Leaving, Gone} then 1 else 0)
      && Dones(events, i) == (if s.tasks[i].stage == Gone then 1 else 0)
  }

  lemma {:induction false} StageTells(events: seq<Event>, i: nat)
    requires Legal(INITIAL, events)
    ensures Told(Play(INITIAL, events), events, i)
  {
    if events != [] {
      var front, e := events[..|events| - 1], events[|events| - 1];
      StageTells(front, i);
      InitialInv(front);
      ToldStep(Play(INITIAL, front), front, e, i);
      assert front + [e] == events;
    }
  }

  lemma ToldStep(s: Life, front: seq<Event>, e: Event, i: nat)
    requires Inv(s) && Enabled(s, e) && Told(s, front, i)
    ensures Told(Apply(s, e), front + [e], i)
  {
    hide Live, ShutdownInv;
    assert (front + [e])[..|front|] == front;
    if i < |s.tasks| {
      assert TaskInv(s, s.tasks[i]);
    }
  }

  /** In every run each admission of the server is given back at most once; exactly once if
      its thread is through; and when a thread leaves its wait group, it was given back before. */
  lemma ReleasedOnceBeforeDone(events: seq<Event>, i: nat)
    requires Legal(INITIAL, events) && i < |Play(INITIAL, events).tasks|
    ensures Releases(events, i) <= 1 && Dones(events, i) <= 1
    ensures var task := Play(INITIAL, events).tasks[i];
      task.token.Some? ==> (Releases(events, i) == 1 <==> task.token.value !in Play(INITIAL, events).admission.active)
    ensures forall k :: 0 <= k < |events| && events[k] == Done(i) ==>
      i < |Play(INITIAL, events[..k]).tasks| &&
      Releases(events[..k], i) == (if Play(INITIAL, events[..k]).tasks[i].token.Some? then 1 else 0)
  {
    StageTells(events, i);
    InitialInv(events);
    assert TaskInv(Play(INITIAL, events), Play(INITIAL, events).tasks[i]);
    forall k | 0 <= k < |events| && events[k] == Done(i)
      ensures i < |Play(INITIAL, events[..k]).tasks| &&
        Releases(events[..k], i) == (if Play(INITIAL, events[..k]).tasks[i].token.Some? then 1 else 0)
    {
      LegalPrefix(INITIAL, events, k);
      StageTells(events[..k], i);
    }
  }

  lemma {:induction false} LegalPrefix(s: Life, events: seq<Event>, k: nat)
    requires Legal(s, events) && k < |events|
    ensures Legal(s, events[..k]) && Enabled(Play(s, events[..k]), events[k])
  {
    if k < |events| - 1 {
      LegalPrefix(s, events[..|events| - 1], k);
      assert events[..|events| - 1][..k] == events[..k];
    }
  }

  /** After `Close`, a request is never admitted, and background work only under a live token. */
  lemma ClosedAdmitsOnlyChildren(s: Life, e: Event)
    requires Inv(s) && Enabled(s, e) && s.shutdown != Serving
    requires Apply(s, e).admission.next > s.admission.next && !e.Other?
    ensures e.Start? && s.lock.parent.Some? && s.lock.parent.value in s.admission.active
  {
  }

  /** `Done` never takes a wait group below zero. */
  lemma CounterIsPositive(s: Life, events: seq<Event>, i: nat)
    requires Legal(INITIAL, events) && s == Play(INITIAL, events) && At(s, i, Leaving)
    ensures if s.tasks[i].job then s.background > 0 else s.handlers > 0
  {
    InitialInv(events);
    if s.tasks[i].job && s.background == 0 {
      NoneLive(s.tasks, true);
    }
    if !s.tasks[i].job && s.handlers == 0 {
      NoneLive(s.tasks, false);
    }
  }

  // ---------- the object ----------

  /** Whose steps the environment of a method does not take. */
  datatype Actor = Nobody | Main | Worker(task: nat) | Starter

  predicate By(e: Event, me: Actor) {
    match me
    case Nobody => false
    case Main =>
      e.CloseAdmission? || e.SetClosing? || e.CancelBackground? || e.JoinHandlers? || e.JoinBackground?
    case Worker(i) => Acts(e, i)
    case Starter => e.Start? || e.Register?
  }

  /** What all other threads leave alone, whatever they do. */
  ghost predicate Apart(s: Life, t: Life, me: Actor) {
    && (s.closing ==> t.closing) && |s.tasks| <= |t.tasks|
    && (me == Main ==> t.shutdown == s.shutdown)
    && (me.Worker? && me.task < |s.tasks| ==> t.tasks[me.task] == s.tasks[me.task])
    && (me == Starter && s.lock != Free ==> t.lock == s.lock)
  }

  lemma OthersStayApart(s: Life, e: Event, me: Actor)
    requires Enabled(s, e) && !By(e, me)
    ensures Apart(s, Apply(s, e), me)
  {
  }

  lemma ApartTogether(s: Life, t: Life, u: Life, me: Actor)
    requires Apart(s, t, me) && Apart(t, u, me)
    ensures Apart(s, u, me)
  {
  }

  lemma {:induction false} LegalSnoc(s: Life, events: seq<Event>, e: Event)
    requires Legal(s, events) && Enabled(Play(s, events), e)
    ensures Legal(s, events + [e]) && Play(s, events + [e]) == Apply(Play(s, events), e)
  {
    assert (events + [e])[..|events|] == events;
  }

  lemma TokenIsRecorded(s: Life, events: seq<Event>)
    requires Legal(INITIAL, events) && s == Play(INITIAL, events)
    ensures forall i :: 0 <= i < |s.tasks| && s.tasks[i].stage == Holding ==> s.tasks[i].token.Some?
  {
    InitialInv(events);
    forall i | 0 <= i < |s.tasks| && s.tasks[i].stage == Holding ensures s.tasks[i].token.Some? {
      assert TaskInv(s, s.tasks[i]);
    }
  }

  lemma BegunIsClosed(s: Life, events: seq<Event>)
    requires Legal(INITIAL, events) && s == Play(INITIAL, events) && s.shutdown == Begun
    ensures s.closing && s.cancelled && s.admission.terminal
  {
    InitialInv(events);
  }

  datatype Reply = Served | ShuttingDown | DeploymentDraining

  class Server {
    const admission: Maintenance.Coordinator
    var shutdown: Shutdown
    var closing: bool
    var backgroundCancelled: bool
    var lock: Lock
    var handlers: nat
    var background: nat
    var tasks: seq<Task>
    ghost var history: seq<Event>

    function View(): Life
      reads this, admission
    {
      Life(shutdown, closing, backgroundCancelled, lock, handlers, background, tasks, admission.View())
    }

    /** The object's state is the outcome of a possible interleaving. */
    ghost predicate Valid()
      reads this, admission
    {
      Legal(INITIAL, history) && View() == Play(INITIAL, history)
    }

    constructor ()
      ensures Valid() && View() == INITIAL && fresh(admission)
    {
      admission := new Maintenance.Coordinator();
      shutdown, closing, backgroundCancelled, lock := Serving, false, false, Free;
      handlers, background, tasks, history := 0, 0, [], [];
    }

    ghost predicate Took(before: Life, past: seq<Event>, e: Event)
      reads this, admission
    {
      View() == Apply(before, e) && history == past + [e] && Valid()
    }

    ghost method Record(e: Event, before: Life)
      requires Legal(INITIAL, history) && before == Play(INITIAL, history)
      requires Enabled(before, e) && View() == Apply(before, e)
      modifies `history
      ensures Took(before, old(history), e)
    {
      hide Apply, Enabled;
      LegalSnoc(INITIAL, history, e);
      history := history + [e];
    }

    // ----- the steps -----

    /** The locked section of `trackRequests`. */
    method Track() returns (id: Option<nat>)
      requires Valid() && lock == Free
      modifies this
      ensures Took(old(View()), old(history), Arrive)
      ensures id == if old(closing) then None else Some(|old(tasks)|)
    {
      ghost var before := View();
      hide Legal, Play;
      if closing {
        id := None;
      } else {
        id := Some(|tasks|);
        handlers := handlers + 1;
        tasks := tasks + [Task(false, None, Arrived)];
      }
      Record(Arrive, before);
    }

    /** `TryEnter` in `admitMutation`. */
    method AdmitMutation(i: nat, cancelled: bool, kind: string) returns (admitted: bool)
      requires Valid() && At(View(), i, Arrived)
      modifies this, admission
      ensures Took(old(View()), old(history), Admit(i, cancelled, kind))
      ensures tasks[i].token.Some? == admitted && tasks[i].stage == (if admitted then Holding else Leaving)
    {
      ghost var before := View();
      hide Legal, Play;
      var id, error := admission.TryEnter(cancelled, None, kind);
      admitted := error.None?;
      tasks := tasks[i := if admitted then Task(false, Some(id), Holding) else Task(false, None, Leaving)];
      Record(Admit(i, cancelled, kind), before);
    }

    method ServeRead(i: nat)
      requires Valid() && At(View(), i, Arrived)
      modifies this
      ensures Took(old(View()), old(history), Serve(i))
    {
      ghost var before := View();
      hide Legal, Play;
      tasks := tasks[i := Task(false, None, Leaving)];
      Record(Serve(i), before);
    }

    /** The deferred release. */
    method ReleaseToken(i: nat)
      requires Valid() && At(View(), i, Holding) && tasks[i].token.Some?
      modifies this, admission
      ensures Took(old(View()), old(history), Release(i))
    {
      ghost var before := View();
      hide Legal, Play;
      admission.ReleaseToken(tasks[i].token.value);
      tasks := tasks[i := tasks[i].(stage := Leaving)];
      Record(Release(i), before);
    }

    /** The deferred `Done`; a negative counter would panic. */
    method Finish(i: nat)
      requires Valid() && At(View(), i, Leaving)
      modifies this
      ensures Took(old(View()), old(history), Done(i))
    {
      ghost var before := View();
      CounterIsPositive(before, history, i);
      hide Legal, Play;
      if tasks[i].job {
        background := background - 1;
      } else {
        handlers := handlers - 1;
      }
      tasks := tasks[i := tasks[i].(stage := Gone)];
      Record(Done(i), before);
    }

    method CheckOpen(parent: Option<nat>) returns (open: bool)
      requires Valid() && lock == Free
      modifies this
      ensures Took(old(View()), old(history), Check(parent))
      ensures open == (!old(closing) && !old(backgroundCancelled))
    {
      ghost var before := View();
      hide Legal, Play;
      open := !(closing || backgroundCancelled);
      if open {
        lock := Checked(parent);
      }
      Record(Check(parent), before);
    }

    method EnterBackground(cancelled: bool) returns (admitted: bool)
      requires Valid() && lock.Checked?
      modifies this, admission
      ensures Took(old(View()), old(history), Start(cancelled))
      ensures lock.Entered? == admitted && (!admitted ==> lock == Free)
    {
      ghost var before := View();
      hide Legal, Play;
      var id, error := admission.TryEnter(cancelled, lock.parent, JOB);
      admitted := error.None?;
      lock := if admitted then Entered(id) else Free;
      Record(Start(cancelled), before);
    }

    method RegisterBackground() returns (id: nat)
      requires Valid() && lock.Entered?
      modifies this
      ensures Took(old(View()), old(history), Register)
      ensures id == |old(tasks)|
    {
      ghost var before := View();
      hide Legal, Play;
      id := |tasks|;
      background := background + 1;
      tasks := tasks + [Task(true, Some(lock.token), Holding)];
      lock := Free;
      Record(Register, before);
    }

    /** A step of the coordinator's other users. */
    method Elsewhere(op: Maintenance.Op)
      requires Valid() && Enabled(View(), Other(op))
      modifies this, admission
      ensures Took(old(View()), old(history), Other(op))
    {
      ghost var before := View();
      hide Legal, Play;
      match op {
        case Enter(cancelled, parent, kind) => var _, _ := admission.TryEnter(cancelled, parent, kind);
        case Release(id) => admission.ReleaseToken(id);
        case Start(owner, generation) => var _, _ := admission.StartDrain(owner, generation);
        case Abort(owner, generation) => var _, _ := admission.AbortDrain(owner, generation);
        case Close => admission.CloseAdmission();
      }
      Record(Other(op), before);
    }

    method Advance(e: Event)
      requires Valid() && Enabled(View(), e) && By(e, Main)
      modifies this, admission
      ensures Took(old(View()), old(history), e)
    {
      ghost var before := View();
      hide Legal, Play;
      match e {
        case CloseAdmission =>
          admission.CloseAdmission();
          shutdown := AdmissionClosed;
        case SetClosing =>
          closing := true;
          shutdown := ClosingSet;
        case CancelBackground =>
          backgroundCancelled := true;
          shutdown := Begun;
        case JoinHandlers => shutdown := HandlersJoined;
        case JoinBackground => shutdown := Joined;
      }
      Record(e, before);
    }

    method Perform(e: Event)
      requires Valid() && Enabled(View(), e)
      modifies this, admission
      ensures Took(old(View()), old(history), e)
    {
      hide Legal, Play;
      if By(e, Main) {
        Advance(e);
      } else {
        TokenIsRecorded(View(), history);
        match e {
          case Arrive => var _ := Track();
          case Admit(i, cancelled, kind) => var _ := AdmitMutation(i, cancelled, kind);
          case Serve(i) => ServeRead(i);
          case Release(i) => ReleaseToken(i);
          case Done(i) => Finish(i);
          case Check(parent) => var _ := CheckOpen(parent);
          case Start(cancelled) => var _ := EnterBackground(cancelled);
          case Register => var _ := RegisterBackground();
          case Other(op) => Elsewhere(op);
          case CancelRun => CancelRunContext();
        }
      }
    }

    method CancelRunContext()
      requires Valid()
      modifies this
      ensures Took(old(View()), old(history), CancelRun)
    {
      ghost var before := View();
      hide Legal, Play;
      backgroundCancelled := true;
      Record(CancelRun, before);
    }

    /** Nothing of `me` happened since `past`. */
    ghost predicate Meanwhile(before: Life, past: seq<Event>, me: Actor)
      reads this, admission
    {
      && Valid() && Apart(before, View(), me) && past <= history
      && forall k :: |past| <= k < |history| ==> !By(history[k], me)
    }

    /** Any number of steps of the other threads. */
    method Others(me: Actor)
      requires Valid()
      modifies this, admission
      ensures Meanwhile(old(View()), old(history), me)
    {
      var steps: int := *;
      hide Legal, Play, Apply, Enabled;
      while steps > 0
        invariant Meanwhile(old(View()), old(history), me)
      {
        var e: Event := *;
        if Enabled(View(), e) && !By(e, me) {
          OthersStayApart(View(), e, me);
          Perform(e);
        }
        steps := steps - 1;
      }
    }

    /** Waits for the lock: whoever holds it has at most two steps left. */
    method Acquire(me: Actor)
      requires Valid() && me != Starter
      modifies this, admission
      ensures Meanwhile(old(View()), old(history), me) && lock == Free
    {
      hide Legal, Play, Apart;
      Others(me);
      while lock != Free
        invariant Meanwhile(old(View()), old(history), me)
        decreases if lock.Checked? then 2 else if lock.Entered? then 1 else 0
      {
        ghost var before := View();
        HolderSteps(me);
        ApartTogether(old(View()), before, View(), me);
      }
    }

    /** The holder's next step takes it to the end of its locked section or nearer to it. */
    method HolderSteps(me: Actor)
      requires Valid() && me != Starter && lock != Free
      modifies this, admission
      ensures Meanwhile(old(View()), old(history), me)
      ensures lock == Free || (old(lock).Checked? && lock.Entered?)
    {
      hide Legal, Play;
      if lock.Checked? {
        var cancelled: bool := *;
        var _ := EnterBackground(cancelled);
      } else {
        var _ := RegisterBackground();
      }
    }

    // ----- the methods -----

    /** `admitMutation` around a handler; `readOnly` for the listed operations. */
    method ServeAdmitted(id: nat, readOnly: bool, cancelled: bool, kind: string) returns (reply: Reply)
      requires Valid() && At(View(), id, Arrived) && !tasks[id].job
      modifies this, admission
      ensures Valid() && old(history) <= history && At(View(), id, Leaving) && !tasks[id].job
      ensures readOnly ==> reply == Served && tasks[id].token.None?
      ensures !readOnly ==> reply == (if tasks[id].token.Some? then Served else DeploymentDraining)
    {
      hide Legal, Play;
      if readOnly {
        ServeRead(id);
        return Served;
      }
      var admitted := AdmitMutation(id, cancelled, kind);
      if !admitted {
        return DeploymentDraining;
      }
      Others(Worker(id));
      ReleaseToken(id);
      reply := Served;
    }

    /** `trackRequests` around `ServeAdmitted`. */
    method ServeHTTP(readOnly: bool, cancelled: bool, kind: string) returns (reply: Reply, id: nat)
      requires Valid()
      modifies this, admission
      ensures Valid() && old(history) <= history
      ensures old(closing) ==> reply == ShuttingDown
      ensures reply == ShuttingDown ==> closing
      ensures reply != ShuttingDown ==> At(View(), id, Gone) && !tasks[id].job && id >= |old(tasks)|
      ensures reply != ShuttingDown && readOnly ==> reply == Served && tasks[id].token.None?
      ensures reply != ShuttingDown && !readOnly ==> (reply == Served <==> tasks[id].token.Some?)
    {
      hide Legal, Play;
      Acquire(Nobody);
      var tracked := Track();
      if tracked.None? {
        return ShuttingDown, 0;
      }
      id := tracked.value;
      reply := ServeTracked(id, readOnly, cancelled, kind);
    }

    method ServeTracked(id: nat, readOnly: bool, cancelled: bool, kind: string) returns (reply: Reply)
      requires Valid() && At(View(), id, Arrived) && !tasks[id].job
      modifies this, admission
      ensures Valid() && old(history) <= history && At(View(), id, Gone) && !tasks[id].job && reply != ShuttingDown
      ensures readOnly ==> reply == Served && tasks[id].token.None?
      ensures !readOnly ==> (reply == Served <==> tasks[id].token.Some?)
    {
      hide Legal, Play;
      Others(Worker(id));
      reply := ServeAdmitted(id, readOnly, cancelled, kind);
      Others(Worker(id));
      Finish(id);
    }

    /** Since `past`, background work asked for admission. */
    ghost predicate Tried(past: seq<Event>)
      reads this
    {
      exists k :: |past| <= k < |history| && history[k].Start?
    }

    /** `startBackgroundFrom`; the goroutine is `Background`. */
    method StartBackgroundFrom(parent: Option<nat>) returns (started: Option<nat>)
      requires Valid()
      modifies this, admission
      ensures Valid() && old(history) <= history
      ensures old(closing) ==> started.None?
      ensures started.Some? ==> At(View(), started.value, Holding) && tasks[started.value].job
      ensures started.None? ==> closing || backgroundCancelled || Tried(old(history))
      ensures lock == Free
    {
      hide Legal, Play;
      Acquire(Nobody);
      var open := CheckOpen(parent);
      if !open {
        return None;
      }
      started := EnterAndRegister();
    }

    /** The rest of the locked section. */
    method EnterAndRegister() returns (started: Option<nat>)
      requires Valid() && lock.Checked?
      modifies this, admission
      ensures Valid() && old(history) <= history && lock == Free
      ensures started.Some? ==> At(View(), started.value, Holding) && tasks[started.value].job
      ensures started.None? ==> Tried(old(history))
    {
      hide Legal, Play;
      Others(Starter);
      var cancelled: bool := *;
      var admitted := EnterBackground(cancelled);
      if !admitted {
        assert history[|history| - 1].Start?;
        return None;
      }
      Others(Starter);
      var id := RegisterBackground();
      started := Some(id);
    }

    method Background(id: nat)
      requires Valid() && At(View(), id, Holding) && tasks[id].job
      modifies this, admission
      ensures Valid() && old(history) <= history && At(View(), id, Gone)
    {
      hide Legal, Play;
      Others(Worker(id));
      TokenIsRecorded(View(), history);
      ReleaseToken(id);
      Others(Worker(id));
      Finish(id);
    }

    method BeginShutdown()
      requires Valid() && shutdown == Serving
      modifies this, admission
      ensures Valid() && old(history) <= history
      ensures shutdown == Begun && closing && backgroundCancelled && admission.terminal
    {
      hide Legal, Play;
      Others(Main);
      Advance(CloseAdmission);
      Acquire(Main);
      Advance(SetClosing);
      CancelTheRest();
    }

    method CancelTheRest()
      requires Valid() && shutdown == ClosingSet
      modifies this, admission
      ensures Valid() && old(history) <= history
      ensures shutdown == Begun && closing && backgroundCancelled && admission.terminal
    {
      hide Legal, Play;
      Others(Main);
      Advance(CancelBackground);
      BegunIsClosed(View(), history);
    }

    /** `Wait` after `BeginShutdown`: false stands for a call that has not returned yet. */
    method Wait() returns (joined: bool)
      requires Valid() && shutdown == Begun
      modifies this, admission
      ensures Valid() && old(history) <= history
      ensures joined ==> shutdown == Joined && Empty(View())
      ensures !joined ==> handlers > 0 || background > 0
    {
      hide Legal, Play;
      Others(Main);
      if handlers != 0 {
        return false;
      }
      Advance(JoinHandlers);
      Others(Main);
      if background != 0 {
        return false;
      }
      Advance(JoinBackground);
      InitialInv(history);
      QuietIsEmpty(View());
      joined := true;
    }
  }
}
