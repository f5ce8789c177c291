/** What holds over whole histories of deployments: any number of deploy, resume and abort runs
    over any number of receipts, cut short at any command, with the environment moving freely
    between any two commands. */
module DeployHistory {
  import opened Base
  import opened DeployWorld
  import M = Maintenance

  datatype History = History(events: seq<Event>, worlds: seq<World>)

  ghost predicate Valid(h: History) {
    && |h.worlds| == |h.events| + 1
    && Fresh(h.worlds[0])
    && forall i :: 0 <= i < |h.events| ==> Follows(h, i)
  }

  ghost predicate Follows(h: History, i: nat)
    requires i < |h.events| && |h.worlds| == |h.events| + 1
  {
    Allowed(h.worlds[i], h.events[i]) && h.worlds[i + 1] == Effect(h.worlds[i], h.events[i])
  }

  /** Safety of every reachable state: the captured container and its replacement, or any two
      containers the service ever had, are never alive together. */
  lemma {:induction false} AlwaysSafe(h: History, i: nat)
    requires Valid(h) && i < |h.worlds|
    ensures Inv(h.worlds[i]) && NeverTwoLive(h.worlds[i])
  {
    if i > 0 {
      AlwaysSafe(h, i - 1);
      assert Follows(h, i - 1);
      StepKeepsInv(h.worlds[i - 1], h.events[i - 1]);
    }
  }

  lemma RetiredNow(w: World, id: Id)
    requires Inv(w) && id in w.containers && w.service != Some(id)
    ensures Retired(w.containers[id])
  {
    hide ReceiptInv, WatchInv;
  }

  lemma RetiredStep(w: World, e: Event, id: Id)
    requires Inv(w) && Allowed(w, e) && id in w.containers && w.service != Some(id)
    ensures id in Effect(w, e).containers && Effect(w, e).service != Some(id)
    ensures Effect(w, e).containers[id] == w.containers[id]
  {
    RetiredNow(w, id);
  }

  /** A container that stopped being the service's container is dead for good. */
  lemma {:induction false} RetiredForGood(h: History, i: nat, j: nat, id: Id)
    requires Valid(h) && i <= j < |h.worlds|
    requires id in h.worlds[i].containers && h.worlds[i].service != Some(id)
    ensures id in h.worlds[j].containers && h.worlds[j].service != Some(id)
    ensures h.worlds[j].containers[id] == h.worlds[i].containers[id] && Retired(h.worlds[j].containers[id])
  {
    hide Inv, Allowed, Effect, Retired;
    AlwaysSafe(h, i);
    if i < j {
      RetiredForGood(h, i, j - 1, id);
      AlwaysSafe(h, j - 1);
      assert Follows(h, j - 1);
      RetiredStep(h.worlds[j - 1], h.events[j - 1], id);
    } else {
      RetiredNow(h.worlds[i], id);
    }
  }

  /** `up` runs only on proof of exit, and the container it replaces never changes again. */
  lemma UpOnlyAfterExit(h: History, i: nat, p: Path, made: Option<(Id, Container)>, j: nat)
    requires Valid(h) && i < |h.events| && h.events[i] == Recreate(p, made) && i <= j < |h.worlds|
    ensures p in h.worlds[i].receipts && h.worlds[i].receipts[p].container in h.worlds[j].containers
    ensures var r := h.worlds[i].receipts[p];
      && r.phase == ExitVerified && h.worlds[i].service == Some(r.container)
      && h.worlds[j].containers[r.container].policy == No
      && r.exit == Some(h.worlds[j].containers[r.container].proc)
      && CleanExit(r.exit.value, r.exit.value.exitCode)
  {
    hide WatchInv, GenerationInv, RecordInv;
    AlwaysSafe(h, i);
    assert Follows(h, i);
    if i < j {
      RetiredForGood(h, i + 1, j, h.worlds[i].receipts[p].container);
    }
  }

  ghost predicate Recorded(w: World, p: Path) {
    p in w.receipts && TermRecorded(w.receipts[p].phase)
  }

  lemma {:induction false} RecordedStays(h: History, i: nat, j: nat, p: Path)
    requires Valid(h) && i <= j < |h.worlds| && Recorded(h.worlds[i], p)
    ensures Recorded(h.worlds[j], p)
  {
    if i < j {
      RecordedStays(h, i, j - 1, p);
      assert Follows(h, j - 1);
    }
  }

  /** Commands that would reopen admission, drain again or touch the restart policy. */
  predicate Reopens(e: Event, p: Path) {
    (e.Drain? || e.EndDrain? || e.SetPolicy? || e.Answer?) && e.path == p
  }

  /** TERM is write-ahead logged: its intent is durable when it is sent and stays so, and from
      then on no run reopens, drains or restores anything for that receipt. */
  lemma TermIsWriteAhead(h: History, i: nat, p: Path, j: nat)
    requires Valid(h) && i < |h.events| && h.events[i] == Term(p) && i <= j < |h.worlds|
    ensures Recorded(h.worlds[j], p)
    ensures j < |h.events| ==> !Reopens(h.events[j], p)
  {
    assert Follows(h, i);
    RecordedStays(h, i, j, p);
    if j < |h.events| {
      assert Follows(h, j);
    }
  }

  lemma WatchStep(w: World, e: Event, p: Path)
    requires Inv(w) && Allowed(w, e) && Recorded(w, p)
    ensures p in w.watch && p in Effect(w, e).watch && Effect(w, e).watch[p] == w.watch[p]
  {
    hide GenerationInv;
  }

  /** Other receipts may exist for the same container. Whatever their runs do after TERM was sent,
      while the drained process is still the one in the container its admission stays paused for
      the receipt that sent TERM, and it has no work. */
  lemma {:induction false} DrainOutlivesTerm(h: History, i: nat, p: Path, j: nat)
    requires Valid(h) && i < |h.events| && h.events[i] == Term(p) && i <= j < |h.worlds|
    ensures p in h.worlds[i].watch && p in h.worlds[j].watch && h.worlds[j].watch[p] == h.worlds[i].watch[p]
    ensures p in h.worlds[j].receipts && h.worlds[j].receipts[p].container in h.worlds[j].containers
    ensures var c := Captured(h.worlds[j], p);
      c.proc.boot == h.worlds[i].watch[p].boot ==> c.app.paused && c.app.owner == h.worlds[j].receipts[p].owner && c.app.active == map[]
  {
    hide Allowed, Effect, GenerationInv, ServiceInv;
    AlwaysSafe(h, j);
    TermIsWriteAhead(h, i, p, j);
    if i < j {
      DrainOutlivesTerm(h, i, p, j - 1);
      AlwaysSafe(h, j - 1);
      TermIsWriteAhead(h, i, p, j - 1);
      assert Follows(h, j - 1);
      WatchStep(h.worlds[j - 1], h.events[j - 1], p);
    }
  }

  /** The drained answer behind TERM: this receipt's tool read `drained` from the captured
      container, and did not end that drain afterwards. */
  lemma {:induction false} DrainedWasAnswered(h: History, i: nat, p: Path) returns (k: nat)
    requires Valid(h) && i < |h.worlds| && p in h.worlds[i].watch && h.worlds[i].watch[p].drained
    ensures k < i && h.events[k].Answer? && h.events[k].path == p && h.events[k].status.phase == M.Drained
    ensures forall l :: k < l < i && h.events[l].EndDrain? && h.events[l].path == p ==> h.worlds[l + 1] == h.worlds[l]
  {
    assert i > 0;
    assert Follows(h, i - 1);
    var e := h.events[i - 1];
    if e.Answer? && e.path == p {
      k := i - 1;
    } else {
      assert p in h.worlds[i - 1].watch && h.worlds[i - 1].watch[p].drained;
      k := DrainedWasAnswered(h, i - 1, p);
    }
  }

  lemma TermFollowsDrained(h: History, i: nat, p: Path) returns (k: nat)
    requires Valid(h) && i < |h.events| && h.events[i] == Term(p)
    ensures k < i && h.events[k].Answer? && h.events[k].path == p && h.events[k].status.phase == M.Drained
    ensures forall l :: k < l < i && h.events[l].EndDrain? && h.events[l].path == p ==> h.worlds[l + 1] == h.worlds[l]
  {
    AlwaysSafe(h, i);
    assert Follows(h, i);
    k := DrainedWasAnswered(h, i, p);
  }

  /** Anything a run does beyond taking and leaving the lock. */
  predicate Commands(e: Event, p: Path) {
    !e.Env? && !e.Begin? && !e.Stop? && e.path == p
  }

  lemma AbortedStep(w: World, e: Event, p: Path)
    requires Allowed(w, e) && p in w.receipts && w.receipts[p].phase == Aborted
    ensures p in Effect(w, e).receipts && Effect(w, e).receipts[p].phase == Aborted
    ensures !Commands(e, p)
  {
  }

  /** A durable abort is final: no later run signals, replaces or drains under that receipt. */
  lemma {:induction false} AbortedIsFinal(h: History, i: nat, p: Path, j: nat)
    requires Valid(h) && i <= j < |h.worlds|
    requires p in h.worlds[i].receipts && h.worlds[i].receipts[p].phase == Aborted
    ensures p in h.worlds[j].receipts && h.worlds[j].receipts[p].phase == Aborted
    ensures j < |h.events| ==> !Commands(h.events[j], p)
  {
    hide Allowed, Effect;
    if i < j {
      AbortedIsFinal(h, i, p, j - 1);
      assert Follows(h, j - 1);
      AbortedStep(h.worlds[j - 1], h.events[j - 1], p);
    }
    if j < |h.events| {
      assert Follows(h, j);
      AbortedStep(h.worlds[j], h.events[j], p);
    }
  }

  /** TERM interrupts no admitted work, unless the process that was drained has meanwhile been
      replaced by another one inside the container. */
  lemma TermFindsNoWork(h: History, i: nat, p: Path)
    requires Valid(h) && i < |h.events| && h.events[i] == Term(p)
    ensures p in h.worlds[i].watch && Identified(h.worlds[i], p)
    ensures var c := Captured(h.worlds[i], p);
      h.worlds[i].watch[p].boot == c.proc.boot ==> c.app.active == map[] && c.app.paused
  {
    AlwaysSafe(h, i);
    assert Follows(h, i);
  }

  // ---------- when the drain guarantee really holds ----------

  ghost predicate SeenDrained(w: World, p: Path) {
    && Inv(w) && Identified(w, p) && p in w.watch && w.watch[p].drained
    && w.watch[p].boot == Captured(w, p).proc.boot
  }

  lemma StillDrained(w: World, p: Path, m: Move)
    requires SeenDrained(w, p) && !Revives(Captured(w, p))
    ensures SeenDrained(Nature(w, m), p) && !Revives(Captured(Nature(w, m), p))
  {
    hide GenerationInv, RecordInv, ServiceInv;
    NatureKeepsInv(w, m);
    assert Held(w, p);
  }

  lemma {:induction false} NoRestartKeepsDrain(w: World, p: Path, moves: seq<Move>)
    requires SeenDrained(w, p) && !Revives(Captured(w, p))
    ensures SeenDrained(Play(w, moves), p) && !Revives(Captured(Play(w, moves), p))
  {
    hide SeenDrained, Nature, Revives;
    if moves != [] {
      var front := moves[..|moves| - 1];
      NoRestartKeepsDrain(w, p, front);
      StillDrained(Play(w, front), p, moves[|moves| - 1]);
    }
  }

  /** The moves that undo a drain: the process fails unless it is gone, the daemon starts it again, work enters. */
  function CrashAndServe(id: Id, boot: nat): seq<Move> {
    [Proceed(id, Proc(false, 0, Exited, 1, true, boot)), Restart(id, 1), Serve(id, M.Enter(false, None, ""))]
  }

  lemma CrashAndServeAdmitsWork(w: World, p: Path)
    requires Inv(w) && Identified(w, p) && Revives(Captured(w, p))
    ensures var c := Captured(w, p);
      var after := Play(w, CrashAndServe(w.receipts[p].container, c.proc.boot));
      && after == w.(containers := after.containers)
      && Inv(after) && Identified(after, p)
      && Captured(after, p).app.active != map[] && Captured(after, p).proc.running
      && Captured(after, p).policy == c.policy
  {
    var id := w.receipts[p].container;
    var moves := CrashAndServe(id, Captured(w, p).proc.boot);
    var w1 := Nature(w, moves[0]);
    var w2 := Nature(w1, moves[1]);
    PlayThree(w, moves[0], moves[1], moves[2]);
    NatureKeepsInv(w, moves[0]);
    NatureKeepsInv(w1, moves[1]);
    NatureKeepsInv(w2, moves[2]);
    CrashAndServeEffect(w, id);
  }

  lemma CrashAndServeEffect(w: World, id: Id)
    requires id in w.containers && Revives(w.containers[id])
    ensures var moves := CrashAndServe(id, w.containers[id].proc.boot);
      var after := Nature(Nature(Nature(w, moves[0]), moves[1]), moves[2]);
      && after == w.(containers := after.containers)
      && id in after.containers && 1 in after.containers[id].app.active && after.containers[id].proc.running
      && after.containers[id].policy == w.containers[id].policy
  {
    var moves := CrashAndServe(id, w.containers[id].proc.boot);
    var w1 := Nature(w, moves[0]);
    assert !w1.containers[id].proc.running && Restarts(w1.containers[id]);
    var w2 := Nature(w1, moves[1]);
    assert w2.containers[id].proc.running && w2.containers[id].app == M.INITIAL;
  }

  lemma PlayThree(w: World, a: Move, b: Move, c: Move)
    ensures Play(w, [a, b, c]) == Nature(Nature(Nature(w, a), b), c)
  {
    assert [a, b, c][..2] == [a, b] && [a, b][..1] == [a] && [a][..0] == [];
    assert Play(w, [a]) == Nature(w, a);
    assert Play(w, [a, b]) == Nature(Nature(w, a), b);
  }

  predicate Workless(w: World, id: Id) {
    id in w.containers ==> w.containers[id].app.active == map[]
  }

  /** The exact condition under which a drained answer stays true: Docker cannot give the container
      another process, because the restart policy is off or the process has ended for good. The
      answer comes from a live process, and the tool turns the policy off only afterwards. */
  lemma DrainLastsIffRestartIsOff(w: World, p: Path)
    requires SeenDrained(w, p)
    ensures (forall moves :: Workless(Play(w, moves), w.receipts[p].container)) <==> !Revives(Captured(w, p))
  {
    var id := w.receipts[p].container;
    if !Revives(Captured(w, p)) {
      forall moves: seq<Move>
        ensures Workless(Play(w, moves), id)
      {
        NoRestartKeepsDrain(w, p, moves);
        KeepsReceipts(w, moves);
        SeenIsWorkless(Play(w, moves), p);
      }
    } else {
      CrashAndServeAdmitsWork(w, p);
      var after := Play(w, CrashAndServe(id, Captured(w, p).proc.boot));
      assert !Workless(after, id);
    }
  }

  lemma SeenIsWorkless(w: World, p: Path)
    requires SeenDrained(w, p)
    ensures Workless(w, w.receipts[p].container)
  {
    assert Held(w, p);
  }

  lemma {:induction false} KeepsReceipts(w: World, moves: seq<Move>)
    ensures Play(w, moves).receipts == w.receipts && Play(w, moves).service == w.service
    ensures Play(w, moves).containers.Keys == w.containers.Keys
  {
    if moves != [] {
      KeepsReceipts(w, moves[..|moves| - 1]);
    }
  }

  /** The gap is real: from a `drained` that the run under way has just made durable, if Docker can
      restart the container, the remaining commands of that run can end with TERM sent into
      admitted work. */
  lemma TermCanInterruptWork(w: World, p: Path)
    requires SeenDrained(w, p) && w.receipts[p].phase == Drained && Told(w, p, w.receipts[p].generation) && Revives(Captured(w, p))
    ensures var r := w.receipts[p];
      var w1 := Play(w, CrashAndServe(r.container, Captured(w, p).proc.boot));
      && Allowed(w1, Save(p, r.(phase := RestartDisable)))
      && var w2 := Effect(w1, Save(p, r.(phase := RestartDisable)));
      && Allowed(w2, SetPolicy(p, No))
      && var w3 := Effect(w2, SetPolicy(p, No));
      && Allowed(w3, Save(p, r.(phase := TermRequested)))
      && var w4 := Effect(w3, Save(p, r.(phase := TermRequested)));
      && Allowed(w4, Term(p))
      && Captured(w4, p).proc.running && Captured(w4, p).app.active != map[]
  {
    hide Play, CrashAndServe, Inv, SeenDrained, Allowed, Effect;
    SeenFlag(w, p);
    CrashAndServeAdmitsWork(w, p);
    RestOfRun(Play(w, CrashAndServe(w.receipts[p].container, Captured(w, p).proc.boot)), p);
  }

  /** Nothing in the rest of the run looks at the application again. */
  lemma RestOfRun(w: World, p: Path)
    requires Identified(w, p) && w.receipts[p].phase == Drained && Told(w, p, w.receipts[p].generation)
    requires p in w.watch && w.watch[p].drained && Known(w, w.receipts[p].generation)
    ensures var r := w.receipts[p];
      && Allowed(w, Save(p, r.(phase := RestartDisable)))
      && var w2 := Effect(w, Save(p, r.(phase := RestartDisable)));
      && Allowed(w2, SetPolicy(p, No))
      && var w3 := Effect(w2, SetPolicy(p, No));
      && Allowed(w3, Save(p, r.(phase := TermRequested)))
      && var w4 := Effect(w3, Save(p, r.(phase := TermRequested)));
      && Allowed(w4, Term(p)) && Captured(w4, p) == Captured(w, p).(policy := No)
  {
  }

  lemma SeenFlag(w: World, p: Path)
    requires SeenDrained(w, p)
    ensures Inv(w) && Identified(w, p) && p in w.watch && w.watch[p].drained && Known(w, w.receipts[p].generation)
  {
  }
}
