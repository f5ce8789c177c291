/** What deployment runs can still reach: how a history goes on, and from where an interrupted run
    can be finished. */
module DeployProgress {
  import opened Base
  import opened DeployWorld
  import opened DeployHistory
  import M = Maintenance

  ghost function Last(h: History): World
    requires Valid(h)
  {
    h.worlds[|h.events|]
  }

  ghost predicate Continues(h: History, g: History) {
    Valid(h) && Valid(g) && h.events <= g.events && h.worlds <= g.worlds
  }

  lemma Extend(h: History, e: Event) returns (g: History)
    requires Valid(h) && Allowed(Last(h), e)
    ensures Continues(h, g) && g.events == h.events + [e] && Last(g) == Effect(Last(h), e)
  {
    g := History(h.events + [e], h.worlds + [Effect(Last(h), e)]);
    forall i | 0 <= i < |g.events| ensures Follows(g, i) {
      assert i < |h.events| ==> Follows(h, i);
    }
  }

  lemma LastIsSafe(h: History)
    requires Valid(h)
    ensures Inv(Last(h))
  {
    AlwaysSafe(h, |h.events|);
  }

  lemma PassesThrough(h: History, g: History)
    requires Continues(h, g)
    ensures |g.worlds| == |g.events| + 1 && g.worlds[|h.events|] == Last(h)
  {
  }

  /** Events that end no drain and turn no restart on. */
  predicate Calm(e: Event) {
    !e.EndDrain? && (e.SetPolicy? ==> e.policy == No)
  }

  ghost predicate Calmly(h: History, g: History) {
    Continues(h, g) && forall i :: |h.events| <= i < |g.events| ==> Calm(g.events[i])
  }

  /** The lemmas below carry a history `h` on, by calm events since `base`. */
  lemma Go(base: History, h: History, e: Event) returns (g: History)
    requires Calmly(base, h) && Calm(e) && Allowed(Last(h), e)
    ensures Calmly(base, g) && Continues(h, g) && g.events == h.events + [e] && Last(g) == Effect(Last(h), e)
  {
    g := Extend(h, e);
    forall i | |base.events| <= i < |g.events| ensures Calm(g.events[i]) {
      assert i < |h.events| ==> g.events[i] == h.events[i];
    }
  }

  lemma TakeTurn(base: History, h: History, p: Path) returns (g: History)
    requires Calmly(base, h)
    ensures Calmly(base, g) && Last(g) == Last(h).(turn := Some(Turn(p, None, false)))
  {
    hide Valid;
    g := h;
    if Last(h).turn.Some? {
      g := Go(base, g, Stop);
    }
    g := Go(base, g, Begin(p));
  }

  // ---------- finishing an interrupted run ----------

  /** The captured container runs an application the owner of this receipt can drain; a drain
      the receipt already names is still the one that is held. */
  predicate Drainable(w: World, p: Path) {
    && Identified(w, p) && BeforeTerm(w.receipts[p].phase) && Accepts(w, p)
    && (w.receipts[p].generation.Some? ==> Holds(w, p))
  }

  /** The captured application holds the very drain the receipt names. */
  predicate Holds(w: World, p: Path)
    requires p in w.receipts && w.receipts[p].container in w.containers
  {
    var r, app := w.receipts[p], Captured(w, p).app;
    app.paused && app.owner == r.owner && Some(app.generation) == r.generation
  }

  /** No drain is on record yet, and Docker can give the captured container a new process. */
  predicate Restartable(w: World, p: Path) {
    && Identified(w, p) && BeforeTerm(w.receipts[p].phase) && w.receipts[p].generation.None?
    && Revives(Captured(w, p))
  }

  /** The world but for one container. */
  function With(w: World, id: Id, c: Container): World {
    w.(containers := w.containers[id := c])
  }

  lemma OneEnds(w: World, id: Id, k: nat)
    requires id in w.containers && w.containers[id].proc.running && k in w.containers[id].app.active
    ensures var c := w.containers[id];
      var rest := c.app.active - {k};
      Effect(w, Env(Serve(id, M.Release(k)))) == With(w, id, c.(app := c.app.(active := rest))) && |rest| < |c.app.active|
  {
    var active := w.containers[id].app.active;
    var rest := active - {k};
    assert rest.Keys == active.Keys - {k};
    assert |rest| == |rest.Keys| && |active| == |active.Keys|;
  }

  lemma WithTwice(w: World, id: Id, c: Container, d: Container)
    ensures With(With(w, id, c), id, d) == With(w, id, d)
  {
  }

  lemma WithItself(w: World, id: Id)
    requires id in w.containers
    ensures With(w, id, w.containers[id]) == w
  {
    assert w.containers[id := w.containers[id]] == w.containers;
  }

  /** Admitted work can end, one piece after the other. */
  lemma {:induction false} WorkCanEnd(base: History, h: History, id: Id) returns (g: History)
    requires Calmly(base, h) && id in Last(h).containers && Last(h).containers[id].proc.running
    ensures Calmly(base, g)
    ensures var c := Last(h).containers[id]; Last(g) == With(Last(h), id, c.(app := c.app.(active := map[])))
    decreases |Last(h).containers[id].app.active|
  {
    var c := Last(h).containers[id];
    hide Valid, Effect;
    if c.app.active == map[] {
      g := h;
      WithItself(Last(h), id);
    } else {
      var k :| k in c.app.active;
      OneEnds(Last(h), id, k);
      g := Go(base, h, Env(Serve(id, M.Release(k))));
      var d := Last(g).containers[id];
      g := WorkCanEnd(base, g, id);
      WithTwice(Last(h), id, d, Last(g).containers[id]);
    }
  }

  predicate Restarted(c: Container, d: Container) {
    d.proc.running && d.app == M.INITIAL && d.policy == c.policy && d.drainLabel == c.drainLabel
  }

  lemma CanRestart(base: History, h: History, id: Id) returns (g: History)
    requires Calmly(base, h) && id in Last(h).containers && Revives(Last(h).containers[id])
    ensures Calmly(base, g) && id in Last(g).containers && Restarted(Last(h).containers[id], Last(g).containers[id])
    ensures Last(g) == With(Last(h), id, Last(g).containers[id])
  {
    hide Valid;
    var c := Last(h).containers[id];
    g := h;
    if !Gone(c.proc) {
      g := Go(base, g, Env(Proceed(id, Proc(false, 0, Exited, 1, true, c.proc.boot))));
    }
    g := Go(base, g, Env(Restart(id, 1)));
  }

  /** What a run changes besides its own receipt and the captured container. */
  predicate Around(w: World, v: World, p: Path) {
    && p in w.receipts && p in v.receipts
    && v.service == w.service && v.receipts == w.receipts[p := v.receipts[p]]
    && v.receipts[p].container == w.receipts[p].container && v.containers.Keys == w.containers.Keys
  }

  lemma CanReachDrained(base: History, h: History, p: Path) returns (g: History)
    requires Calmly(base, h) && Turns(Last(h), p) && Drainable(Last(h), p)
    ensures Calmly(base, g) && Around(Last(h), Last(g), p) && SeenDrained(Last(g), p)
    ensures Last(g).receipts[p].phase == Drained && Told(Last(g), p, Last(g).receipts[p].generation)
    ensures Captured(Last(g), p).proc.running && Captured(Last(g), p).policy == Captured(Last(h), p).policy
  {
    hide Valid, Inv;
    g := BeginsDraining(base, h, p);
    g := WorkCanEnd(base, g, Last(g).receipts[p].container);
    g := ReadsDrained(base, g, p);
  }

  /** The run has paused the captured application and recorded it. */
  predicate Paused(w: World, p: Path) {
    && Identified(w, p) && w.receipts[p].phase == Draining && Told(w, p, w.receipts[p].generation) && p in w.watch
    && var c := Captured(w, p);
      c.proc.running && c.drainLabel && !c.app.terminal && c.app.paused && w.watch[p].boot == c.proc.boot
  }

  lemma BeginsDraining(base: History, h: History, p: Path) returns (g: History)
    requires Calmly(base, h) && Turns(Last(h), p) && Drainable(Last(h), p)
    ensures Calmly(base, g) && Around(Last(h), Last(g), p) && Paused(Last(g), p)
    ensures Captured(Last(g), p).policy == Captured(Last(h), p).policy
  {
    hide Valid, Core;
    LastIsSafe(h);
    g := Go(base, h, Drain(p));
    g := Go(base, g, Answer(p, M.Observe(Captured(Last(g), p).app)));
    LastIsSafe(g);
    var generation := Some(Captured(Last(g), p).app.generation);
    g := Go(base, g, Save(p, Last(h).receipts[p].(phase := Draining, generation := generation)));
  }

  lemma ReadsDrained(base: History, h: History, p: Path) returns (g: History)
    requires Calmly(base, h) && Paused(Last(h), p) && Captured(Last(h), p).app.active == map[]
    ensures Calmly(base, g) && Around(Last(h), Last(g), p) && SeenDrained(Last(g), p)
    ensures Last(g).containers == Last(h).containers
    ensures Last(g).receipts[p].phase == Drained && Told(Last(g), p, Last(g).receipts[p].generation)
  {
    hide Valid, Core;
    LastIsSafe(h);
    g := Go(base, h, Answer(p, M.Observe(Captured(Last(h), p).app)));
    g := Go(base, g, Save(p, Last(h).receipts[p].(phase := Drained)));
    LastIsSafe(g);
  }

  lemma CanReachTerm(base: History, h: History, p: Path) returns (g: History)
    requires Calmly(base, h) && Identified(Last(h), p) && Last(h).receipts[p].phase == Drained
    requires Told(Last(h), p, Last(h).receipts[p].generation) && p in Last(h).watch && Last(h).watch[p].drained
    ensures Calmly(base, g) && Around(Last(h), Last(g), p) && Last(g).receipts[p].phase == TermRequested && Turns(Last(g), p)
    ensures Captured(Last(g), p) == Captured(Last(h), p).(policy := No)
    ensures |g.events| > |h.events| && g.events[|g.events| - 1] == Term(p)
  {
    hide Valid, Core;
    LastIsSafe(h);
    var r := Last(h).receipts[p];
    g := Go(base, h, Save(p, r.(phase := RestartDisable)));
    g := Go(base, g, SetPolicy(p, No));
    g := Go(base, g, Save(p, r.(phase := TermRequested)));
    g := Go(base, g, Term(p));
  }

  /** The exit of the captured process can be proved: it still runs, or it ended as demanded. */
  predicate Provable(c: Container) {
    c.policy == No && (!Gone(c.proc) || CleanExit(c.proc, c.proc.exitCode))
  }

  /** Up to and including `up`. */
  lemma CanReachUp(base: History, h: History, p: Path, made: Id, c: Container) returns (g: History)
    requires Calmly(base, h) && Turns(Last(h), p) && Identified(Last(h), p)
    requires Last(h).receipts[p].phase in {TermRequested, ExitVerified} && Provable(Captured(Last(h), p))
    requires made !in Last(h).containers && c.app == M.INITIAL
    ensures Calmly(base, g) && p in Last(g).receipts && Last(g).receipts[p].phase == ExitVerified
    ensures Last(g).receipts[p].container in Last(h).containers && Known(Last(g), Last(g).receipts[p].generation)
    ensures Last(g).service == Some(made) && made in Last(g).containers && Last(g).containers[made] == c
    ensures Last(g).receipts[p].container in Last(g).containers && Turns(Last(g), p) && Last(g).turn.value.recreated
  {
    hide Valid, Core;
    LastIsSafe(h);
    var r := Last(h).receipts[p];
    g := h;
    if !Gone(Captured(Last(h), p).proc) {
      g := Go(base, g, Env(Proceed(r.container, Proc(false, 0, Exited, 0, true, Captured(Last(h), p).proc.boot))));
    }
    var exited := Captured(Last(g), p).proc;
    g := Go(base, g, Save(p, r.(phase := ExitVerified, exit := Some(exited))));
    g := Go(base, g, Recreate(p, Some((made, c))));
  }

  lemma CanReachReplaced(base: History, h: History, p: Path, made: Id, c: Container) returns (g: History)
    requires Calmly(base, h) && Turns(Last(h), p) && Identified(Last(h), p)
    requires Last(h).receipts[p].phase in {TermRequested, ExitVerified} && Provable(Captured(Last(h), p))
    requires made !in Last(h).containers && c.app == M.INITIAL
    ensures Calmly(base, g) && Finished(Last(g), p)
    ensures Last(g).service == Some(made) && made in Last(g).containers && Last(g).containers[made] == c
  {
    hide Valid;
    g := CanReachUp(base, h, p, made, c);
    var r := Last(g).receipts[p];
    g := Go(base, g, Save(p, r.(phase := Replaced, replacement := Some(made))));
  }

  predicate Finished(w: World, p: Path) {
    p in w.receipts && w.receipts[p].phase == Replaced
  }

  /** Before TERM an interrupted run can be finished, however much work is still admitted, if the
      captured container is still the service's and either its application can be drained under
      the drain on record, or none is on record and Docker can restart the container. */
  lemma ResumeCanFinish(h: History, p: Path, made: Id, c: Container) returns (g: History)
    requires Valid(h) && (Drainable(Last(h), p) || Restartable(Last(h), p))
    requires made !in Last(h).containers && c.app == M.INITIAL
    ensures Continues(h, g) && Finished(Last(g), p)
    ensures Last(g).service == Some(made) && made in Last(g).containers && Last(g).containers[made] == c
  {
    g := h;
    assert Calmly(h, g);
    hide Valid, Inv;
    if !Drainable(Last(h), p) {
      g := CanRestart(h, g, Last(h).receipts[p].container);
    }
    g := TakeTurn(h, g, p);
    g := CanReachDrained(h, g, p);
    SeenFlag(Last(g), p);
    g := CanReachTerm(h, g, p);
    g := CanReachReplaced(h, g, p, made, c);
  }

  /** A first run has prepared receipt 0 for a service that runs under policy `always`. */
  lemma Started() returns (h: History)
    ensures Valid(h) && Turns(Last(h), 0) && Drainable(Last(h), 0) && Captured(Last(h), 0).policy == Always
    ensures Last(h).containers.Keys == {0}
  {
    var c := Container(Proc(true, 1, Up, 0, false, 0), Always, true, M.INITIAL);
    h := History([], [World(map[0 := c], Some(0), map[], map[], None, 0, 1)]);
    assert Valid(h);
    h := Extend(h, Begin(0));
    h := Extend(h, Save(0, Receipt(Prepared, 0, 0, None, Always, 60, None, None)));
  }
}
