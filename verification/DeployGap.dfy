/** When the TERM of a deployment can interrupt admitted work. */
module DeployGap {
  import opened Base
  import opened DeployWorld
  import opened DeployHistory
  import opened DeployProgress
  import opened DeployDeadEnds
  import M = Maintenance

  /** From `h` to `g` nobody ends this receipt's drain or turns the container's restart on again. */
  ghost predicate Undisturbed(h: History, g: History, p: Path) {
    Continues(h, g) && forall i :: |h.events| <= i < |g.events| ==> Leaves(g.worlds[i], g.events[i], p)
  }

  predicate Leaves(w: World, e: Event, p: Path) {
    && !(e.EndDrain? && e.path == p)
    && !(e.SetPolicy? && e.policy != No && e.path in w.receipts && p in w.receipts && w.receipts[e.path].container == w.receipts[p].container)
  }

  lemma CalmIsUndisturbed(h: History, g: History, p: Path)
    requires Calmly(h, g)
    ensures Undisturbed(h, g, p)
  {
    PassesThrough(h, g);
    hide Valid;
    forall i | |h.events| <= i < |g.events| ensures Leaves(g.worlds[i], g.events[i], p) {
      assert Calm(g.events[i]);
    }
  }

  /** Paused for this receipt, without work, and Docker will not restart it. */
  predicate HeldEmpty(w: World, p: Path) {
    && p in w.receipts && w.receipts[p].container in w.containers
    && var c := Captured(w, p);
      !Revives(c) && c.app.paused && c.app.owner == w.receipts[p].owner && c.app.active == map[]
  }

  lemma HeldNature(w: World, m: Move, p: Path)
    requires Inv(w) && HeldEmpty(w, p)
    ensures HeldEmpty(Nature(w, m), p)
  {
    hide Core, GenerationInv, RecordInv;
  }

  lemma HeldCommand(w: World, e: Event, p: Path)
    requires Inv(w) && Allowed(w, e) && HeldEmpty(w, p) && Leaves(w, e, p) && !e.Env?
    ensures HeldEmpty(Effect(w, e), p)
  {
    hide ServiceInv, WatchInv, GenerationInv, RecordInv, MayAdvance, Told, Asked, Proven;
  }

  lemma {:induction false} HeldThrough(h: History, g: History, p: Path, k: nat)
    requires Undisturbed(h, g, p) && HeldEmpty(Last(h), p) && |h.events| <= k <= |g.events|
    ensures HeldEmpty(g.worlds[k], p)
  {
    hide Inv, Allowed, HeldEmpty, Leaves, Nature;
    if k == |h.events| {
      assert g.worlds[k] == h.worlds[k];
    } else {
      HeldThrough(h, g, p, k - 1);
      AlwaysSafe(g, k - 1);
      assert Follows(g, k - 1);
      var e := g.events[k - 1];
      if e.Env? {
        HeldNature(g.worlds[k - 1], e.move, p);
      } else {
        HeldCommand(g.worlds[k - 1], e, p);
      }
    }
  }

  /** `g` goes on from `h` and has just sent TERM. */
  ghost predicate SendsTerm(h: History, g: History, p: Path) {
    Undisturbed(h, g, p) && |h.events| < |g.events| && g.events[|g.events| - 1] == Term(p)
  }

  /** The exact condition on a durable `drained` whose answer is still true: TERM, whenever this run
      or a later one sends it, finds no admitted work if and only if Docker cannot restart the
      container, or no run ever sends it because the drain cannot be taken up again. The tool turns
      restart off only afterwards. */
  lemma TermIsSafeIffRestartIsOff(h: History, p: Path)
    requires Valid(h) && SeenDrained(Last(h), p) && Last(h).receipts[p].phase == Drained
    ensures (forall g :: SendsTerm(h, g, p) ==> Workless(Last(g), Last(h).receipts[p].container)) <==>
      !Revives(Captured(Last(h), p)) || Dry(Last(h), p)
  {
    hide Valid, Inv, SeenDrained, Dry, Revives;
    SeenFlag(Last(h), p);
    var id := Last(h).receipts[p].container;
    if Dry(Last(h), p) {
      forall g ensures !SendsTerm(h, g, p) {
        DrySendsNoTerm(h, g, p);
      }
    } else if !Revives(Captured(Last(h), p)) {
      forall g | SendsTerm(h, g, p) ensures Workless(Last(g), id) {
        TermFindsHeld(h, g, p);
      }
    } else {
      var g := TermMeetsWork(h, p);
    }
  }

  lemma {:induction false} DryStays(h: History, i: nat, p: Path, j: nat)
    requires Valid(h) && i <= j < |h.worlds| && Dry(h.worlds[i], p)
    ensures Dry(h.worlds[j], p)
  {
    hide Inv, Allowed, Effect, Dry;
    if i < j {
      DryStays(h, i, p, j - 1);
      AlwaysSafe(h, j - 1);
      assert Follows(h, j - 1);
      DryStep(h.worlds[j - 1], h.events[j - 1], p);
    }
  }

  lemma TermIsNotNext(g: History, k: nat, p: Path)
    requires Valid(g) && k < |g.events| && Dry(g.worlds[k], p)
    ensures g.events[k] != Term(p)
  {
    assert Follows(g, k);
  }

  lemma DrySendsNoTerm(h: History, g: History, p: Path)
    requires Valid(h) && Dry(Last(h), p)
    ensures !SendsTerm(h, g, p)
  {
    hide Dry;
    if Continues(h, g) && |h.events| < |g.events| {
      PassesThrough(h, g);
      DryStays(g, |h.events|, p, |g.events| - 1);
      TermIsNotNext(g, |g.events| - 1, p);
    }
  }

  lemma TermFindsHeld(h: History, g: History, p: Path)
    requires Valid(h) && SeenDrained(Last(h), p) && !Revives(Captured(Last(h), p)) && SendsTerm(h, g, p)
    ensures Workless(Last(g), Last(h).receipts[p].container)
  {
    hide Valid, Inv, Revives;
    SeenIsHeld(Last(h), p);
    HeldThrough(h, g, p, |g.events|);
    SameContainer(h, g, p, |g.events|);
  }

  lemma SeenIsHeld(w: World, p: Path)
    requires SeenDrained(w, p) && !Revives(Captured(w, p))
    ensures HeldEmpty(w, p)
  {
    hide Revives;
    assert Held(w, p);
  }

  lemma {:induction false} SameContainer(h: History, g: History, p: Path, k: nat)
    requires Continues(h, g) && p in Last(h).receipts && |h.events| <= k <= |g.events|
    ensures p in g.worlds[k].receipts && g.worlds[k].receipts[p].container == Last(h).receipts[p].container
  {
    hide MayAdvance, MaySetPolicy;
    if k == |h.events| {
      assert g.worlds[k] == h.worlds[k];
    } else {
      SameContainer(h, g, p, k - 1);
      assert Follows(g, k - 1);
    }
  }

  /** If Docker can restart the container: the run under way, or else the next one, has `drained` on
      record; the process dies, Docker restarts it, work is admitted, and the run sends TERM. */
  lemma TermMeetsWork(h: History, p: Path) returns (g: History)
    requires Valid(h) && SeenDrained(Last(h), p) && Last(h).receipts[p].phase == Drained
    requires Revives(Captured(Last(h), p)) && !Dry(Last(h), p)
    ensures SendsTerm(h, g, p)
    ensures p in Last(g).receipts && Last(g).receipts[p].container == Last(h).receipts[p].container
    ensures !Workless(Last(g), Last(h).receipts[p].container)
  {
    assert Calmly(h, h);
    hide Valid, Inv, SeenDrained, Revives, Dry, Workless;
    SeenFlag(Last(h), p);
    if Told(Last(h), p, Last(h).receipts[p].generation) {
      g := WorkThenTerm(h, h, p);
    } else {
      g := DrainedAgain(h, p);
      g := WorkThenTerm(h, g, p);
    }
    CalmIsUndisturbed(h, g, p);
  }

  lemma DrainedAgain(h: History, p: Path) returns (g: History)
    requires Valid(h) && SeenDrained(Last(h), p) && Last(h).receipts[p].phase == Drained
    requires Revives(Captured(Last(h), p)) && !Dry(Last(h), p) && !Told(Last(h), p, Last(h).receipts[p].generation)
    ensures Calmly(h, g) && Identified(Last(g), p) && Last(g).receipts[p].phase == Drained
    ensures Last(g).receipts[p].container == Last(h).receipts[p].container
    ensures Told(Last(g), p, Last(g).receipts[p].generation) && p in Last(g).watch && Last(g).watch[p].drained
    ensures Revives(Captured(Last(g), p))
  {
    assert Calmly(h, h);
    hide Valid, Inv, SeenDrained, Revives, Dry, Drainable;
    SeenFlag(Last(h), p);
    NotDryIsDrainable(Last(h), p);
    g := TakeTurn(h, h, p);
    StillDrainable(Last(h), Last(g), p);
    g := CanReachDrained(h, g, p);
    SeenFlag(Last(g), p);
    RunningRevives(Captured(Last(g), p), Captured(Last(h), p));
  }

  lemma StillDrainable(w: World, v: World, p: Path)
    requires Drainable(w, p) && v == w.(turn := v.turn)
    ensures Drainable(v, p)
  {
  }

  lemma NotDryIsDrainable(w: World, p: Path)
    requires SeenDrained(w, p) && w.receipts[p].phase == Drained && !Dry(w, p) && !Told(w, p, w.receipts[p].generation)
    requires Revives(Captured(w, p))
    ensures Drainable(w, p) && Captured(w, p).policy != No
  {
    hide Core, GenerationInv;
  }

  lemma RunningRevives(c: Container, d: Container)
    requires c.proc.running && c.policy == d.policy && d.policy != No
    ensures Revives(c)
  {
  }

  lemma WorkThenTerm(base: History, h: History, p: Path) returns (g: History)
    requires Calmly(base, h) && Identified(Last(h), p) && Last(h).receipts[p].phase == Drained
    requires Told(Last(h), p, Last(h).receipts[p].generation) && p in Last(h).watch && Last(h).watch[p].drained
    requires Revives(Captured(Last(h), p))
    ensures Calmly(base, g) && |g.events| > |h.events| && g.events[|g.events| - 1] == Term(p)
    ensures p in Last(g).receipts && Last(g).receipts[p].container == Last(h).receipts[p].container
    ensures !Workless(Last(g), Last(h).receipts[p].container)
  {
    hide Valid, Inv, Revives, MaySave;
    var id := Last(h).receipts[p].container;
    var moves := CrashAndServe(id, Captured(Last(h), p).proc.boot);
    g := Go(base, h, Env(moves[0]));
    g := Go(base, g, Env(moves[1]));
    g := Go(base, g, Env(moves[2]));
    CrashAndServeEffect(Last(h), id);
    g := CanReachTerm(base, g, p);
  }

  /** The gap is reachable: from a service that starts running with policy `always`, some history
      of one deployment sends TERM to an application with admitted work. */
  lemma GapIsReachable() returns (g: History)
    ensures Valid(g) && g.events != [] && g.events[|g.events| - 1] == Term(0)
    ensures var w := Last(g);
      0 in w.receipts && w.receipts[0].container in w.containers && Captured(w, 0).app.active != map[]
  {
    var h := Started();
    assert Calmly(h, h);
    hide Valid, Inv;
    h := CanReachDrained(h, h, 0);
    SeenFlag(Last(h), 0);
    RunningRevives(Captured(Last(h), 0), Captured(Last(h), 0));
    assert Calmly(h, h);
    g := WorkThenTerm(h, h, 0);
    LastIsSafe(g);
  }
}
