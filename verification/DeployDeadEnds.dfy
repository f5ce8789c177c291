/** From where an interrupted deployment can still be finished, and from where never again. */
module DeployDeadEnds {
  import opened Base
  import opened DeployWorld
  import opened DeployHistory
  import opened DeployProgress
  import M = Maintenance

  // ---------- a lost drain ----------

  /** The receipt names a drain that its captured container no longer holds. */
  predicate Lost(w: World, p: Path) {
    p in w.receipts && w.receipts[p].container in w.containers && w.receipts[p].generation.Some? && !Holds(w, p)
  }

  lemma LostStep(w: World, e: Event, p: Path)
    requires Inv(w) && Allowed(w, e) && Lost(w, p)
    ensures Lost(Effect(w, e), p)
  {
    hide Core, RecordInv, MayAdvance, MaySetPolicy, Asked;
  }

  /** A lost drain never comes back, whatever runs are made and whatever clients do: generations
      are not handed out twice. */
  lemma {:induction false} LostForGood(h: History, i: nat, p: Path, j: nat)
    requires Valid(h) && i <= j < |h.worlds| && Lost(h.worlds[i], p)
    ensures Lost(h.worlds[j], p)
  {
    hide Inv, Allowed, Effect, Lost;
    if i < j {
      LostForGood(h, i, p, j - 1);
      AlwaysSafe(h, j - 1);
      assert Follows(h, j - 1);
      LostStep(h.worlds[j - 1], h.events[j - 1], p);
    }
  }

  /** If Docker can restart the container, the drain on record can be lost at any time before TERM. */
  lemma RestartLosesDrain(h: History, p: Path) returns (g: History)
    requires Valid(h) && Identified(Last(h), p) && Last(h).receipts[p].generation.Some? && Revives(Captured(Last(h), p))
    ensures Continues(h, g) && Lost(Last(g), p) && Captured(Last(g), p).proc.running
  {
    assert Calmly(h, h);
    g := CanRestart(h, h, Last(h).receipts[p].container);
  }

  /** So is a drain that an abort ended before `aborted` became durable: admission is open again
      and the receipt still says that it is not. */
  lemma AbortLosesDrain(h: History, p: Path) returns (g: History)
    requires Valid(h) && Drainable(Last(h), p) && Last(h).receipts[p].generation.Some?
    ensures Continues(h, g) && Last(g).turn == None && Last(g).receipts == Last(h).receipts
    ensures Lost(Last(g), p) && !Captured(Last(g), p).app.paused
  {
    assert Calmly(h, h);
    hide Valid, Inv;
    LastIsSafe(h);
    var r := Last(h).receipts[p];
    g := OwnerCanEnd(h, p);
    g := Extend(g, Stop);
  }

  /** A drain request for a drain that is held already tells its generation and changes nothing. */
  lemma DrainsAgain(w: World, q: Path)
    requires w.turn == Some(Turn(q, None, false)) && Identified(w, q) && BeforeTerm(w.receipts[q].phase) && Captured(w, q).drainLabel
    requires Accepts(w, q) && Captured(w, q).app.paused
    ensures Allowed(w, Drain(q))
    ensures var v := Effect(w, Drain(q));
      && v.containers == w.containers && v.receipts == w.receipts && v.service == w.service
      && v.turn == Some(Turn(q, Some(Captured(w, q).app.generation), false))
      && q in v.watch
  {
    var v := Effect(w, Drain(q));
    assert v.containers[w.receipts[q].container] == w.containers[w.receipts[q].container];
  }

  lemma EndsIt(w: World, q: Path)
    requires Identified(w, q) && BeforeTerm(w.receipts[q].phase) && Captured(w, q).drainLabel && Accepts(w, q)
    requires Captured(w, q).app.paused && w.turn == Some(Turn(q, Some(Captured(w, q).app.generation), false)) && Asked(w, q)
    requires Captured(w, q).policy == w.receipts[q].policy
    ensures var c, e := Captured(w, q), EndDrain(q, Captured(w, q).app.generation);
      && Allowed(w, e) && var v := Effect(w, e);
      && v.receipts == w.receipts && v.service == w.service && v.turn == w.turn
      && v.containers == w.containers[w.receipts[q].container := c.(app := c.app.(paused := false))]
  {
  }

  lemma RestoresPolicy(w: World, q: Path)
    requires Inv(w) && Identified(w, q) && BeforeTerm(w.receipts[q].phase) && Captured(w, q).proc.running && Asked(w, q)
    ensures var c, e := Captured(w, q), SetPolicy(q, w.receipts[q].policy);
      Allowed(w, e) && Effect(w, e) == w.(containers := w.containers[w.receipts[q].container := c.(policy := w.receipts[q].policy)])
  {
    hide ServiceInv, WatchInv, GenerationInv, RecordInv;
    forall p | p in w.receipts && w.receipts[p].container == w.receipts[q].container ensures w.receipts[p].phase != ExitVerified {
      assert w.receipts[p].phase == ExitVerified ==> Proven(w, p);
    }
  }

  lemma HasLabel(w: World, p: Path)
    requires Inv(w) && p in w.receipts && w.receipts[p].container in w.containers
    ensures Captured(w, p).drainLabel
  {
    hide Core;
  }

  lemma MayAnswer(w: World, p: Path)
    requires Turns(w, p) && Identified(w, p) && BeforeTerm(w.receipts[p].phase) && p in w.watch
    requires Captured(w, p).proc.running && Captured(w, p).drainLabel
    ensures var e := Answer(p, M.Observe(Captured(w, p).app)); Allowed(w, e) && Effect(w, e) == w.(watch := Effect(w, e).watch)
  {
  }

  /** An owner whose drain is held can take it up in a new run. */
  predicate Resumable(w: World, q: Path) {
    && Identified(w, q) && BeforeTerm(w.receipts[q].phase) && Accepts(w, q) && Captured(w, q).app.paused
    && (w.receipts[q].generation.Some? ==> w.receipts[q].generation == Some(Captured(w, q).app.generation))
  }

  lemma CanAsk(h: History, q: Path) returns (g: History)
    requires Valid(h) && Resumable(Last(h), q)
    ensures Continues(h, g) && Last(g).receipts == Last(h).receipts && Last(g).service == Last(h).service
    ensures Last(g).containers == Last(h).containers && q in Last(g).watch
    ensures Last(g).turn == Some(Turn(q, Some(Captured(Last(h), q).app.generation), false))
  {
    assert Calmly(h, h);
    hide Valid, Inv, Allowed, Effect;
    LastIsSafe(h);
    HasLabel(Last(h), q);
    g := TakeTurn(h, h, q);
    DrainsAgain(Last(g), q);
    g := Extend(g, Drain(q));
  }

  /** And end it. */
  lemma OwnerCanEnd(h: History, q: Path) returns (g: History)
    requires Valid(h) && Resumable(Last(h), q)
    ensures Continues(h, g) && Last(g).receipts == Last(h).receipts && Last(g).service == Last(h).service && Last(g).turn.Some?
    ensures var r, c := Last(h).receipts[q], Captured(Last(h), q);
      Last(g).containers == Last(h).containers[r.container := c.(policy := r.policy, app := c.app.(paused := false))]
  {
    hide Valid, Inv, Allowed, Effect;
    g := CanAsk(h, q);
    LastIsSafe(g);
    HasLabel(Last(g), q);
    MayAnswer(Last(g), q);
    g := Extend(g, Answer(q, M.Observe(Captured(Last(g), q).app)));
    g := CanReopen(g, q);
  }

  lemma CanReopen(h: History, q: Path) returns (g: History)
    requires Valid(h) && Resumable(Last(h), q) && Last(h).turn == Some(Turn(q, Some(Captured(Last(h), q).app.generation), false))
    ensures Continues(h, g) && Last(g).receipts == Last(h).receipts && Last(g).service == Last(h).service && Last(g).turn.Some?
    ensures var r, c := Last(h).receipts[q], Captured(Last(h), q);
      Last(g).containers == Last(h).containers[r.container := c.(policy := r.policy, app := c.app.(paused := false))]
  {
    hide Valid, Inv, Allowed, Effect;
    LastIsSafe(h);
    HasLabel(Last(h), q);
    RestoresPolicy(Last(h), q);
    g := Extend(h, SetPolicy(q, Last(h).receipts[q].policy));
    EndsIt(Last(g), q);
    g := Extend(g, EndDrain(q, Captured(Last(h), q).app.generation));
  }

  /** The captured application answers that it holds the very drain on record: what every run
      before TERM demands before it goes on. */
  predicate Confirmed(w: World, e: Event, p: Path) {
    && e.Answer? && e.path == p && p in w.receipts && w.receipts[p].container in w.containers
    && w.receipts[p].generation.Some? && Some(e.status.generation) == w.receipts[p].generation
    && Captured(w, p).app.paused && Captured(w, p).app.owner == w.receipts[p].owner
    && e.status == M.Observe(Captured(w, p).app)
  }

  ghost predicate Confirms(h: History, g: History, p: Path) {
    Continues(h, g) && exists k :: |h.events| <= k < |g.events| && Confirmed(g.worlds[k], g.events[k], p)
  }

  /** The exact condition for an interrupted run whose drain is on record, while the captured
      container runs an application that is not shutting down: some continuation confirms the
      drain if and only if it is not lost. */
  lemma DrainIsConfirmableIffNotLost(h: History, p: Path)
    requires Valid(h) && Identified(Last(h), p) && BeforeTerm(Last(h).receipts[p].phase) && Last(h).receipts[p].generation.Some?
    requires var c := Captured(Last(h), p); c.proc.running && !c.app.terminal
    ensures (exists g :: Confirms(h, g, p)) <==> !Lost(Last(h), p)
  {
    hide Valid, Inv;
    if Lost(Last(h), p) {
      forall g | Continues(h, g) ensures !Confirms(h, g, p) {
        LostIsNotConfirmed(h, g, p);
      }
    } else {
      var g := CanConfirm(h, p);
    }
  }

  lemma CanConfirm(h: History, p: Path) returns (g: History)
    requires Valid(h) && Drainable(Last(h), p) && Last(h).receipts[p].generation.Some?
    ensures Confirms(h, g, p)
  {
    hide Valid, Inv, Effect, Allowed;
    var asked := CanAsk(h, p);
    LastIsSafe(asked);
    HasLabel(Last(asked), p);
    var e := Answer(p, M.Observe(Captured(Last(asked), p).app));
    MayAnswer(Last(asked), p);
    g := Extend(asked, e);
    PassesThrough(asked, g);
    assert Confirmed(g.worlds[|asked.events|], g.events[|asked.events|], p);
  }

  lemma LostIsNotConfirmed(h: History, g: History, p: Path)
    requires Continues(h, g) && Lost(Last(h), p)
    ensures !Confirms(h, g, p)
  {
    hide Inv;
    forall k | |h.events| <= k < |g.events| ensures !Confirmed(g.worlds[k], g.events[k], p) {
      assert g.worlds[|h.events|] == Last(h);
      LostForGood(g, |h.events|, p, k);
    }
  }

  // ---------- a container nobody can drain again ----------

  /** No run under way was told a generation by this container under which it may go on. */
  predicate NoneAsked(w: World, id: Id) {
    w.turn.Some? && w.turn.value.path in w.receipts && w.receipts[w.turn.value.path].container == id ==>
      !Asked(w, w.turn.value.path)
  }

  /** No run for this receipt can end a drain of this generation in this container. */
  predicate CannotEnd(w: World, q: Path, id: Id, generation: nat)
    requires q in w.receipts
  {
    var r := w.receipts[q];
    r.container != id || !BeforeTerm(r.phase) || (r.generation.Some? && r.generation != Some(generation))
  }

  /** Admission is paused under the owner token of a receipt whose runs cannot end that. */
  predicate Sealed(w: World, id: Id)
    requires id in w.containers
  {
    var app := w.containers[id].app;
    app.paused && exists q :: q in w.receipts && w.receipts[q].owner == app.owner && CannotEnd(w, q, id, app.generation)
  }

  /** Docker gives the container no new process, and the one it has takes no drain request. */
  predicate Barren(w: World, id: Id) {
    && id in w.containers && NoneAsked(w, id)
    && var c := w.containers[id];
      !Revives(c) && (!c.proc.running || c.app.terminal || Sealed(w, id))
  }

  predicate SameFate(c: Container, d: Container) {
    d.policy == c.policy && (Gone(c.proc) ==> d.proc == c.proc)
  }

  lemma BarrenNature(w: World, m: Move, id: Id)
    requires Barren(w, id)
    ensures Barren(Nature(w, m), id) && SameFate(w.containers[id], Nature(w, m).containers[id])
  {
    var v := Nature(w, m);
    if Sealed(w, id) {
      var q :| q in w.receipts && w.receipts[q].owner == w.containers[id].app.owner && CannotEnd(w, q, id, w.containers[id].app.generation);
      assert v.containers[id].proc.running ==> v.containers[id].app.paused && v.containers[id].app.owner == w.containers[id].app.owner;
      assert CannotEnd(v, q, id, w.containers[id].app.generation);
    }
  }

  lemma BarrenSave(w: World, p: Path, r: Receipt, id: Id)
    requires Inv(w) && Allowed(w, Save(p, r)) && Barren(w, id)
    ensures Barren(Effect(w, Save(p, r)), id)
  {
    hide Core, RecordInv;
    var v := Effect(w, Save(p, r));
    if Sealed(w, id) {
      var q :| q in w.receipts && w.receipts[q].owner == w.containers[id].app.owner && CannotEnd(w, q, id, w.containers[id].app.generation);
      assert CannotEnd(v, q, id, w.containers[id].app.generation);
    }
  }

  lemma BarrenDrain(w: World, p: Path, id: Id)
    requires Inv(w) && Allowed(w, Drain(p)) && Barren(w, id)
    ensures Barren(Effect(w, Drain(p)), id) && Effect(w, Drain(p)).containers[id] == w.containers[id]
  {
    hide GenerationInv, RecordInv, ServiceInv, WatchInv;
    var v := Effect(w, Drain(p));
    if Sealed(w, id) {
      var q :| q in w.receipts && w.receipts[q].owner == w.containers[id].app.owner && CannotEnd(w, q, id, w.containers[id].app.generation);
      assert CannotEnd(v, q, id, w.containers[id].app.generation);
    }
  }

  /** The commands that need what a barren container does not give, and those that leave it alone. */
  lemma BarrenOther(w: World, e: Event, id: Id)
    requires Inv(w) && Allowed(w, e) && Barren(w, id) && !e.Env? && !e.Save? && !e.Drain?
    ensures Barren(Effect(w, e), id) && Effect(w, e).containers[id] == w.containers[id]
  {
    hide Core, RecordInv;
    var v := Effect(w, e);
    if Sealed(w, id) {
      var q :| q in w.receipts && w.receipts[q].owner == w.containers[id].app.owner && CannotEnd(w, q, id, w.containers[id].app.generation);
      assert CannotEnd(v, q, id, w.containers[id].app.generation);
    }
  }

  lemma BarrenStep(w: World, e: Event, id: Id)
    requires Inv(w) && Allowed(w, e) && Barren(w, id)
    ensures Barren(Effect(w, e), id) && SameFate(w.containers[id], Effect(w, e).containers[id])
  {
    hide Inv, Barren, MaySave;
    match e {
      case Env(m) => BarrenNature(w, m, id);
      case Save(p, r) => BarrenSave(w, p, r, id);
      case Drain(p) => BarrenDrain(w, p, id);
      case _ => BarrenOther(w, e, id);
    }
  }

  // ---------- the dead ends ----------

  predicate Ended(w: World, p: Path) {
    p in w.receipts && w.receipts[p].phase == Aborted
  }

  /** The service has another container, no run under way put it there, and the receipt does not
      say so: `up` took effect in a run that did not live to record it, or the run of another
      receipt replaced the container. */
  predicate Stranded(w: World, p: Path) {
    && p in w.receipts && w.receipts[p].container in w.containers && w.service != Some(w.receipts[p].container)
    && w.receipts[p].phase != Replaced && (Turns(w, p) ==> w.turn.value == Turn(p, None, false))
  }

  /** A drain is on record, and the captured application no longer holds it or takes no request. */
  predicate Dry(w: World, p: Path) {
    && p in w.receipts && w.receipts[p].container in w.containers && BeforeTerm(w.receipts[p].phase)
    && w.receipts[p].generation.Some? && !Told(w, p, w.receipts[p].generation)
    && var c := Captured(w, p);
      Lost(w, p) || !c.proc.running || c.app.terminal
  }

  /** No drain is on record, and the captured container takes none any more. */
  predicate Blocked(w: World, p: Path) {
    p in w.receipts && w.receipts[p].phase == Prepared && Barren(w, w.receipts[p].container)
  }

  /** TERM is recorded, and the process is gone without the evidence demanded: it did not exit as
      it should, or its restart policy is on again and nobody can turn it off. */
  predicate Frozen(w: World, p: Path) {
    && p in w.receipts && w.receipts[p].phase == TermRequested && Barren(w, w.receipts[p].container)
    && !Provable(Captured(w, p))
  }

  predicate Stuck(w: World, p: Path) {
    Ended(w, p) || Stranded(w, p) || Dry(w, p) || Blocked(w, p) || Frozen(w, p)
  }

  lemma StrandedStep(w: World, e: Event, p: Path)
    requires Inv(w) && Allowed(w, e) && Stranded(w, p)
    ensures Stranded(Effect(w, e), p) && Effect(w, e).receipts[p] == w.receipts[p]
  {
    hide GenerationInv, RecordInv, ReceiptInv, WatchInv;
  }

  lemma DryStep(w: World, e: Event, p: Path)
    requires Inv(w) && Allowed(w, e) && Dry(w, p)
    ensures Dry(Effect(w, e), p) && Effect(w, e).receipts[p] == w.receipts[p]
  {
    hide Core, RecordInv, Lost;
    if Lost(w, p) {
      LostStep(w, e, p);
      LostIsNotTold(w, e, p);
    } else {
      SilentStep(w, e, p);
    }
  }

  /** A lost drain is not told again: the application has another generation by now. */
  lemma LostIsNotTold(w: World, e: Event, p: Path)
    requires Inv(w) && Allowed(w, e) && Dry(w, p) && Lost(w, p)
    ensures p in Effect(w, e).receipts && Effect(w, e).receipts[p] == w.receipts[p]
    ensures !Told(Effect(w, e), p, w.receipts[p].generation)
  {
    hide Core, RecordInv;
  }

  lemma SilentStep(w: World, e: Event, p: Path)
    requires Inv(w) && Allowed(w, e) && Dry(w, p) && !Lost(w, p)
    ensures Dry(Effect(w, e), p) && Effect(w, e).receipts[p] == w.receipts[p]
  {
    hide Core, RecordInv;
  }

  /** A receipt without a drain on record waits for one. */
  lemma PreparedStays(w: World, e: Event, p: Path)
    requires Allowed(w, e) && p in w.receipts && w.receipts[p].phase == Prepared && !Asked(w, p)
    ensures p in Effect(w, e).receipts && Effect(w, e).receipts[p] == w.receipts[p]
  {
    hide MaySetPolicy, Identified, Known;
  }

  lemma BlockedStep(w: World, e: Event, p: Path)
    requires Inv(w) && Allowed(w, e) && Blocked(w, p)
    ensures Blocked(Effect(w, e), p) && Effect(w, e).receipts[p] == w.receipts[p]
  {
    BarrenIsNotAsked(w, p);
    hide Inv, Barren, Allowed, Effect, Asked;
    BarrenStep(w, e, w.receipts[p].container);
    PreparedStays(w, e, p);
  }

  lemma BarrenIsNotAsked(w: World, p: Path)
    requires p in w.receipts && Barren(w, w.receipts[p].container)
    ensures !Asked(w, p)
  {
  }

  lemma RequestedStays(w: World, e: Event, p: Path)
    requires Allowed(w, e) && p in w.receipts && w.receipts[p].phase == TermRequested && w.receipts[p].container in w.containers
    requires !Provable(Captured(w, p))
    ensures p in Effect(w, e).receipts && Effect(w, e).receipts[p] == w.receipts[p]
  {
    hide MaySetPolicy, Identified, Known, Told, Asked;
  }

  lemma FrozenStep(w: World, e: Event, p: Path)
    requires Inv(w) && Allowed(w, e) && Frozen(w, p)
    ensures Frozen(Effect(w, e), p) && Effect(w, e).receipts[p] == w.receipts[p]
  {
    assert Gone(Captured(w, p).proc);
    hide Inv, Barren, Allowed, Effect;
    BarrenStep(w, e, w.receipts[p].container);
    RequestedStays(w, e, p);
    BarrenIsThere(Effect(w, e), w.receipts[p].container);
  }

  lemma BarrenIsThere(w: World, id: Id)
    requires Barren(w, id)
    ensures id in w.containers
  {
  }

  lemma EndedStep(w: World, e: Event, p: Path)
    requires Allowed(w, e) && Ended(w, p)
    ensures Ended(Effect(w, e), p) && Effect(w, e).receipts[p] == w.receipts[p]
  {
    AbortedStep(w, e, p);
  }

  lemma StuckStep(w: World, e: Event, p: Path)
    requires Inv(w) && Allowed(w, e) && Stuck(w, p)
    ensures Stuck(Effect(w, e), p) && Effect(w, e).receipts[p] == w.receipts[p]
  {
    hide Inv, Allowed, Effect, Ended, Stranded, Dry, Blocked, Frozen;
    if Ended(w, p) {
      EndedStep(w, e, p);
    } else if Stranded(w, p) {
      StrandedStep(w, e, p);
    } else if Dry(w, p) {
      DryStep(w, e, p);
    } else if Blocked(w, p) {
      BlockedStep(w, e, p);
    } else {
      FrozenStep(w, e, p);
    }
  }

  /** A dead end is for ever: whatever runs are made and whatever happens around them, the receipt
      keeps what it says, so it is neither replaced nor, unless it already was, aborted. */
  lemma {:induction false} StuckForGood(h: History, i: nat, p: Path, j: nat)
    requires Valid(h) && i <= j < |h.worlds| && Stuck(h.worlds[i], p)
    ensures Stuck(h.worlds[j], p) && p in h.worlds[i].receipts && p in h.worlds[j].receipts
    ensures h.worlds[j].receipts[p] == h.worlds[i].receipts[p]
  {
    hide Inv, Allowed, Effect, Ended, Stranded, Dry, Blocked, Frozen;
    if i < j {
      StuckForGood(h, i, p, j - 1);
      AlwaysSafe(h, j - 1);
      assert Follows(h, j - 1);
      StuckStep(h.worlds[j - 1], h.events[j - 1], p);
      StuckHasReceipt(h.worlds[j], p);
    } else {
      StuckHasReceipt(h.worlds[i], p);
    }
  }

  lemma StuckHasReceipt(w: World, p: Path)
    requires Stuck(w, p)
    ensures p in w.receipts && w.receipts[p].phase != Replaced
  {
  }

  // ---------- nothing else is a dead end ----------

  ghost predicate CanFinish(h: History, p: Path)
    requires Valid(h)
  {
    exists g :: Continues(h, g) && Finished(Last(g), p)
  }

  /** The exact condition, for every receipt of every history between two runs: some continuation
      finishes it if and only if it is in none of the dead ends. */
  lemma CanFinishIffNotStuck(h: History, p: Path)
    requires Valid(h) && Last(h).turn == None && p in Last(h).receipts
    ensures CanFinish(h, p) <==> !Stuck(Last(h), p)
  {
    hide Valid, Inv, Stuck;
    if Stuck(Last(h), p) {
      forall g | Continues(h, g) ensures !Finished(Last(g), p) {
        StuckIsNotFinished(h, g, p);
      }
    } else {
      var g := UnstuckCanFinish(h, p);
    }
  }

  lemma StuckIsNotFinished(h: History, g: History, p: Path)
    requires Continues(h, g) && Stuck(Last(h), p)
    ensures !Finished(Last(g), p)
  {
    hide Stuck;
    PassesThrough(h, g);
    StuckForGood(g, |h.events|, p, |g.events|);
    StuckHasReceipt(Last(g), p);
  }

  /** A name not taken. */
  lemma {:induction false} Unused(taken: set<nat>) returns (n: nat)
    ensures forall k :: k in taken ==> k < n
    decreases |taken|
  {
    if taken == {} {
      n := 0;
    } else {
      var k :| k in taken;
      var m := Unused(taken - {k});
      n := if k < m then m else k + 1;
      assert forall i :: i in taken ==> i == k || i in taken - {k};
    }
  }

  lemma UnstuckCanFinish(h: History, p: Path) returns (g: History)
    requires Valid(h) && Last(h).turn == None && p in Last(h).receipts && !Stuck(Last(h), p)
    ensures Continues(h, g) && Finished(Last(g), p)
  {
    hide Valid, Stranded, Dry, Blocked, Frozen, Barren;
    LastIsSafe(h);
    match Last(h).receipts[p].phase {
      case Prepared => g := PreparedCanFinish(h, p);
      case TermRequested => g := RequestedCanFinish(h, p);
      case ExitVerified => g := VerifiedCanFinish(h, p);
      case Replaced => g := h;
      case Aborted =>
      case _ => g := DrainedCanFinish(h, p);
    }
  }

  /** Between two runs, a receipt whose service container it is and that is not terminal. */
  lemma UnstuckIsIdentified(w: World, p: Path)
    requires Inv(w) && w.turn == None && p in w.receipts && !Stuck(w, p) && w.receipts[p].phase != Replaced
    ensures Identified(w, p)
  {
    hide ServiceInv, WatchInv, GenerationInv, RecordInv, Dry, Blocked, Frozen;
  }

  lemma DrainedCanFinish(h: History, p: Path) returns (g: History)
    requires Valid(h) && Last(h).turn == None && p in Last(h).receipts && !Stuck(Last(h), p)
    requires Last(h).receipts[p].phase in {Draining, Drained, RestartDisable}
    ensures Continues(h, g) && Finished(Last(g), p)
  {
    hide Valid, Core, Stranded, Blocked, Frozen;
    LastIsSafe(h);
    UnstuckIsIdentified(Last(h), p);
    var made := Unused(Last(h).containers.Keys);
    g := ResumeCanFinish(h, p, made, AnyContainer());
  }

  function AnyContainer(): Container {
    Container(Proc(true, 1, Up, 0, false, 0), No, true, M.INITIAL)
  }

  lemma PreparedCanFinish(h: History, p: Path) returns (g: History)
    requires Valid(h) && Last(h).turn == None && p in Last(h).receipts && !Stuck(Last(h), p)
    requires Last(h).receipts[p].phase == Prepared
    ensures Continues(h, g) && Finished(Last(g), p)
  {
    hide Valid, Core, Stranded, Dry, Frozen, Sealed;
    LastIsSafe(h);
    UnstuckIsIdentified(Last(h), p);
    g := h;
    if !Revives(Captured(Last(h), p)) {
      g := CanOpen(h, p);
    }
    var made := Unused(Last(g).containers.Keys);
    var f := ResumeCanFinish(g, p, made, AnyContainer());
    g := f;
  }

  /** A running application that another client or receipt holds can be given back, unless sealed. */
  lemma CanOpen(h: History, p: Path) returns (g: History)
    requires Valid(h) && Identified(Last(h), p) && Last(h).receipts[p].phase == Prepared
    requires var c := Captured(Last(h), p); c.proc.running && !c.app.terminal && !Sealed(Last(h), Last(h).receipts[p].container)
    ensures Continues(h, g) && Drainable(Last(g), p)
  {
    hide Valid, Core;
    LastIsSafe(h);
    var w, id := Last(h), Last(h).receipts[p].container;
    var app := w.containers[id].app;
    if !app.paused || app.owner == w.receipts[p].owner {
      g := h;
    } else if q :| q in w.receipts && w.receipts[q].owner == app.owner {
      assert !CannotEnd(w, q, id, app.generation);
      g := OwnerCanEnd(h, q);
    } else {
      g := Extend(h, Env(Serve(id, M.Abort(Some(app.owner), app.generation))));
    }
  }

  lemma VerifiedCanFinish(h: History, p: Path) returns (g: History)
    requires Valid(h) && Last(h).turn == None && p in Last(h).receipts && !Stuck(Last(h), p)
    requires Last(h).receipts[p].phase == ExitVerified
    ensures Continues(h, g) && Finished(Last(g), p)
  {
    assert Calmly(h, h);
    hide Valid, Stranded, Dry, Frozen, Blocked;
    LastIsSafe(h);
    UnstuckIsIdentified(Last(h), p);
    assert Proven(Last(h), p);
    hide Inv;
    var made := Unused(Last(h).containers.Keys);
    g := TakeTurn(h, h, p);
    g := CanReachReplaced(h, g, p, made, AnyContainer());
  }

  lemma RequestedCanFinish(h: History, p: Path) returns (g: History)
    requires Valid(h) && Last(h).turn == None && p in Last(h).receipts && !Stuck(Last(h), p)
    requires Last(h).receipts[p].phase == TermRequested
    ensures Continues(h, g) && Finished(Last(g), p)
  {
    assert Calmly(h, h);
    hide Valid, Stranded, Dry, Blocked, Inv;
    LastIsSafe(h);
    UnstuckIsIdentified(Last(h), p);
    g := h;
    if !Provable(Captured(Last(h), p)) {
      g := CanTurnRestartOff(h, p);
    }
    var made := Unused(Last(g).containers.Keys);
    var f := TakeTurn(h, g, p);
    g := CanReachReplaced(h, f, p, made, AnyContainer());
  }

  /** Another receipt's abort may have turned restart on again after TERM was recorded. A new
      deployment of the same container turns it off. */
  lemma CanTurnRestartOff(h: History, p: Path) returns (g: History)
    requires Valid(h) && Identified(Last(h), p) && Last(h).receipts[p].phase == TermRequested && Revives(Captured(Last(h), p))
    ensures Calmly(h, g) && Identified(Last(g), p) && Last(g).receipts[p] == Last(h).receipts[p] && Provable(Captured(Last(g), p))
  {
    assert Calmly(h, h);
    hide Valid, Inv, Revives;
    LastIsSafe(h);
    HasLabel(Last(h), p);
    var id := Last(h).receipts[p].container;
    var q := Unused(Last(h).receipts.Keys);
    assert q != p;
    g := CanRestart(h, h, id);
    g := CanPrepare(h, g, q, id);
    g := CanSignal(h, g, q);
  }

  lemma CanSignal(base: History, h: History, q: Path) returns (g: History)
    requires Calmly(base, h) && Turns(Last(h), q) && Drainable(Last(h), q)
    ensures Calmly(base, g) && Around(Last(h), Last(g), q) && Captured(Last(g), q).policy == No && Captured(Last(g), q).proc.running
  {
    hide Valid, Inv, Drainable;
    g := CanReachDrained(base, h, q);
    SeenFlag(Last(g), q);
    g := CanReachTerm(base, g, q);
  }

  lemma CanPrepare(base: History, h: History, q: Path, id: Id) returns (g: History)
    requires Calmly(base, h) && q !in Last(h).receipts && id in Last(h).containers && Last(h).service == Some(id)
    requires var c := Last(h).containers[id]; c.drainLabel && c.proc.running && c.app == M.INITIAL
    ensures Calmly(base, g) && Turns(Last(g), q) && Drainable(Last(g), q) && Last(g).receipts[q].container == id
    ensures Last(g).containers == Last(h).containers && Last(g).service == Last(h).service
    ensures Last(g).receipts == Last(h).receipts[q := Last(g).receipts[q]]
  {
    hide Valid, Inv;
    g := TakeTurn(base, h, q);
    var r := Receipt(Prepared, id, Last(h).nextOwner, None, Last(h).containers[id].policy, 60, None, None);
    g := Go(base, g, Save(q, r));
  }

  /** `up` may take effect in a run that does not live to record it: its answer is lost, or `ps` then
      finds no running replacement. From there the receipt is stuck, although the replacement serves. */
  lemma UpCanStrand(h: History, p: Path, made: Id, c: Container) returns (g: History)
    requires Valid(h) && Identified(Last(h), p)
    requires Last(h).receipts[p].phase in {TermRequested, ExitVerified} && Provable(Captured(Last(h), p))
    requires made !in Last(h).containers && c.app == M.INITIAL
    ensures Continues(h, g) && Last(g).turn == None && p in Last(g).receipts && Last(g).receipts[p].phase == ExitVerified
    ensures Last(g).service == Some(made) && made in Last(g).containers && Last(g).containers[made] == c
    ensures Stranded(Last(g), p) && !CanFinish(g, p)
  {
    assert Calmly(h, h);
    hide Valid, Inv, Provable;
    g := TakeTurn(h, h, p);
    g := CanReachUp(h, g, p, made, c);
    g := Extend(g, Stop);
    CanFinishIffNotStuck(g, p);
  }

  /** One deployment of a healthy service can end there. */
  lemma DeadEndIsReachable() returns (g: History)
    ensures Valid(g) && Last(g).turn == None && Stranded(Last(g), 0) && !CanFinish(g, 0)
    ensures Last(g).receipts[0].phase == ExitVerified && Last(g).service == Some(1) && Ran(Last(g), 1)
  {
    var h := Started();
    assert Calmly(h, h);
    hide Valid, Inv;
    g := CanReachDrained(h, h, 0);
    SeenFlag(Last(g), 0);
    g := CanReachTerm(h, g, 0);
    g := UpCanStrand(g, 0, 1, AnyContainer());
  }

  predicate Ran(w: World, id: Id) {
    id in w.containers && w.containers[id].proc.running
  }
}
