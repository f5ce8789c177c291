/** The deployment tool of `scripts/deploy-drained.py`, statement by statement, against a host
    whose commands may fail, be lost, or succeed without an answer, and whose world moves freely
    in between. A crash of the tool is a command that fails without effect.

    Every method extends the history of the host by steps `DeployWorld.Allowed` admits; what
    follows for whole histories is proved in `DeployHistory`. Every error a method returns is
    justified: a command failed, or the world showed what the error says. */
module DeployTool {
  import opened Base
  import opened DeployWorld
  import DH = DeployHistory
  import DE = DeployDeadEnds
  import M = Maintenance

  /** What moves of the environment, and answers of the application, leave alone. */
  ghost predicate Quiet(w: World, v: World) {
    && v.service == w.service && v.receipts == w.receipts && v.nextOwner == w.nextOwner && v.turn == w.turn
    && v.containers.Keys == w.containers.Keys && v.nextGeneration >= w.nextGeneration
    && forall id :: id in w.containers ==> Kept(w.containers[id], v.containers[id])
  }

  predicate Kept(c: Container, d: Container) {
    d.policy == c.policy && d.drainLabel == c.drainLabel && (Retired(c) ==> d == c)
  }

  ghost predicate Extends(old_: DH.History, new_: DH.History) {
    old_.events <= new_.events && old_.worlds <= new_.worlds
  }

  /** Reaching the application is quiet, because a retired container runs no process; only the run
      itself learns the generation. */
  lemma DrainIsQuiet(w: World, p: Path)
    requires Inv(w) && Allowed(w, Drain(p))
    ensures var v := Effect(w, Drain(p));
      && Quiet(w.(turn := v.turn), v) && Turns(v, p)
      && (Accepts(w, p) ==> Answers(v, p) && v.turn.value.told == Some(Captured(v, p).app.generation))
  {
    hide Core, GenerationInv, RecordInv;
  }

  /** A command of a run under way leaves the lock with it. */
  lemma LockIsKept(w: World, e: Event, p: Path)
    requires Allowed(w, e) && Turns(w, p) && !e.Begin? && !e.Stop?
    ensures Turns(Effect(w, e), p)
  {
    hide MaySave, MaySetPolicy, Asked;
  }

  /** From event `from` on, TERM was sent for this receipt. */
  ghost predicate Sent(h: DH.History, from: nat, p: Path) {
    exists i :: from <= i < |h.events| && h.events[i] == Term(p)
  }

  lemma SentGrows(h: DH.History, g: DH.History, from: nat, later: nat, p: Path)
    requires Extends(h, g) && from <= later && Sent(h, later, p)
    ensures Sent(g, from, p)
  {
    var i :| later <= i < |h.events| && h.events[i] == Term(p);
    assert g.events[i] == Term(p);
  }

  lemma MoveIsQuiet(w: World, m: Move)
    requires Inv(w)
    ensures Allowed(w, Env(m)) && Quiet(w, Effect(w, Env(m))) && Effect(w, Env(m)).watch == w.watch
  {
    hide Core, GenerationInv;
  }

  lemma QuietItself(w: World)
    ensures Quiet(w, w)
  {
  }

  lemma QuietTogether(a: World, b: World, c: World)
    requires Quiet(a, b) && Quiet(b, c)
    ensures Quiet(a, c)
  {
  }

  /** An abort reaches the application only; if it is accepted, admission is open. */
  lemma EndDrainIsQuiet(w: World, p: Path, generation: nat)
    requires Inv(w) && Allowed(w, EndDrain(p, generation))
    ensures var v := Effect(w, EndDrain(p, generation));
      Quiet(w, v) && (Ends(w, p, generation) ==> p !in v.watch && !Captured(v, p).app.paused)
  {
    hide ReceiptInv, WatchInv, GenerationInv, RecordInv;
  }

  predicate Answers(w: World, p: Path) {
    Identified(w, p) && Allowed(w, Answer(p, M.Observe(Captured(w, p).app)))
  }

  /** What a run has behind it at some point: failed commands, time, worlds. */
  datatype Moment = Moment(failures: nat, now: nat, world: int)

  predicate NotAfter(a: Moment, b: Moment) {
    a.failures <= b.failures && a.now <= b.now && a.world <= b.world
  }

  predicate Reports(w: World, id: Id, status: M.Status) {
    id in w.containers && status == M.Observe(w.containers[id].app)
  }

  /** From `from` on, the container's application once had this status. */
  ghost predicate ReportedIn(h: DH.History, from: int, id: Id, status: M.Status) {
    exists i :: 0 <= i < |h.worlds| && from <= i && Reports(h.worlds[i], id, status)
  }

  /** From `from` on, the container was once in this state. */
  ghost predicate ShowedIn(h: DH.History, from: int, id: Id, c: Container) {
    exists i :: 0 <= i < |h.worlds| && from <= i && id in h.worlds[i].containers && h.worlds[i].containers[id] == c
  }

  /** It runs an image with the drain capability. */
  predicate Capable(w: World, id: Id) {
    id in w.containers && w.containers[id].proc.running && w.containers[id].drainLabel
  }

  ghost predicate CapableIn(h: DH.History, from: int, id: Id) {
    exists i :: 0 <= i < |h.worlds| && from <= i && Capable(h.worlds[i], id)
  }

  lemma CapableGrows(h: DH.History, g: DH.History, from: int, later: int, id: Id)
    requires Extends(h, g) && from <= later && CapableIn(h, later, id)
    ensures CapableIn(g, from, id)
  {
    var i :| 0 <= i < |h.worlds| && later <= i && Capable(h.worlds[i], id);
    assert Capable(g.worlds[i], id);
  }

  lemma ShownCapable(h: DH.History, from: int, id: Id, c: Container)
    requires ShowedIn(h, from, id, c) && c.proc.running && c.drainLabel
    ensures CapableIn(h, from, id)
  {
    var i :| 0 <= i < |h.worlds| && from <= i && id in h.worlds[i].containers && h.worlds[i].containers[id] == c;
    assert Capable(h.worlds[i], id);
  }

  /** From `from` on, the container once ran. */
  ghost predicate RunningIn(h: DH.History, from: int, id: Id) {
    exists i :: 0 <= i < |h.worlds| && from <= i && DE.Ran(h.worlds[i], id)
  }

  lemma RunningGrows(h: DH.History, g: DH.History, from: int, later: int, id: Id)
    requires Extends(h, g) && from <= later && RunningIn(h, later, id)
    ensures RunningIn(g, from, id)
  {
    var i :| 0 <= i < |h.worlds| && later <= i && DE.Ran(h.worlds[i], id);
    assert DE.Ran(g.worlds[i], id);
  }

  predicate Open(w: World, id: Id) {
    id in w.containers && !w.containers[id].app.paused
  }

  /** From `from` on, the container's application once admitted work. */
  ghost predicate Opened(h: DH.History, from: int, id: Id) {
    exists i :: 0 <= i < |h.worlds| && from <= i && Open(h.worlds[i], id)
  }

  lemma OpenedGrows(h: DH.History, g: DH.History, from: int, later: int, id: Id)
    requires Extends(h, g) && from <= later && Opened(h, later, id)
    ensures Opened(g, from, id)
  {
    var i :| 0 <= i < |h.worlds| && later <= i && Open(h.worlds[i], id);
    assert Open(g.worlds[i], id);
  }

  lemma ReportedGrows(h: DH.History, g: DH.History, from: int, later: int, id: Id, status: M.Status)
    requires Extends(h, g) && from <= later && ReportedIn(h, later, id, status)
    ensures ReportedIn(g, from, id, status)
  {
    var i :| 0 <= i < |h.worlds| && later <= i && Reports(h.worlds[i], id, status);
    assert g.worlds[i] == h.worlds[i];
  }

  /** A drain that was lost is answered with another generation. */
  lemma DrainsAnew(w: World, p: Path)
    requires Inv(w) && Allowed(w, Drain(p)) && Accepts(w, p) && DE.Lost(w, p)
    ensures Some(M.Observe(Captured(Effect(w, Drain(p)), p).app).generation) != w.receipts[p].generation
  {
    hide Core;
  }

  lemma HandedOut(w: World, id: Id)
    requires Inv(w) && id in w.containers
    ensures w.containers[id].app.generation < w.nextGeneration
  {
    hide Core;
  }

  /** `failures` counts the commands that raised: failed, timed out, refused, or cut short by a
      crash. `waits` are the answers of `docker wait`. */
  class Host {
    var w: World
    var now: nat
    ghost var history: DH.History
    ghost var failures: nat
    ghost var waits: seq<int>

    ghost predicate Valid()
      reads this
    {
      DH.Valid(history) && history.worlds[|history.worlds| - 1] == w && Inv(w)
    }

    ghost function Now(): Moment
      reads this
    {
      Moment(failures, now, |history.worlds| - 1)
    }

    method Perform(e: Event)
      requires Valid() && Allowed(w, e)
      modifies this`w, this`history
      ensures Valid() && w == Effect(old(w), e)
      ensures history.events == old(history).events + [e]
      ensures history.worlds == old(history).worlds + [w]
    {
      StepKeepsInv(w, e);
      w := Effect(w, e);
      history := DH.History(history.events + [e], history.worlds + [w]);
      forall i | 0 <= i < |history.events| ensures DH.Follows(history, i) {
        assert i < |old(history).events| ==> DH.Follows(old(history), i);
      }
    }

    /** Any number of moves of the environment; time passes. */
    method Environment()
      requires Valid()
      modifies this`w, this`now, this`history
      ensures Valid() && Extends(old(history), history)
      ensures Quiet(old(w), w) && w.watch == old(w).watch && now >= old(now)
    {
      hide Inv, DH.Valid, Quiet, Effect, Allowed;
      var moves: int := *;
      QuietItself(w);
      while moves > 0
        invariant Valid() && Extends(old(history), history)
        invariant Quiet(old(w), w) && w.watch == old(w).watch && now >= old(now)
      {
        var m: Move := *;
        var elapsed: int := *;
        MoveIsQuiet(w, m);
        QuietTogether(old(w), w, Effect(w, Env(m)));
        Perform(Env(m));
        if elapsed > 0 {
          now := now + elapsed;
        }
        moves := moves - 1;
      }
    }

    /** The end of a command: what it raises is on record. */
    method Conclude(ok: bool)
      requires Valid()
      modifies this`w, this`now, this`history, this`failures
      ensures Valid() && Extends(old(history), history) && now >= old(now)
      ensures Quiet(old(w), w) && w.watch == old(w).watch
      ensures failures == old(failures) + (if ok then 0 else 1)
    {
      Environment();
      failures := failures + (if ok then 0 else 1);
    }

    /** One command: it may fail before or after taking effect, or succeed. */
    method Issue(e: Event) returns (ok: bool)
      requires Valid() && Allowed(w, e) && w.turn.Some? && !e.Begin? && !e.Stop?
      modifies this`w, this`now, this`history, this`failures
      ensures Valid() && Extends(old(history), history) && now >= old(now)
      ensures Turns(w, old(w).turn.value.path)
      ensures ok ==> Quiet(Effect(old(w), e), w) && w.watch == Effect(old(w), e).watch
      ensures failures == old(failures) + (if ok then 0 else 1)
    {
      hide Inv, DH.Valid, Allowed, Effect;
      var delivered: bool := *;
      var answered: bool := *;
      LockIsKept(w, e, w.turn.value.path);
      if delivered {
        Perform(e);
      }
      ok := delivered && answered;
      Conclude(ok);
    }

    /** Opening the lock file, and the image build: the environment decides. */
    method Succeeds() returns (ok: bool)
      requires Valid()
      modifies this`w, this`now, this`history, this`failures
      ensures Valid() && Extends(old(history), history) && now >= old(now)
      ensures Quiet(old(w), w) && w.watch == old(w).watch
      ensures failures == old(failures) + (if ok then 0 else 1)
    {
      ok := *;
      Conclude(ok);
    }

    /** `docker inspect`: the container as it was at some instant during the call. */
    method Inspect(id: Id) returns (c: Option<Container>)
      requires Valid()
      modifies this`w, this`now, this`history, this`failures
      ensures Valid() && Extends(old(history), history) && now >= old(now)
      ensures Quiet(old(w), w) && w.watch == old(w).watch
      ensures c.Some? ==> id in old(w).containers && c.value == old(w).containers[id]
      ensures c.Some? ==> ShowedIn(history, |old(history).worlds| - 1, id, c.value)
      ensures failures == old(failures) + (if c.Some? then 0 else 1)
    {
      var answered: bool := *;
      c := if answered && id in w.containers then Some(w.containers[id]) else None;
      assert history.worlds[|history.worlds| - 1] == w;
      Conclude(c.Some?);
    }

    /** `compose ps`: the service's container; without `--all`, only a running one. */
    method ServiceContainer(all: bool) returns (answered: bool, id: Option<Id>)
      requires Valid()
      modifies this`w, this`now, this`history, this`failures
      ensures Valid() && Extends(old(history), history) && now >= old(now)
      ensures Quiet(old(w), w) && w.watch == old(w).watch
      ensures id.Some? ==> old(w).service == id && id.value in old(w).containers
      ensures !all && id.Some? ==> RunningIn(history, |old(history).worlds| - 1, id.value)
      ensures answered && id.None? ==> old(w).service.None? || (!all && !Runs(old(w)))
      ensures failures == old(failures) + (if answered then 0 else 1)
    {
      answered := *;
      id := if answered then w.service else None;
      if !all && id.Some? && !w.containers[id.value].proc.running {
        id := None;
      }
      assert history.worlds[|history.worlds| - 1] == w;
      Conclude(answered);
    }

    /** `docker wait`: an exit code, or no answer within the stop wait. */
    method WaitExit() returns (code: Option<int>)
      requires Valid()
      modifies this
      ensures Valid() && Extends(old(history), history) && now >= old(now)
      ensures Quiet(old(w), w) && w.watch == old(w).watch
      ensures code.Some? ==> waits == old(waits) + [code.value]
      ensures failures == old(failures) + (if code.Some? then 0 else 1)
    {
      hide Inv, DH.Valid, Quiet;
      var answered: bool := *;
      var value: int := *;
      Environment();
      label waited:
      code := if answered then Some(value) else None;
      if answered {
        waits := waits + [value];
      }
      Conclude(answered);
      QuietTogether(old(w), old@waited(w), w);
    }

    /** `docker kill --signal=TERM`. The attempt is an event; whether the process ever gets the
        signal is the environment's choice. Only a `CalledProcessError` is survived. */
    method SendTerm(path: Path) returns (survived: bool)
      requires Valid() && Allowed(w, Term(path))
      modifies this`w, this`now, this`history, this`failures
      ensures Valid() && Extends(old(history), history) && now >= old(now)
      ensures Quiet(old(w), w) && w.watch == old(w).watch
      ensures |history.events| > |old(history).events| && history.events[|old(history).events|] == Term(path)
      ensures failures == old(failures) + (if survived then 0 else 1)
    {
      hide Inv, DH.Valid;
      Perform(Term(path));
      survived := *;
      Conclude(survived);
    }

    /** The application answers with its status at this instant. */
    method Report(path: Path) returns (status: M.Status)
      requires Valid() && Answers(w, path)
      modifies this`w, this`history
      ensures Valid() && Extends(old(history), history)
      ensures w == old(w).(watch := w.watch) && status.generation < w.nextGeneration
      ensures status == M.Observe(Captured(old(w), path).app)
      ensures path in w.watch && (w.watch[path].drained <==> status.phase == M.Drained)
      ensures ReportedIn(history, |old(history).worlds| - 1, w.receipts[path].container, status)
    {
      status := M.Observe(Captured(w, path).app);
      HandedOut(w, w.receipts[path].container);
      assert Reports(history.worlds[|history.worlds| - 1], w.receipts[path].container, status);
      Perform(Answer(path, status));
    }

    /** `exec maintenance drain` with the owner token of the receipt. */
    method ExecDrain(path: Path) returns (status: Option<M.Status>)
      requires Valid() && Allowed(w, Drain(path))
      modifies this`w, this`now, this`history, this`failures
      ensures Valid() && Extends(old(history), history) && now >= old(now)
      ensures Quiet(old(w).(turn := w.turn), w) && Turns(w, path)
      ensures status.Some? ==> path in w.watch && (w.watch[path].drained <==> status.value.phase == M.Drained)
      ensures status.Some? ==> status.value.generation < w.nextGeneration && Told(w, path, Some(status.value.generation))
      ensures status.Some? ==> ReportedIn(history, |old(history).worlds| - 1, old(w).receipts[path].container, status.value)
      ensures status.Some? && DE.Lost(old(w), path) ==> Some(status.value.generation) != old(w).receipts[path].generation
      ensures failures == old(failures) + (if status.Some? then 0 else 1)
    {
      hide Inv, DH.Valid, Effect, DE.Lost;
      status := None;
      var delivered: bool := *;
      var answered: bool := *;
      if delivered {
        var accepted := TakeDrain(path);
        if accepted && answered {
          var reply := Report(path);
          status := Some(reply);
        }
      }
      Conclude(status.Some?);
    }

    /** The drain request reaches the application. */
    method TakeDrain(path: Path) returns (accepted: bool)
      requires Valid() && Allowed(w, Drain(path))
      modifies this`w, this`history
      ensures Valid() && Extends(old(history), history) && |history.worlds| > |old(history).worlds|
      ensures Quiet(old(w).(turn := w.turn), w) && Turns(w, path)
      ensures accepted ==> Answers(w, path) && w.turn.value.told == Some(Captured(w, path).app.generation)
      ensures accepted && DE.Lost(old(w), path) ==> w.turn.value.told != old(w).receipts[path].generation
    {
      hide Inv, DH.Valid, Effect, DE.Lost;
      accepted := Accepts(w, path);
      DrainIsQuiet(w, path);
      if accepted && DE.Lost(w, path) {
        DrainsAnew(w, path);
      }
      Perform(Drain(path));
    }

    /** `exec maintenance status`. */
    method ExecStatus(path: Path) returns (status: Option<M.Status>)
      requires Valid() && Allowed(w, Drain(path)) && path in w.watch
      modifies this`w, this`now, this`history, this`failures
      ensures Valid() && Extends(old(history), history) && now >= old(now)
      ensures Quiet(old(w), w) && path in w.watch
      ensures status.Some? ==> (w.watch[path].drained <==> status.value.phase == M.Drained)
      ensures status.Some? ==> ReportedIn(history, |old(history).worlds| - 1, old(w).receipts[path].container, status.value)
      ensures failures == old(failures) + (if status.Some? then 0 else 1)
    {
      hide Inv, DH.Valid, Effect;
      status := None;
      var answered: bool := *;
      if answered && Captured(w, path).proc.running {
        var reply := Report(path);
        status := Some(reply);
      }
      Conclude(status.Some?);
    }

    /** `exec maintenance abort` with the owner token and generation of the receipt. */
    method ExecAbort(path: Path, generation: nat) returns (ok: bool)
      requires Valid() && Allowed(w, EndDrain(path, generation))
      modifies this`w, this`now, this`history, this`failures
      ensures Valid() && Extends(old(history), history) && now >= old(now)
      ensures Quiet(old(w), w)
      ensures ok ==> path !in w.watch && Opened(history, |old(history).worlds| - 1, old(w).receipts[path].container)
      ensures failures == old(failures) + (if ok then 0 else 1)
    {
      hide Inv, DH.Valid, Quiet;
      ok := false;
      var delivered: bool := *;
      var answered: bool := *;
      QuietItself(w);
      if delivered {
        var accepted := Ends(w, path, generation);
        EndDrainIsQuiet(w, path, generation);
        Perform(EndDrain(path, generation));
        assert accepted ==> Open(history.worlds[|history.worlds| - 1], old(w).receipts[path].container);
        ok := accepted && answered;
      }
      label ended:
      Conclude(ok);
      QuietTogether(old(w), old@ended(w), w);
    }

    method Sleep()
      requires Valid()
      modifies this`w, this`now, this`history
      ensures Valid() && Extends(old(history), history) && now > old(now)
      ensures Quiet(old(w), w) && w.watch == old(w).watch
    {
      now := now + 1;
      Environment();
    }
  }

  /** The service has a running container. */
  predicate Runs(w: World) {
    w.service.Some? && w.service.value in w.containers && w.containers[w.service.value].proc.running
  }

  datatype Action = Deploy(drainTimeout: nat) | Resume | Abort

  /** What ends a run early. `CommandFailed` stands for every exception of a command. */
  datatype Error =
    | CommandFailed | Busy
    | ReceiptExists | NoReceipt | NoService | TerminalReceipt | PastTerm
    | NotRunning | NoCapability | ServiceChanged
    | GenerationChanged | OwnershipChanged | StillDraining
    | PolicyNotDisabled | NotStopped | NoReplacement

  /** Errors that can happen once a run has begun its work. */
  predicate Midway(error: Option<Error>) {
    error !in {Some(Busy), Some(ReceiptExists), Some(NoReceipt), Some(NoService), Some(TerminalReceipt), Some(PastTerm)}
  }

  /** One run of the tool. `record` is its in-memory copy of the receipt. */
  class Deployment {
    const path: Path
    const host: Host
    var record: Receipt

    constructor (path: Path, host: Host)
      ensures this.path == path && this.host == host
    {
      this.path, this.host := path, host;
      record := Receipt(Prepared, 0, 0, None, No, 0, None, None);
    }

    /** This run holds the deployment lock. */
    ghost predicate Ready()
      reads this, host
    {
      host.Valid() && this as object != host && Turns(host.w, path)
    }

    /** In this run the captured application was asked to drain, and answered with the generation
        in the record. */
    ghost predicate Sure()
      reads this, host
    {
      Told(host.w, path, record.generation)
    }

    /** The durable receipt is this record up to a generation learnt since. */
    ghost predicate Backed()
      reads this, host
    {
      && path in host.w.receipts && SameIdentity(host.w.receipts[path], record)
      && host.w.receipts[path].phase == record.phase && host.w.receipts[path].exit == record.exit
      && record.container in host.w.containers && Known(host.w, record.generation)
    }

    ghost predicate OnService()
      reads this, host
    {
      host.w.service == Some(record.container)
    }

    /** The error has a cause since `m`: a command raised, or the world showed it. */
    ghost predicate Justified(e: Error, m: Moment)
      reads this, host
    {
      match e
      case CommandFailed => host.failures > m.failures
      case Busy => host.w.turn.Some?
      case ReceiptExists => path in host.w.receipts
      case NoReceipt => path !in host.w.receipts
      case NoService => host.w.service.None?
      case TerminalReceipt => record.phase in {Aborted, Replaced}
      case PastTerm => record.phase in {TermRequested, ExitVerified, Replaced, Aborted}
      case ServiceChanged => !OnService()
      case StillDraining => host.now >= m.now + record.drainTimeout
      case GenerationChanged => exists s :: Reported(m, s) && record.generation.Some? && Some(s.generation) != record.generation
      case OwnershipChanged => exists s :: Reported(m, s) && (s.phase !in {M.Draining, M.Drained} || Some(s.generation) != record.generation)
      case NotRunning => exists c :: Showed(m, c) && !c.proc.running
      case NoCapability => exists c :: Showed(m, c) && !c.drainLabel
      case PolicyNotDisabled => exists c :: Showed(m, c) && c.policy != No
      case NotStopped =>
        host.waits != [] && exists c :: Showed(m, c) && (c.policy != No || !CleanExit(c.proc, host.waits[|host.waits| - 1]))
      case NoReplacement => !(host.w.service.Some? && host.w.service.value != record.container) || Stopped(m)
    }

    ghost predicate Showed(m: Moment, c: Container)
      reads this, host
    {
      ShowedIn(host.history, m.world, record.container, c)
    }

    ghost predicate Reported(m: Moment, status: M.Status)
      reads this, host
    {
      ReportedIn(host.history, m.world, record.container, status)
    }

    /** Since `m` the service was once without a running container. */
    ghost predicate Stopped(m: Moment)
      reads this, host
    {
      exists i :: 0 <= i < |host.history.worlds| && m.world <= i && !Runs(host.history.worlds[i])
    }

    ghost predicate Sound(error: Option<Error>, m: Moment)
      reads this, host
    {
      NotAfter(m, host.Now()) && (error.Some? ==> Justified(error.value, m))
    }

    /** What justifies an error of a part justifies it for the whole. */
    lemma Carried(error: Option<Error>, whole: Moment, part: Moment)
      requires NotAfter(whole, part) && Sound(error, part)
      ensures Sound(error, whole)
    {
    }

    lemma Raised(m: Moment)
      requires NotAfter(m, host.Now()) && host.failures > m.failures
      ensures Sound(Some(CommandFailed), m)
    {
    }

    method Save(phase: Phase) returns (error: Option<Error>)
      requires Ready() && MaySave(host.w, path, record.(phase := phase))
      modifies this, host
      ensures Ready() && Extends(old(host.history), host.history) && Sound(error, old(host.Now()))
      ensures record == old(record).(phase := phase) && error in {None, Some(CommandFailed)}
      ensures error.None? ==> path in host.w.receipts && host.w.receipts[path] == record && host.w.watch == old(host.w.watch)
      ensures error.None? ==> Quiet(old(host.w).(receipts := host.w.receipts, nextOwner := host.w.nextOwner), host.w)
      ensures error.None? && path in old(host.w.receipts) ==> host.w.nextOwner == old(host.w.nextOwner)
    {
      record := record.(phase := phase);
      var ok := host.Issue(DeployWorld.Save(path, record));
      error := if ok then None else Some(CommandFailed);
    }

    method VerifyDaemonAndService() returns (error: Option<Error>)
      requires Ready()
      modifies host
      ensures Ready() && Extends(old(host.history), host.history) && Sound(error, old(host.Now()))
      ensures Quiet(old(host.w), host.w) && host.w.watch == old(host.w.watch)
      ensures error in {None, Some(CommandFailed), Some(ServiceChanged)}
      ensures error.None? ==> OnService() && record.container in host.w.containers
    {
      var answered, current := host.ServiceContainer(true);
      error :=
        if !answered then Some(CommandFailed)
        else if current != Some(record.container) then Some(ServiceChanged)
        else None;
    }

    /** The capability label is read before every exec. */
    method CheckCapability() returns (error: Option<Error>)
      requires Ready()
      modifies host
      ensures Ready() && Extends(old(host.history), host.history) && Sound(error, old(host.Now()))
      ensures Quiet(old(host.w), host.w) && host.w.watch == old(host.w.watch)
      ensures error in {None, Some(CommandFailed), Some(NoCapability)}
      ensures error.None? ==> record.container in host.w.containers && host.w.containers[record.container].drainLabel
    {
      hide Inv, DH.Valid;
      var original := host.Inspect(record.container);
      if original.None? {
        return Some(CommandFailed);
      }
      if !original.value.drainLabel {
        assert Showed(old(host.Now()), original.value);
        return Some(NoCapability);
      }
      error := None;
    }

    /** The record names the service's container, which has the capability, with its policy. */
    ghost predicate Inspected()
      reads this, host
    {
      && OnService() && record.container in host.w.containers
      && host.w.containers[record.container].drainLabel && host.w.containers[record.container].policy == record.policy
    }

    /** The checks of `prepare` on the container it captures. */
    method Capture(drainTimeout: nat) returns (error: Option<Error>)
      requires Ready()
      modifies this, host
      ensures Ready() && Extends(old(host.history), host.history) && Sound(error, old(host.Now()))
      ensures Quiet(old(host.w), host.w)
      ensures error in {None, Some(CommandFailed), Some(NoService), Some(NotRunning), Some(NoCapability)}
      ensures error.None? ==> record == Receipt(Prepared, record.container, old(host.w.nextOwner), None, record.policy, drainTimeout, None, None)
      ensures error.None? ==> Inspected() && CapableIn(host.history, old(host.Now()).world, record.container)
    {
      hide Inv, DH.Valid, ShowedIn;
      ghost var start := host.Now();
      var token := host.w.nextOwner;
      var answered, current := host.ServiceContainer(true);
      if !answered {
        return Some(CommandFailed);
      }
      if current.None? {
        return Some(NoService);
      }
      record := Receipt(Prepared, current.value, token, None, No, drainTimeout, None, None);
      ghost var mid := host.Now();
      error := CheckCaptured();
      Carried(error, start, mid);
      if error.None? {
        CapableGrows(host.history, host.history, start.world, mid.world, record.container);
      }
    }

    method CheckCaptured() returns (error: Option<Error>)
      requires Ready() && OnService()
      modifies this, host
      ensures Ready() && Extends(old(host.history), host.history) && Sound(error, old(host.Now()))
      ensures Quiet(old(host.w), host.w)
      ensures error in {None, Some(CommandFailed), Some(NotRunning), Some(NoCapability)}
      ensures record == old(record).(policy := record.policy)
      ensures error.None? ==> Inspected() && CapableIn(host.history, old(host.Now()).world, record.container)
    {
      hide Inv, DH.Valid;
      var original := host.Inspect(record.container);
      if original.None? {
        return Some(CommandFailed);
      }
      assert Showed(old(host.Now()), original.value);
      if !original.value.proc.running {
        return Some(NotRunning);
      }
      if !original.value.drainLabel {
        return Some(NoCapability);
      }
      ShownCapable(host.history, old(host.Now()).world, record.container, original.value);
      record := record.(policy := original.value.policy);
      error := None;
    }

    /** No run finds a lost drain again. */
    twostate lemma StillLost()
      requires old(host.Valid()) && host.Valid() && Extends(old(host.history), host.history) && DE.Lost(old(host.w), path)
      ensures DE.Lost(host.w, path) && path in host.w.receipts && host.w.receipts[path].generation.Some?
    {
      hide Inv;
      DE.LostForGood(host.history, |old(host.history.worlds)| - 1, path, |host.history.worlds| - 1);
    }

    /** Nor one out of a dead end. */
    twostate lemma StillStuck()
      requires old(host.Valid()) && host.Valid() && Extends(old(host.history), host.history) && DE.Stuck(old(host.w), path)
      ensures DE.Stuck(host.w, path) && path in host.w.receipts && path in old(host.w.receipts)
      ensures host.w.receipts[path] == old(host.w.receipts[path]) && host.w.receipts[path].phase != Replaced
    {
      hide Inv;
      DE.StuckForGood(host.history, |old(host.history.worlds)| - 1, path, |host.history.worlds| - 1);
      DE.StuckHasReceipt(host.w, path);
    }

    lemma Exists(m: Moment)
      requires NotAfter(m, host.Now()) && path in host.w.receipts
      ensures Sound(Some(ReceiptExists), m)
    {
    }

    lemma MayRecord()
      requires Turns(host.w, path) && path !in host.w.receipts && Inspected() && record.owner == host.w.nextOwner
      requires record.generation == None && record.exit == None && record.replacement == None
      ensures MaySave(host.w, path, record.(phase := Prepared))
    {
    }

    method Prepare(drainTimeout: nat) returns (error: Option<Error>)
      requires Ready()
      modifies this, host
      ensures Ready() && Extends(old(host.history), host.history) && Sound(error, old(host.Now())) && error != Some(Busy)
      ensures error == Some(ReceiptExists) <==> path in old(host.w.receipts)
      ensures error.None? ==> Backed() && record.phase == Prepared && OnService() && host.w.receipts[path] == record
      ensures error.None? ==> CapableIn(host.history, old(host.Now()).world, record.container)
    {
      hide Inv, DH.Valid, Justified, CapableIn;
      ghost var start := host.Now();
      if path in host.w.receipts {
        Exists(start);
        return Some(ReceiptExists);
      }
      error := Capture(drainTimeout);
      if error.Some? {
        return;
      }
      ghost var mid, past := host.Now(), host.history;
      error := BuildAndRecord();
      Carried(error, start, mid);
      CapableGrows(past, host.history, start.world, start.world, record.container);
    }

    /** The image is built before the application is paused. */
    method BuildAndRecord() returns (error: Option<Error>)
      requires Ready() && path !in host.w.receipts && Inspected()
      requires record.owner == host.w.nextOwner && record.phase == Prepared
      requires record.generation == None && record.exit == None && record.replacement == None
      modifies this, host
      ensures Ready() && Extends(old(host.history), host.history) && Sound(error, old(host.Now()))
      ensures error in {None, Some(CommandFailed)} && record == old(record)
      ensures error.None? ==> Backed() && OnService() && host.w.receipts[path] == record
    {
      hide Inv, DH.Valid, Justified, MaySave;
      ghost var start := host.Now();
      var built := host.Succeeds();
      if !built {
        Raised(start);
        return Some(CommandFailed);
      }
      ghost var mid := host.Now();
      error := VerifyDaemonAndService();
      if error.Some? {
        ServiceIsKept(error, mid);
        Carried(error, start, mid);
        return;
      }
      mid := host.Now();
      MayRecord();
      error := Save(Prepared);
      Carried(error, start, mid);
    }

    /** The drain request, repeatable if its first answer was lost. */
    method BeginDrain() returns (status: Option<M.Status>, error: Option<Error>)
      requires Ready() && Backed() && OnService() && BeforeTerm(record.phase)
      modifies this, host
      ensures Ready() && Extends(old(host.history), host.history) && Sound(error, old(host.Now()))
      ensures (status.None? <==> error.Some?) && error in {None, Some(CommandFailed), Some(NoCapability), Some(GenerationChanged)}
      ensures status.Some? ==> Backed() && OnService() && BeforeTerm(record.phase) && Sure()
      ensures status.Some? ==> record == old(record).(generation := Some(status.value.generation))
      ensures status.Some? ==> host.w.containers[record.container].drainLabel
      ensures status.Some? ==> path in host.w.watch && (host.w.watch[path].drained <==> status.value.phase == M.Drained)
      ensures status.Some? ==> Reported(old(host.Now()), status.value)
      ensures Quiet(old(host.w).(turn := host.w.turn), host.w)
      ensures DE.Lost(old(host.w), path) ==> error.Some?
    {
      hide Inv, DH.Valid, Justified, ReportedIn, DE.Lost;
      ghost var start := host.Now();
      status := None;
      error := CheckCapability();
      if error.Some? {
        return;
      }
      if DE.Lost(old(host.w), path) {
        StillLost();
      }
      ghost var mid := host.Now();
      status, error := AskDrain();
      Carried(error, start, mid);
      if status.Some? {
        ReportedGrows(host.history, host.history, start.world, mid.world, record.container, status.value);
      }
    }

    method AskDrain() returns (status: Option<M.Status>, error: Option<Error>)
      requires Ready() && Backed() && OnService() && BeforeTerm(record.phase) && host.w.containers[record.container].drainLabel
      modifies this, host
      ensures Ready() && Extends(old(host.history), host.history) && Sound(error, old(host.Now()))
      ensures (status.None? <==> error.Some?) && error in {None, Some(CommandFailed), Some(GenerationChanged)}
      ensures status.Some? ==> Backed() && Sure() && record == old(record).(generation := Some(status.value.generation))
      ensures status.Some? ==> path in host.w.watch && (host.w.watch[path].drained <==> status.value.phase == M.Drained)
      ensures status.Some? ==> Reported(old(host.Now()), status.value)
      ensures Quiet(old(host.w).(turn := host.w.turn), host.w)
      ensures DE.Lost(old(host.w), path) && host.w.receipts[path].generation.Some? ==> error.Some?
    {
      hide Inv, DH.Valid, DE.Lost;
      var reply := host.ExecDrain(path);
      if reply.None? {
        return None, Some(CommandFailed);
      }
      assert Reported(old(host.Now()), reply.value);
      if record.generation.Some? && reply.value.generation != record.generation.value {
        return None, Some(GenerationChanged);
      }
      record := record.(generation := Some(reply.value.generation));
      return reply, None;
    }

    /** One second later, the status of the drain. */
    method PollStatus() returns (status: Option<M.Status>, error: Option<Error>)
      requires Ready() && Backed() && OnService() && BeforeTerm(record.phase) && path in host.w.watch
      modifies host
      ensures Ready() && Extends(old(host.history), host.history) && Sound(error, old(host.Now())) && host.now > old(host.now)
      ensures Quiet(old(host.w), host.w)
      ensures (status.None? <==> error.Some?) && error in {None, Some(CommandFailed), Some(NoCapability)}
      ensures status.Some? ==> path in host.w.watch && (host.w.watch[path].drained <==> status.value.phase == M.Drained)
      ensures status.Some? ==> Reported(old(host.Now()), status.value)
    {
      hide Inv, DH.Valid, Justified, ReportedIn;
      ghost var start := host.Now();
      host.Sleep();
      ghost var mid := host.Now();
      status, error := AskStatus();
      Carried(error, start, mid);
      if status.Some? {
        ReportedGrows(host.history, host.history, start.world, mid.world, record.container, status.value);
      }
    }

    method AskStatus() returns (status: Option<M.Status>, error: Option<Error>)
      requires Ready() && Backed() && OnService() && BeforeTerm(record.phase) && path in host.w.watch
      modifies host
      ensures Ready() && Extends(old(host.history), host.history) && Sound(error, old(host.Now()))
      ensures Quiet(old(host.w), host.w)
      ensures (status.None? <==> error.Some?) && error in {None, Some(CommandFailed), Some(NoCapability)}
      ensures status.Some? ==> path in host.w.watch && (host.w.watch[path].drained <==> status.value.phase == M.Drained)
      ensures status.Some? ==> Reported(old(host.Now()), status.value)
    {
      hide Inv, DH.Valid, Justified, ReportedIn;
      ghost var start := host.Now();
      status := None;
      error := CheckCapability();
      if error.Some? {
        return;
      }
      ghost var mid := host.Now();
      status := host.ExecStatus(path);
      if status.None? {
        Raised(start);
        error := Some(CommandFailed);
      } else {
        ReportedGrows(host.history, host.history, start.world, mid.world, record.container, status.value);
      }
    }

    /** Whether waiting has to be given up. */
    function GivesUp(status: M.Status, deadline: nat): Option<Error>
      reads this, host
    {
      if Some(status.generation) != record.generation || status.phase != M.Draining then Some(OwnershipChanged)
      else if host.now >= deadline then Some(StillDraining)
      else None
    }

    lemma GivingUp(status: M.Status, start: Moment, deadline: nat)
      requires NotAfter(start, host.Now()) && Reported(start, status) && status.phase != M.Drained
      requires deadline >= start.now + record.drainTimeout
      ensures Sound(GivesUp(status, deadline), start)
    {
    }

    method WaitUntilDrained() returns (error: Option<Error>)
      requires Ready() && Backed() && OnService() && BeforeTerm(record.phase)
      modifies this, host
      ensures Ready() && Extends(old(host.history), host.history) && Sound(error, old(host.Now())) && Midway(error)
      ensures error.None? ==> Backed() && OnService() && record.phase == Draining && record.container == old(record.container)
      ensures error.None? ==> Sure() && path in host.w.watch && host.w.watch[path].drained
      ensures DE.Lost(old(host.w), path) ==> error.Some?
    {
      hide Inv, DH.Valid, Justified, ReportedIn, DE.Lost;
      ghost var start := host.Now();
      var reply, failed := PauseAdmission();
      if failed.Some? {
        return failed;
      }
      error := AwaitDrained(reply.value, start);
    }

    /** The generation the application answers with is made durable. */
    method PauseAdmission() returns (status: Option<M.Status>, error: Option<Error>)
      requires Ready() && Backed() && OnService() && BeforeTerm(record.phase)
      modifies this, host
      ensures Ready() && Extends(old(host.history), host.history) && Sound(error, old(host.Now())) && Midway(error)
      ensures status.None? <==> error.Some?
      ensures status.Some? ==> Backed() && OnService() && Sure() && record.phase == Draining && record.container == old(record.container)
      ensures status.Some? ==> path in host.w.watch && (host.w.watch[path].drained <==> status.value.phase == M.Drained)
      ensures status.Some? ==> Reported(old(host.Now()), status.value)
      ensures DE.Lost(old(host.w), path) ==> error.Some?
    {
      hide Inv, DH.Valid, Justified, ReportedIn, DE.Lost;
      ghost var start := host.Now();
      status, error := BeginDrain();
      if error.Some? {
        return;
      }
      ghost var mid, past := host.Now(), host.history;
      error := Save(Draining);
      Carried(error, start, mid);
      if error.Some? {
        return None, error;
      }
      ReportedGrows(past, host.history, start.world, start.world, record.container, status.value);
    }

    /** Poll until drained, within the drain timeout. */
    method AwaitDrained(first: M.Status, ghost start: Moment) returns (error: Option<Error>)
      requires Ready() && Backed() && OnService() && record.phase == Draining && Sure()
      requires NotAfter(start, host.Now()) && Reported(start, first)
      requires path in host.w.watch && (host.w.watch[path].drained <==> first.phase == M.Drained)
      modifies host
      ensures Ready() && Extends(old(host.history), host.history) && Sound(error, start)
      ensures error in {None, Some(CommandFailed), Some(NoCapability), Some(OwnershipChanged), Some(StillDraining)}
      ensures error.None? ==> Backed() && OnService() && Sure() && path in host.w.watch && host.w.watch[path].drained
    {
      hide Inv, DH.Valid, Justified, ReportedIn;
      var status := first;
      var deadline := host.now + record.drainTimeout;
      error := None;
      while status.phase != M.Drained
        invariant Ready() && Extends(old(host.history), host.history) && NotAfter(start, host.Now())
        invariant Backed() && OnService() && Sure()
        invariant path in host.w.watch && (host.w.watch[path].drained <==> status.phase == M.Drained)
        invariant Reported(start, status) && deadline >= start.now + record.drainTimeout && error.None?
        decreases deadline - host.now
      {
        GivingUp(status, start, deadline);
        error := GivesUp(status, deadline);
        if error.Some? {
          return;
        }
        ghost var mid := host.Now();
        var reply;
        reply, error := PollStatus();
        if error.Some? {
          Carried(error, start, mid);
          return;
        }
        status := reply.value;
        ReportedGrows(host.history, host.history, start.world, mid.world, record.container, status);
      }
    }

    method DisableAndRecord() returns (error: Option<Error>)
      requires Ready() && Backed() && OnService() && record.phase == Draining && Sure()
      requires path in host.w.watch && host.w.watch[path].drained
      modifies this, host
      ensures Ready() && Extends(old(host.history), host.history) && Sound(error, old(host.Now()))
      ensures error in {None, Some(CommandFailed)}
      ensures error.None? ==> Backed() && OnService() && record.phase == TermRequested && record.container == old(record.container)
      ensures error.None? ==> host.w.containers[record.container].policy == No
    {
      hide Inv, DH.Valid, Justified;
      ghost var start := host.Now();
      error := Save(Drained);
      if error.Some? {
        return;
      }
      ghost var mid := host.Now();
      error := VerifyDaemonAndService();
      if error.Some? {
        ServiceIsKept(error, mid);
        Carried(error, start, mid);
        return;
      }
      mid := host.Now();
      error := DisableRestart();
      Carried(error, start, mid);
    }

    method DisableRestart() returns (error: Option<Error>)
      requires Ready() && Backed() && OnService() && record.phase == Drained && Sure()
      requires path in host.w.watch && host.w.watch[path].drained
      modifies this, host
      ensures Ready() && Extends(old(host.history), host.history) && Sound(error, old(host.Now()))
      ensures error in {None, Some(CommandFailed)}
      ensures error.None? ==> Backed() && OnService() && record.phase == TermRequested && record.container == old(record.container)
      ensures error.None? ==> host.w.containers[record.container].policy == No
    {
      hide Inv, DH.Valid, Justified;
      ghost var start := host.Now();
      error := Save(RestartDisable);
      if error.Some? {
        return;
      }
      ghost var mid := host.Now();
      error := TurnRestartOff();
      Carried(error, start, mid);
    }

    /** The service has not changed, so `ServiceChanged` cannot be what verification found. */
    lemma ServiceIsKept(error: Option<Error>, m: Moment)
      requires OnService() && Sound(error, m)
      ensures error != Some(ServiceChanged)
    {
    }

    method TurnRestartOff() returns (error: Option<Error>)
      requires Ready() && Backed() && OnService() && record.phase == RestartDisable && host.w.receipts[path] == record && Sure()
      requires path in host.w.watch && host.w.watch[path].drained
      modifies this, host
      ensures Ready() && Extends(old(host.history), host.history) && Sound(error, old(host.Now()))
      ensures error in {None, Some(CommandFailed)}
      ensures error.None? ==> Backed() && OnService() && record.phase == TermRequested && record.container == old(record.container)
      ensures error.None? ==> host.w.containers[record.container].policy == No
    {
      hide Inv, DH.Valid, Justified;
      ghost var start := host.Now();
      var ok := host.Issue(SetPolicy(path, No));
      if !ok {
        Raised(start);
        return Some(CommandFailed);
      }
      ghost var mid := host.Now();
      error := Save(TermRequested);
      Carried(error, start, mid);
    }

    /** Pause admission, wait until drained, disable restart, record and send TERM. */
    method DrainThenTerm() returns (error: Option<Error>)
      requires Ready() && Backed() && OnService() && BeforeTerm(record.phase)
      modifies this, host
      ensures Ready() && Extends(old(host.history), host.history) && Sound(error, old(host.Now())) && Midway(error)
      ensures error.None? ==> Backed() && record.phase == TermRequested && record.container == old(record.container)
      ensures error.None? ==> Sent(host.history, |old(host.history.events)|, path)
      ensures DE.Lost(old(host.w), path) ==> error.Some?
    {
      hide Inv, DH.Valid, Justified, DE.Lost;
      ghost var start := host.Now();
      error := WaitUntilDrained();
      if error.Some? {
        return;
      }
      ghost var mid := host.Now();
      error := DisableAndRecord();
      if error.Some? {
        Carried(error, start, mid);
        return;
      }
      mid := host.Now();
      error := SignalTerm(|old(host.history.events)|);
      Carried(error, start, mid);
    }

    /** TERM; a call that merely fails is not the end of the run. */
    method SignalTerm(ghost from: nat) returns (error: Option<Error>)
      requires Ready() && Backed() && OnService() && record.phase in {TermRequested, ExitVerified} && from <= |host.history.events|
      requires host.w.containers[record.container].policy == No
      modifies host
      ensures Ready() && Extends(old(host.history), host.history) && Sound(error, old(host.Now()))
      ensures error in {None, Some(CommandFailed)} && Quiet(old(host.w), host.w) && Sent(host.history, from, path)
    {
      hide Inv, DH.Valid;
      ghost var before := |host.history.events|;
      var survived := host.SendTerm(path);
      assert host.history.events[before] == Term(path);
      error := if survived then None else Some(CommandFailed);
    }

    /** On a resumed receipt the process may still run; signal it again. */
    method RepeatTerm() returns (error: Option<Error>)
      requires Ready() && Backed() && record.phase in {TermRequested, ExitVerified}
      modifies host
      ensures Ready() && Extends(old(host.history), host.history) && Sound(error, old(host.Now())) && Midway(error)
      ensures Quiet(old(host.w), host.w)
      ensures error.None? ==> OnService() && host.w.containers[record.container].policy == No
    {
      hide Inv, DH.Valid, Justified;
      ghost var start := host.Now();
      error := VerifyDaemonAndService();
      if error.Some? {
        return;
      }
      ghost var mid := host.Now();
      error := SignalIfRunning();
      Carried(error, start, mid);
    }

    method SignalIfRunning() returns (error: Option<Error>)
      requires Ready() && Backed() && OnService() && record.phase in {TermRequested, ExitVerified}
      modifies host
      ensures Ready() && Extends(old(host.history), host.history) && Sound(error, old(host.Now())) && Midway(error)
      ensures Quiet(old(host.w), host.w)
      ensures error.None? ==> host.w.containers[record.container].policy == No
    {
      hide Inv, DH.Valid, Justified;
      ghost var start := host.Now();
      var running;
      running, error := CheckRestartIsOff();
      if error.None? && running {
        ghost var mid := host.Now();
        error := SignalTerm(|host.history.events|);
        Carried(error, start, mid);
      }
    }

    method CheckRestartIsOff() returns (running: bool, error: Option<Error>)
      requires Ready()
      modifies host
      ensures Ready() && Extends(old(host.history), host.history) && Sound(error, old(host.Now()))
      ensures error in {None, Some(CommandFailed), Some(PolicyNotDisabled)}
      ensures Quiet(old(host.w), host.w)
      ensures error.None? ==> record.container in host.w.containers && host.w.containers[record.container].policy == No
    {
      hide Inv, DH.Valid;
      ghost var start := host.Now();
      running, error := false, None;
      var current := host.Inspect(record.container);
      if current.None? {
        return false, Some(CommandFailed);
      }
      if current.value.policy != No {
        assert Showed(start, current.value);
        return false, Some(PolicyNotDisabled);
      }
      running := current.value.proc.running;
    }

    /** The state `docker inspect` shows after `docker wait` returned. */
    method CollectExit() returns (state: Option<Proc>, error: Option<Error>)
      requires Ready() && record.container in host.w.containers
      modifies host
      ensures Ready() && Extends(old(host.history), host.history) && Sound(error, old(host.Now()))
      ensures Quiet(old(host.w), host.w) && host.w.watch == old(host.w.watch)
      ensures (state.None? <==> error.Some?) && error in {None, Some(CommandFailed), Some(NotStopped)}
      ensures state.Some? ==> CleanExit(state.value, state.value.exitCode)
      ensures state.Some? ==> host.w.containers[record.container].proc == state.value
    {
      hide Inv, DH.Valid, Justified;
      ghost var start := host.Now();
      var exitCode := host.WaitExit();
      if exitCode.None? {
        Raised(start);
        return None, Some(CommandFailed);
      }
      ghost var mid := host.Now();
      state, error := JudgeExit(exitCode.value);
      Carried(error, start, mid);
    }

    /** The demands on the state shown after the wait. */
    method JudgeExit(exitCode: int) returns (state: Option<Proc>, error: Option<Error>)
      requires Ready() && record.container in host.w.containers
      requires host.waits != [] && host.waits[|host.waits| - 1] == exitCode
      modifies host
      ensures Ready() && Extends(old(host.history), host.history) && Sound(error, old(host.Now()))
      ensures Quiet(old(host.w), host.w) && host.w.watch == old(host.w.watch)
      ensures (state.None? <==> error.Some?) && error in {None, Some(CommandFailed), Some(NotStopped)}
      ensures state.Some? ==> CleanExit(state.value, exitCode) && host.w.containers[record.container].proc == state.value
    {
      hide Inv, DH.Valid;
      var last := host.Inspect(record.container);
      if last.None? {
        return None, Some(CommandFailed);
      }
      var proc := last.value.proc;
      if proc.running || proc.pid != 0 || proc.status != Exited || proc.exitCode != exitCode
         || !proc.finished || last.value.policy != No {
        assert Showed(old(host.Now()), last.value);
        return None, Some(NotStopped);
      }
      assert Retired(last.value);
      return Some(proc), None;
    }

    /** Wait for the captured process and demand proof that it is gone. */
    method ProveExit() returns (error: Option<Error>)
      requires Ready() && Backed() && record.phase in {TermRequested, ExitVerified}
      modifies this, host
      ensures Ready() && Extends(old(host.history), host.history) && Sound(error, old(host.Now())) && Midway(error)
      ensures error.None? ==> Backed() && OnService() && record.phase == ExitVerified && record.container == old(record.container)
      ensures error.None? ==> host.w.receipts[path] == record
    {
      hide Inv, DH.Valid, Justified;
      ghost var start := host.Now();
      error := RepeatTerm();
      if error.Some? {
        return;
      }
      ghost var mid := host.Now();
      var state, failed := CollectExit();
      if failed.Some? {
        Carried(failed, start, mid);
        return failed;
      }
      mid := host.Now();
      error := RecordExit(state.value);
      Carried(error, start, mid);
    }

    method RecordExit(state: Proc) returns (error: Option<Error>)
      requires Ready() && Backed() && OnService() && record.phase in {TermRequested, ExitVerified}
      requires host.w.containers[record.container].policy == No && host.w.containers[record.container].proc == state
      requires CleanExit(state, state.exitCode)
      modifies this, host
      ensures Ready() && Extends(old(host.history), host.history) && Sound(error, old(host.Now()))
      ensures error in {None, Some(CommandFailed)}
      ensures error.None? ==> Backed() && OnService() && record.phase == ExitVerified && record.container == old(record.container)
      ensures error.None? ==> host.w.receipts[path] == record
    {
      hide Inv, DH.Valid, Justified;
      record := record.(exit := Some(state));
      error := Save(ExitVerified);
    }

    /** `compose up --force-recreate`: it may replace the container by a new one, only remove it,
        or fail without effect. */
    method Up() returns (error: Option<Error>)
      requires Ready() && Allowed(host.w, Recreate(path, None))
      modifies host
      ensures Ready() && Extends(old(host.history), host.history) && Sound(error, old(host.Now()))
      ensures error in {None, Some(CommandFailed)}
      ensures error.None? ==> host.w.receipts == old(host.w.receipts) && host.w.nextOwner == old(host.w.nextOwner)
      ensures error.None? ==> host.w.turn.value.recreated
      ensures error.None? ==> host.w.nextGeneration >= old(host.w.nextGeneration)
      ensures error.None? ==> old(host.w.containers).Keys <= host.w.containers.Keys
      ensures error.None? && host.w.service.Some? ==> host.w.service.value !in old(host.w.containers)
    {
      hide Inv, DH.Valid;
      var id: Id := *;
      var container: Container := *;
      var creates: bool := *;
      var made := if creates && id !in host.w.containers then Some((id, container.(app := M.INITIAL))) else None;
      var ok := host.Issue(Recreate(path, made));
      error := if ok then None else Some(CommandFailed);
    }

    /** Recreate the service container and record the new one. */
    method Replace() returns (error: Option<Error>)
      requires Ready() && Backed() && record.phase == ExitVerified && host.w.receipts[path] == record
      modifies this, host
      ensures Ready() && Extends(old(host.history), host.history) && Sound(error, old(host.Now())) && Midway(error)
      ensures error.None? ==> Backed() && record.phase == Replaced && record.container == old(record.container)
      ensures error.None? ==> record.replacement.Some? && host.w.service == record.replacement
      ensures error.None? ==> record.replacement.value !in old(host.w.containers)
      ensures error.None? ==> RunningIn(host.history, old(host.Now()).world, record.replacement.value)
    {
      hide Inv, DH.Valid, Justified, Allowed, RunningIn;
      ghost var start := host.Now();
      error := VerifyDaemonAndService();
      if error.Some? {
        return;
      }
      ExitStillProven();
      ghost var mid := host.Now();
      error := Up();
      if error.Some? {
        Carried(error, start, mid);
        return;
      }
      mid := host.Now();
      error := RecordReplacement();
      Carried(error, start, mid);
      if error.None? {
        RunningGrows(host.history, host.history, start.world, mid.world, record.replacement.value);
      }
    }

    /** The recorded exit still describes the captured container, so `up` may run. */
    lemma ExitStillProven()
      requires Ready() && Backed() && OnService() && record.phase == ExitVerified && host.w.receipts[path] == record
      ensures Allowed(host.w, Recreate(path, None))
    {
      hide DH.Valid, WatchInv, GenerationInv;
      assert Proven(host.w, path);
    }

    method RecordReplacement() returns (error: Option<Error>)
      requires Ready() && Backed() && record.phase == ExitVerified && host.w.receipts[path] == record
      requires host.w.turn.value.recreated
      modifies this, host
      ensures Ready() && Extends(old(host.history), host.history) && Sound(error, old(host.Now()))
      ensures error in {None, Some(CommandFailed), Some(NoReplacement)}
      ensures error.None? ==> Backed() && record.phase == Replaced && record.container == old(record.container)
      ensures error.None? ==> record.replacement.Some? && host.w.service == record.replacement == old(host.w.service)
      ensures error.None? ==> RunningIn(host.history, old(host.Now()).world, record.replacement.value)
    {
      hide Inv;
      ghost var start := host.Now();
      assert host.history.worlds[|host.history.worlds| - 1] == host.w;
      var answered, current := host.ServiceContainer(false);
      if !answered {
        return Some(CommandFailed);
      }
      if current.None? || current.value == record.container {
        return Some(NoReplacement);
      }
      ghost var mid := host.Now();
      error := RecordAs(current.value);
      Carried(error, start, mid);
      if error.None? {
        RunningGrows(host.history, host.history, start.world, start.world, current.value);
      }
    }

    method RecordAs(id: Id) returns (error: Option<Error>)
      requires Ready() && Backed() && record.phase == ExitVerified && host.w.receipts[path] == record
      requires host.w.turn.value.recreated && host.w.service == Some(id) && id != record.container
      modifies this, host
      ensures Ready() && Extends(old(host.history), host.history) && Sound(error, old(host.Now()))
      ensures error in {None, Some(CommandFailed)}
      ensures error.None? ==> Backed() && record.phase == Replaced && record.container == old(record.container)
      ensures error.None? ==> record.replacement == Some(id) && host.w.service == Some(id)
    {
      hide Inv, DH.Valid, Justified;
      record := record.(replacement := Some(id));
      error := Save(Replaced);
    }

    method DrainAndReplace() returns (error: Option<Error>)
      requires Ready() && Backed() && host.w.receipts[path] == record
      modifies this, host
      ensures Ready() && Extends(old(host.history), host.history) && Sound(error, old(host.Now())) && error != Some(Busy)
      ensures error.None? ==> Backed() && record.phase == Replaced && record.container == old(record.container)
      ensures error.None? ==> record.replacement.Some? && host.w.service == record.replacement
      ensures error.None? && BeforeTerm(old(record.phase)) ==> Sent(host.history, |old(host.history.events)|, path)
      ensures old(record.phase) in {Aborted, Replaced} ==> error in {Some(CommandFailed), Some(ServiceChanged), Some(TerminalReceipt)}
      ensures error == Some(TerminalReceipt) ==> old(record.phase) in {Aborted, Replaced}
      ensures DE.Lost(old(host.w), path) && BeforeTerm(old(record.phase)) ==> error.Some?
      ensures old(host.w.service) != Some(old(record.container)) ==> error in {Some(CommandFailed), Some(ServiceChanged)}
    {
      hide Inv, DH.Valid, Justified, DE.Lost, Sent;
      ghost var start := host.Now();
      error := VerifyDaemonAndService();
      if error.Some? {
        return;
      }
      if record.phase == Aborted || record.phase == Replaced {
        Terminal(start);
        return Some(TerminalReceipt);
      }
      ghost var mid := host.Now();
      if record.phase != TermRequested && record.phase != ExitVerified {
        if DE.Lost(old(host.w), path) {
          StillLost();
        }
        ghost var later := |host.history.events|;
        error := DrainThenTerm();
        if error.Some? {
          Carried(error, start, mid);
          return;
        }
        SentGrows(host.history, host.history, |old(host.history).events|, later, path);
      }
      mid := host.Now();
      ghost var past := host.history;
      error := FinishReplacement();
      Carried(error, start, mid);
      if Sent(past, |old(host.history).events|, path) {
        SentGrows(past, host.history, |old(host.history).events|, |old(host.history).events|, path);
      }
    }

    /** From `term_requested` on. */
    method FinishReplacement() returns (error: Option<Error>)
      requires Ready() && Backed() && record.phase in {TermRequested, ExitVerified}
      modifies this, host
      ensures Ready() && Extends(old(host.history), host.history) && Sound(error, old(host.Now())) && Midway(error)
      ensures error.None? ==> Backed() && record.phase == Replaced && record.container == old(record.container)
      ensures error.None? ==> record.replacement.Some? && host.w.service == record.replacement
    {
      hide Inv, DH.Valid, Justified;
      ghost var start := host.Now();
      error := ProveExit();
      if error.Some? {
        return;
      }
      ghost var mid := host.Now();
      error := Replace();
      Carried(error, start, mid);
    }

    lemma Terminal(m: Moment)
      requires NotAfter(m, host.Now()) && record.phase in {Aborted, Replaced}
      ensures Sound(Some(TerminalReceipt), m)
    {
    }

    method AbortDeployment() returns (error: Option<Error>)
      requires Ready() && Backed() && host.w.receipts[path] == record
      modifies this, host
      ensures Ready() && Extends(old(host.history), host.history) && Sound(error, old(host.Now())) && error != Some(Busy)
      ensures error.None? ==> Backed() && record.phase == Aborted && BeforeTerm(old(record.phase))
      ensures error.None? ==> path !in host.w.watch && host.w.containers[record.container].policy == old(record.policy)
      ensures !BeforeTerm(old(record.phase)) ==> error in {Some(CommandFailed), Some(ServiceChanged), Some(PastTerm)}
      ensures error == Some(PastTerm) ==> !BeforeTerm(old(record.phase))
      ensures DE.Lost(old(host.w), path) ==> error.Some?
      ensures old(host.w.service) != Some(old(record.container)) ==> error in {Some(CommandFailed), Some(ServiceChanged)}
      ensures error.None? ==> Opened(host.history, old(host.Now()).world, record.container) && record.container == old(record.container)
    {
      hide Inv, DH.Valid, Justified, DE.Lost, Opened;
      ghost var start := host.Now();
      error := VerifyDaemonAndService();
      if error.Some? {
        return;
      }
      if record.phase in {TermRequested, ExitVerified, Replaced, Aborted} {
        TooLate(start);
        return Some(PastTerm);
      }
      ghost var mid := host.Now();
      error := CheckRunning();
      if error.Some? {
        Carried(error, start, mid);
        return;
      }
      if DE.Lost(old(host.w), path) {
        StillLost();
      }
      mid := host.Now();
      error := ReopenAdmission();
      Carried(error, start, mid);
      if error.None? {
        OpenedGrows(host.history, host.history, start.world, mid.world, record.container);
      }
    }

    lemma TooLate(m: Moment)
      requires NotAfter(m, host.Now()) && record.phase in {TermRequested, ExitVerified, Replaced, Aborted}
      ensures Sound(Some(PastTerm), m)
    {
    }

    /** A container seen running has no verified exit. */
    method CheckRunning() returns (error: Option<Error>)
      requires Ready() && record.container in host.w.containers
      modifies host
      ensures Ready() && Extends(old(host.history), host.history) && Sound(error, old(host.Now())) && Midway(error)
      ensures Quiet(old(host.w), host.w)
      ensures error.None? ==> NoneVerified(host.w, record.container)
    {
      hide DH.Valid, WatchInv, GenerationInv;
      ghost var start := host.Now();
      var current := host.Inspect(record.container);
      if current.None? {
        return Some(CommandFailed);
      }
      assert Showed(start, current.value);
      if !current.value.proc.running {
        return Some(NotRunning);
      }
      error := None;
    }

    method ReopenAdmission() returns (error: Option<Error>)
      requires Ready() && Backed() && OnService() && BeforeTerm(record.phase) && NoneVerified(host.w, record.container)
      modifies this, host
      ensures Ready() && Extends(old(host.history), host.history) && Sound(error, old(host.Now())) && Midway(error)
      ensures error.None? ==> Backed() && record.phase == Aborted
      ensures error.None? ==> path !in host.w.watch && host.w.containers[record.container].policy == old(record.policy)
      ensures DE.Lost(old(host.w), path) ==> error.Some?
      ensures error.None? ==> Opened(host.history, old(host.Now()).world, record.container) && record.container == old(record.container)
    {
      hide Inv, DH.Valid, Justified, DE.Lost, Opened;
      ghost var start := host.Now();
      var status, failed := BeginDrain();
      if failed.Some? {
        return failed;
      }
      ghost var mid := host.Now();
      error := RestorePolicy();
      if error.Some? {
        Carried(error, start, mid);
        return;
      }
      mid := host.Now();
      error := EndDrainAndRecord();
      Carried(error, start, mid);
      if error.None? {
        OpenedGrows(host.history, host.history, start.world, mid.world, record.container);
      }
    }

    method RestorePolicy() returns (error: Option<Error>)
      requires Ready() && Backed() && OnService() && BeforeTerm(record.phase) && Sure() && NoneVerified(host.w, record.container)
      modifies host
      ensures Ready() && Extends(old(host.history), host.history) && Sound(error, old(host.Now()))
      ensures error in {None, Some(CommandFailed)}
      ensures error.None? ==> Backed() && OnService() && Sure() && host.w.containers[record.container].policy == record.policy
    {
      hide Inv, DH.Valid;
      var ok := host.Issue(SetPolicy(path, record.policy));
      error := if ok then None else Some(CommandFailed);
    }

    method EndDrainAndRecord() returns (error: Option<Error>)
      requires Ready() && Backed() && OnService() && BeforeTerm(record.phase) && Sure()
      requires host.w.containers[record.container].policy == record.policy
      modifies this, host
      ensures Ready() && Extends(old(host.history), host.history) && Sound(error, old(host.Now())) && Midway(error)
      ensures error.None? ==> Backed() && record.phase == Aborted
      ensures error.None? ==> path !in host.w.watch && host.w.containers[record.container].policy == old(record.policy)
      ensures error.None? ==> Opened(host.history, old(host.Now()).world, record.container) && record.container == old(record.container)
    {
      hide Inv, DH.Valid, Justified, Opened;
      ghost var start := host.Now();
      error := EndDrain();
      if error.Some? {
        return;
      }
      ghost var mid, past := host.Now(), host.history;
      error := Save(Aborted);
      Carried(error, start, mid);
      OpenedGrows(past, host.history, start.world, start.world, record.container);
    }

    method EndDrain() returns (error: Option<Error>)
      requires Ready() && Backed() && OnService() && BeforeTerm(record.phase) && Sure()
      requires host.w.containers[record.container].policy == record.policy
      modifies host
      ensures Ready() && Extends(old(host.history), host.history) && Sound(error, old(host.Now())) && Midway(error)
      ensures Quiet(old(host.w), host.w)
      ensures error.None? ==> path !in host.w.watch && Opened(host.history, old(host.Now()).world, record.container)
    {
      hide Inv, DH.Valid, Justified, Opened;
      ghost var start := host.Now();
      error := CheckCapability();
      if error.Some? {
        return;
      }
      ghost var mid := host.Now();
      var ok := host.ExecAbort(path, record.generation.value);
      if !ok {
        Raised(start);
        return Some(CommandFailed);
      }
      OpenedGrows(host.history, host.history, start.world, mid.world, record.container);
    }

    predicate LostBeforeTerm(w: World) {
      DE.Lost(w, path) && path in w.receipts && BeforeTerm(w.receipts[path].phase)
    }

    /** The dispatch of `main`, under the deployment lock. Whatever the action and whatever fails,
        the run only extends a valid history and gives the lock back; success is reported only for
        what is durable, and an error only with its cause. A receipt in a dead end can be neither
        resumed nor aborted, and a lost drain before TERM is one. */
    method Run(action: Action) returns (error: Option<Error>)
      requires host.Valid() && this as object != host
      modifies this, host
      ensures host.Valid() && Extends(old(host.history), host.history) && Sound(error, old(host.Now()))
      ensures host.w.turn == old(host.w.turn)
      ensures old(host.w.turn.Some?) ==> error in {Some(Busy), Some(CommandFailed), Some(NoReceipt)}
      ensures error.None? ==> path in host.w.receipts
      ensures error.None? && action.Abort? ==> host.w.receipts[path].phase == Aborted
      ensures error.None? && !action.Abort? ==> host.w.receipts[path].phase == Replaced
      ensures error.None? && action.Deploy? ==> path !in old(host.w.receipts)
      ensures !action.Deploy? && LostBeforeTerm(old(host.w)) ==> error.Some?
      ensures !action.Deploy? && DE.Stuck(old(host.w), path) ==> error.Some?
    {
      hide Inv, DH.Valid, Justified, DE.Lost, DE.Stuck;
      ghost var start := host.Now();
      if !action.Deploy? {
        error := Load();
        if error.Some? {
          return;
        }
      }
      error := TakeLock();
      if error.Some? {
        return;
      }
      if LostBeforeTerm(old(host.w)) {
        StillLost();
      }
      if DE.Stuck(old(host.w), path) {
        StillStuck();
      }
      ghost var mid := host.Now();
      error := Dispatch(action);
      Carried(error, start, mid);
      GiveLockBack(error, start);
    }

    /** Giving the lock back takes no cause away. */
    method GiveLockBack(error: Option<Error>, ghost m: Moment)
      requires Ready() && Sound(error, m) && error != Some(Busy)
      modifies host
      ensures host.Valid() && Extends(old(host.history), host.history) && Sound(error, m)
      ensures host.w == old(host.w).(turn := None)
    {
      hide Inv, DH.Valid;
      host.Perform(Stop);
    }

    /** The lock is not waited for. */
    method TakeLock() returns (error: Option<Error>)
      requires host.Valid() && this as object != host
      modifies host
      ensures host.Valid() && Extends(old(host.history), host.history) && Sound(error, old(host.Now()))
      ensures error in {None, Some(CommandFailed), Some(Busy)}
      ensures error.Some? ==> host.w.turn == old(host.w.turn)
      ensures error.None? ==> old(host.w.turn) == None && host.w.turn == Some(Turn(path, None, false)) && host.w.receipts == old(host.w.receipts)
    {
      hide Inv, DH.Valid;
      var usable := host.Succeeds();
      if !usable {
        return Some(CommandFailed);
      }
      if host.w.turn.Some? {
        return Some(Busy);
      }
      host.Perform(Begin(path));
      error := None;
    }

    method Dispatch(action: Action) returns (error: Option<Error>)
      requires Ready()
      modifies this, host
      ensures Ready() && Extends(old(host.history), host.history) && Sound(error, old(host.Now())) && error != Some(Busy)
      ensures error.None? ==> path in host.w.receipts
      ensures error.None? && action.Abort? ==> host.w.receipts[path].phase == Aborted
      ensures error.None? && !action.Abort? ==> host.w.receipts[path].phase == Replaced
      ensures error.None? && action.Deploy? ==> path !in old(host.w.receipts)
      ensures error.None? && action.Abort? ==> path in old(host.w.receipts) && BeforeTerm(old(host.w.receipts)[path].phase)
      ensures !action.Deploy? && LostBeforeTerm(old(host.w)) ==> error.Some?
      ensures !action.Deploy? && DE.Stuck(old(host.w), path) ==> error.Some?
    {
      hide Inv, DH.Valid, Justified, DE.Lost, DE.Stuck;
      match action {
        case Deploy(drainTimeout) =>
          ghost var start := host.Now();
          error := Prepare(drainTimeout);
          if error.None? {
            ghost var mid := host.Now();
            error := DrainAndReplace();
            Carried(error, start, mid);
          }
        case Resume =>
          error := Load();
          if error.None? {
            error := DrainAndReplace();
          }
        case Abort =>
          error := Load();
          if error.None? {
            error := AbortDeployment();
          }
      }
      if error.None? && DE.Stuck(old(host.w), path) {
        StillStuck();
      }
    }

    method Load() returns (error: Option<Error>)
      requires host.Valid() && this as object != host
      modifies this
      ensures Sound(error, host.Now()) && error in {None, Some(NoReceipt)}
      ensures error.None? ==> Backed() && host.w.receipts[path] == record
    {
      if path !in host.w.receipts {
        return Some(NoReceipt);
      }
      record := host.w.receipts[path];
      error := None;
    }
  }

  predicate NoneVerified(w: World, id: Id) {
    forall q :: q in w.receipts && w.receipts[q].container == id ==> w.receipts[q].phase != ExitVerified
  }
}
