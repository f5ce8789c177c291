/** Everything a deployment run can touch and that outlives it: the Docker daemon with the
    containers of one Compose service, the application inside each container, and the receipts
    on disk (`scripts/deploy-drained.py`).

    `Allowed` and `Effect` say which worlds can follow which: any move of the environment at any time, and
    commands of the tool under the discipline its code keeps. The tool itself
    (`DeployTool.Deployment`) is proved to issue nothing else. */
module DeployWorld {
  import opened Base
  import M = Maintenance

  type Id = nat
  type Path = nat

  datatype Policy = No | Always | UnlessStopped | OnFailure(max: nat)

  datatype ProcStatus = Created | Up | Restarting | Exited | Dead

  /** `boot` counts the processes this container has had; nothing the tool reads shows it. */
  datatype Proc = Proc(running: bool, pid: nat, status: ProcStatus, exitCode: int, finished: bool, boot: nat)

  datatype Container = Container(proc: Proc, policy: Policy, drainLabel: bool, app: M.State)

  datatype Phase =
    | Prepared | Draining | Drained | RestartDisable
    | TermRequested | ExitVerified | Replaced | Aborted

  datatype Receipt = Receipt(
    phase: Phase, container: Id, owner: nat, generation: Option<nat>,
    policy: Policy, drainTimeout: nat, exit: Option<Proc>, replacement: Option<Id>)

  /** What the world owes a receipt: the process its owner last paused, and whether the last
      answer read from that coordinator said `drained`. Ghost knowledge, never read by the tool. */
  datatype Watch = Watch(boot: nat, drained: bool)

  /** The run that holds the deployment lock: its receipt, the generation with which the captured
      application took its drain request, and whether it has issued `up`. */
  datatype Turn = Turn(path: Path, told: Option<nat>, recreated: bool)

  datatype World = World(
    containers: map<Id, Container>, service: Option<Id>,
    receipts: map<Path, Receipt>, watch: map<Path, Watch>, turn: Option<Turn>,
    nextOwner: nat, nextGeneration: nat)

  /** The process is gone for the kernel: not running and no pid, so not a zombie either. */
  predicate Gone(p: Proc) {
    !p.running && p.pid == 0
  }

  /** The evidence the tool demands of `docker inspect` after `docker wait`. */
  predicate CleanExit(p: Proc, waited: int) {
    Gone(p) && p.status == Exited && p.exitCode == waited && p.finished
  }

  predicate Retired(c: Container) {
    Gone(c.proc) && c.policy == No
  }

  predicate BeforeTerm(phase: Phase) {
    phase in {Prepared, Draining, Drained, RestartDisable}
  }

  predicate TermRecorded(phase: Phase) {
    phase in {TermRequested, ExitVerified, Replaced}
  }

  // ---------- the environment ----------

  /** Moves nobody in this protocol controls: the process of a container advances or dies, the
      daemon restarts it under its policy, and other clients use the application. Other clients
      hold no owner token of a receipt, so they can start and end drains of their own only. */
  datatype Move =
    | Proceed(id: Id, proc: Proc)
    | Restart(id: Id, pid: nat)
    | Serve(id: Id, op: M.Op)

  predicate Foreign(w: World, op: M.Op) {
    match op
    case Start(owner, generation) =>
      generation == w.nextGeneration && forall p :: p in w.receipts ==> owner != Some(w.receipts[p].owner)
    case Abort(owner, _) =>
      forall p :: p in w.receipts ==> owner != Some(w.receipts[p].owner)
    case _ => true
  }

  /** Whether Docker gives an exited container a new process; a limit on retries may stop it earlier. */
  predicate Restarts(c: Container) {
    match c.policy
    case No => false
    case Always => true
    case UnlessStopped => true
    case OnFailure(_) => c.proc.exitCode != 0
  }

  /** Whether the container can still get a new process without anybody's command. */
  predicate Revives(c: Container) {
    if Gone(c.proc) then Restarts(c) else c.policy != No
  }

  predicate Enabled(w: World, m: Move) {
    && m.id in w.containers
    && var c := w.containers[m.id];
    match m
    case Proceed(_, proc) =>
      !Gone(c.proc) && proc.boot == c.proc.boot && (proc.running ==> c.proc.running)
    case Restart(_, _) =>
      !c.proc.running && Restarts(c)
    case Serve(_, op) =>
      !Gone(c.proc) && Foreign(w, op)
  }

  function Advance(c: Container, m: Move): Container {
    match m
    case Proceed(_, proc) => c.(proc := proc)
    case Restart(_, pid) => c.(proc := Proc(true, pid, Up, 0, false, c.proc.boot + 1), app := M.INITIAL)
    case Serve(_, op) => c.(app := M.Apply(c.app, op))
  }

  /** A move that is not enabled does not happen. */
  function Nature(w: World, m: Move): World {
    if !Enabled(w, m) then w
    else w.(containers := w.containers[m.id := Advance(w.containers[m.id], m)],
            nextGeneration := w.nextGeneration + (if m.Serve? && m.op.Start? then 1 else 0))
  }

  function Play(w: World, moves: seq<Move>): World {
    if moves == [] then w else Nature(Play(w, moves[..|moves| - 1]), moves[|moves| - 1])
  }

  // ---------- the tool's commands ----------

  /** `Begin` takes the deployment lock and `Stop` gives it back, also when a run crashes. */
  datatype Event =
    | Env(move: Move)
    | Begin(path: Path)
    | Stop
    | Save(path: Path, receipt: Receipt)
    | SetPolicy(path: Path, policy: Policy)
    | Term(path: Path)
    | Drain(path: Path)
    | EndDrain(path: Path, expected: nat)
    | Answer(path: Path, status: M.Status)
    | Recreate(path: Path, made: Option<(Id, Container)>)

  function Captured(w: World, p: Path): Container
    requires p in w.receipts && w.receipts[p].container in w.containers
  {
    w.containers[w.receipts[p].container]
  }

  predicate Identified(w: World, p: Path) {
    && p in w.receipts && w.receipts[p].container in w.containers
    && w.service == Some(w.receipts[p].container)
  }

  /** A run on this receipt holds the lock. */
  predicate Turns(w: World, p: Path) {
    w.turn.Some? && w.turn.value.path == p
  }

  /** In this very run the captured application took the drain request under this generation. */
  predicate Told(w: World, p: Path, generation: Option<nat>) {
    Turns(w, p) && generation.Some? && w.turn.value.told == generation
  }

  /** The same before the generation is durable. */
  predicate Asked(w: World, p: Path) {
    && Turns(w, p) && w.turn.value.told.Some?
    && p in w.receipts && (w.receipts[p].generation.Some? ==> w.turn.value.told == w.receipts[p].generation)
  }

  /** A generation the random source has handed out. */
  predicate Known(w: World, generation: Option<nat>) {
    generation.Some? ==> generation.value < w.nextGeneration
  }

  predicate SameIdentity(a: Receipt, b: Receipt) {
    && a.container == b.container && a.owner == b.owner && a.policy == b.policy
    && (a.generation.Some? ==> b.generation == a.generation)
  }

  /** A new receipt names the service's container as it was inspected, and a new owner. */
  predicate MayCreate(w: World, r: Receipt) {
    && r.phase == Prepared && r.generation == None && r.exit == None && r.replacement == None
    && r.container in w.containers && w.service == Some(r.container) && r.owner == w.nextOwner
    && w.containers[r.container].drainLabel && r.policy == w.containers[r.container].policy
  }

  /** The phases a run may write over the durable ones, and the evidence each needs. */
  predicate MayAdvance(w: World, p: Path, r: Receipt)
    requires p in w.receipts && r.container in w.containers
  {
    var o, c := w.receipts[p], w.containers[r.container];
    match r.phase
    case Prepared => false
    case Draining => BeforeTerm(o.phase) && Told(w, p, r.generation)
    case Drained => o.phase == Draining && Told(w, p, r.generation) && p in w.watch && w.watch[p].drained
    case RestartDisable => o.phase == Drained && Told(w, p, r.generation) && p in w.watch && w.watch[p].drained
    case TermRequested =>
      o.phase == RestartDisable && Told(w, p, r.generation) && c.policy == No && Identified(w, p) && p in w.watch && w.watch[p].drained
    case ExitVerified =>
      && o.phase in {TermRequested, ExitVerified} && c.policy == No && Identified(w, p)
      && r.exit == Some(c.proc) && CleanExit(c.proc, c.proc.exitCode)
    case Replaced =>
      && o.phase == ExitVerified && Turns(w, p) && w.turn.value.recreated
      && r.replacement.Some? && w.service == r.replacement && r.replacement.value != r.container && r.exit == o.exit
    case Aborted =>
      BeforeTerm(o.phase) && Told(w, p, r.generation) && p !in w.watch && c.policy == r.policy
  }

  predicate MaySave(w: World, p: Path, r: Receipt) {
    && Turns(w, p)
    && if p !in w.receipts then MayCreate(w, r)
       else SameIdentity(w.receipts[p], r) && Known(w, r.generation) && r.container in w.containers && MayAdvance(w, p, r)
  }

  /** Restart is switched off on the way to TERM, and restored only by an abort before TERM. */
  predicate MaySetPolicy(w: World, p: Path, policy: Policy)
    requires Identified(w, p)
  {
    var r := w.receipts[p];
    || (policy == No && r.phase == RestartDisable && Told(w, p, r.generation))
    || (BeforeTerm(r.phase) && policy == r.policy && Asked(w, p) &&
        forall q :: q in w.receipts && w.receipts[q].container == r.container ==> w.receipts[q].phase != ExitVerified)
  }

  predicate Allowed(w: World, e: Event) {
    match e
    case Env(_) => true
    case Begin(_) => w.turn.None?
    case Stop => w.turn.Some?
    case Save(p, r) => MaySave(w, p, r)
    case SetPolicy(p, policy) => Identified(w, p) && MaySetPolicy(w, p, policy)
    case Term(p) =>
      Turns(w, p) && Identified(w, p) && w.receipts[p].phase in {TermRequested, ExitVerified} && Captured(w, p).policy == No
    case Drain(p) =>
      Turns(w, p) && Identified(w, p) && BeforeTerm(w.receipts[p].phase) && Captured(w, p).drainLabel
    case EndDrain(p, expected) =>
      && Asked(w, p) && w.turn.value.told == Some(expected)
      && Identified(w, p) && BeforeTerm(w.receipts[p].phase) && Captured(w, p).drainLabel
      && Captured(w, p).policy == w.receipts[p].policy
    case Answer(p, status) =>
      && Turns(w, p) && Identified(w, p) && Captured(w, p).proc.running && Captured(w, p).drainLabel
      && BeforeTerm(w.receipts[p].phase) && p in w.watch
      && status == M.Observe(Captured(w, p).app)
    case Recreate(p, made) =>
      && Turns(w, p) && Identified(w, p) && w.receipts[p].phase == ExitVerified && Retired(Captured(w, p))
      && (made.Some? ==> made.value.0 !in w.containers && made.value.1.app == M.INITIAL)
  }

  /** Whether the captured application takes the drain request of this receipt's owner. */
  predicate Accepts(w: World, p: Path)
    requires Identified(w, p)
  {
    var c := Captured(w, p);
    c.proc.running && !c.app.terminal && (c.app.paused ==> c.app.owner == w.receipts[p].owner)
  }

  /** Whether it takes the abort request. */
  predicate Ends(w: World, p: Path, generation: nat)
    requires Identified(w, p)
  {
    var c := Captured(w, p);
    c.proc.running && M.Matches(c.app, M.Abort(Some(w.receipts[p].owner), generation))
  }

  function Paused(c: Container, owner: nat, generation: nat): Container {
    c.(app := M.Apply(c.app, M.Start(Some(owner), generation)))
  }

  /** `exec` reaches the application only while the container's process runs. */
  function Effect(w: World, e: Event): World
    requires Allowed(w, e)
  {
    match e
    case Env(m) => Nature(w, m)
    case Begin(p) => w.(turn := Some(Turn(p, None, false)))
    case Stop => w.(turn := None)
    case Save(p, r) =>
      w.(receipts := w.receipts[p := r],
         nextOwner := if p in w.receipts then w.nextOwner else w.nextOwner + 1)
    case SetPolicy(p, policy) =>
      w.(containers := w.containers[w.receipts[p].container := Captured(w, p).(policy := policy)])
    case Term(_) => w
    case Drain(p) =>
      if !Accepts(w, p) then w
      else
        var c := Paused(Captured(w, p), w.receipts[p].owner, w.nextGeneration);
        w.(containers := w.containers[w.receipts[p].container := c],
           watch := w.watch[p := Watch(c.proc.boot, false)],
           turn := Some(w.turn.value.(told := Some(c.app.generation))),
           nextGeneration := w.nextGeneration + 1)
    case EndDrain(p, expected) =>
      if !Ends(w, p, expected) then w
      else
        var c := Captured(w, p);
        w.(containers := w.containers[w.receipts[p].container := c.(app := c.app.(paused := false))],
           watch := w.watch - {p})
    case Answer(p, status) =>
      w.(watch := w.watch[p := w.watch[p].(drained := status.phase == M.Drained)])
    case Recreate(_, made) =>
      var v := w.(turn := Some(w.turn.value.(recreated := true)));
      match made
      case None => v.(service := None)
      case Some((id, c)) => v.(service := Some(id), containers := v.containers[id := c])
  }

  // ---------- invariants ----------

  predicate ServiceInv(w: World) {
    && (w.service.Some? ==> w.service.value in w.containers)
    && forall id :: id in w.containers && w.service != Some(id) ==> Retired(w.containers[id])
  }

  /** The exit recorded in the receipt is still the state of the captured container. */
  predicate Proven(w: World, p: Path)
    requires p in w.receipts && w.receipts[p].container in w.containers
  {
    && Retired(Captured(w, p))
    && w.receipts[p].exit == Some(Captured(w, p).proc)
    && CleanExit(Captured(w, p).proc, Captured(w, p).proc.exitCode)
  }

  predicate ReceiptInv(w: World) {
    && (forall p :: p in w.receipts ==> w.receipts[p].container in w.containers && w.receipts[p].owner < w.nextOwner)
    && (forall p :: p in w.receipts && w.receipts[p].phase in {ExitVerified, Replaced} ==> Proven(w, p))
    && (forall p :: p in w.receipts && w.receipts[p].phase == Replaced ==> w.service != Some(w.receipts[p].container))
    && (forall p, q :: p in w.receipts && q in w.receipts && w.receipts[p].owner == w.receipts[q].owner ==> p == q)
  }

  /** As long as the process paused for a receipt is still the one in the container, its
      coordinator is held by that receipt's owner, and workless once seen drained. */
  predicate Held(w: World, p: Path)
    requires p in w.receipts && w.receipts[p].container in w.containers && p in w.watch
  {
    var c := Captured(w, p);
    && w.watch[p].boot <= c.proc.boot
    && (w.watch[p].boot == c.proc.boot ==>
      && c.app.paused && c.app.owner == w.receipts[p].owner
      && (w.watch[p].drained ==> c.app.active == map[]))
  }

  predicate WatchInv(w: World)
    requires ReceiptInv(w)
  {
    && (forall p :: p in w.watch ==> p in w.receipts && Held(w, p))
    && (forall p :: p in w.receipts && TermRecorded(w.receipts[p].phase) ==> p in w.watch && w.watch[p].drained)
  }

  /** No generation is ever handed out twice: those in use were handed out before. */
  predicate GenerationInv(w: World) {
    && w.nextGeneration > 0
    && (forall id :: id in w.containers ==> w.containers[id].app.generation < w.nextGeneration)
    && (forall p :: p in w.receipts ==> Known(w, w.receipts[p].generation))
    && (w.turn.Some? ==> Known(w, w.turn.value.told) && (w.turn.value.told.Some? ==> w.turn.value.path in w.receipts))
  }

  /** Every captured container has the capability, and exactly from `draining` on a drain is on record. */
  predicate RecordInv(w: World) {
    forall p :: p in w.receipts && w.receipts[p].container in w.containers ==>
      Captured(w, p).drainLabel && (w.receipts[p].phase != Prepared <==> w.receipts[p].generation.Some?)
  }

  predicate Inv(w: World) {
    Core(w) && GenerationInv(w) && RecordInv(w)
  }

  predicate Core(w: World) {
    ServiceInv(w) && ReceiptInv(w) && WatchInv(w)
  }

  /** Where a history starts: a service with at most one container that can live. */
  predicate Fresh(w: World) {
    ServiceInv(w) && GenerationInv(w) && w.receipts == map[] && w.watch == map[] && w.turn == None
  }

  predicate Live(w: World, id: Id) {
    id in w.containers && !Gone(w.containers[id].proc)
  }

  /** At most one container of the service can be alive. */
  ghost predicate NeverTwoLive(w: World) {
    forall a, b :: Live(w, a) && Live(w, b) ==> a == b
  }

  // ---------- what a step keeps ----------

  /** Steps that leave the dead as they are, and the service and the receipts alone. */
  ghost predicate SparesTheDead(w: World, v: World) {
    && v.service == w.service && v.receipts == w.receipts && v.nextOwner == w.nextOwner
    && v.containers.Keys == w.containers.Keys
    && forall id :: id in w.containers && Retired(w.containers[id]) ==>
         v.containers[id].proc == w.containers[id].proc && v.containers[id].policy == w.containers[id].policy
  }

  lemma DeadStayProven(w: World, v: World)
    requires ServiceInv(w) && ReceiptInv(w) && SparesTheDead(w, v)
    ensures ServiceInv(v) && ReceiptInv(v)
  {
  }

  lemma NatureSparesTheDead(w: World, m: Move)
    ensures SparesTheDead(w, Nature(w, m)) && Nature(w, m).watch == w.watch && Nature(w, m).turn == w.turn
  {
  }

  lemma NatureHeld(w: World, m: Move, q: Path)
    requires Core(w) && q in w.watch
    ensures var v := Nature(w, m);
      q in v.receipts && v.receipts[q].container in v.containers && q in v.watch && Held(v, q)
  {
    hide ServiceInv, Proven;
    assert Held(w, q);
  }

  lemma NatureKeepsCore(w: World, m: Move)
    requires Core(w)
    ensures Core(Nature(w, m))
  {
    hide ServiceInv, Nature, Held, Proven;
    NatureSparesTheDead(w, m);
    DeadStayProven(w, Nature(w, m));
    forall q | q in w.watch ensures q in w.receipts && Held(Nature(w, m), q) {
      NatureHeld(w, m, q);
    }
  }

  lemma SaveKeepsReceipts(w: World, p: Path, r: Receipt)
    requires Core(w) && Allowed(w, Save(p, r))
    ensures ServiceInv(Effect(w, Save(p, r))) && ReceiptInv(Effect(w, Save(p, r)))
  {
    hide WatchInv, Told, Known;
    var after := Effect(w, Save(p, r));
    forall q | q in after.receipts
      ensures after.receipts[q].container in after.containers && after.receipts[q].owner < after.nextOwner
      ensures after.receipts[q].phase in {ExitVerified, Replaced} ==> Proven(after, q)
      ensures after.receipts[q].phase == Replaced ==> after.service != Some(after.receipts[q].container)
    {
      assert q != p ==> after.receipts[q] == w.receipts[q];
    }
  }

  lemma SaveHeld(w: World, p: Path, r: Receipt, q: Path)
    requires Core(w) && Allowed(w, Save(p, r)) && q in w.watch
    ensures var v := Effect(w, Save(p, r));
      q in v.receipts && v.receipts[q].container in v.containers && q in v.watch && Held(v, q)
  {
    hide ServiceInv, Proven, MayAdvance, MayCreate, Turns;
    assert Held(w, q);
  }

  /** TERM is recorded only by receipts that were seen drained. */
  lemma SaveWatched(w: World, p: Path, r: Receipt, q: Path)
    requires Core(w) && Allowed(w, Save(p, r)) && (q == p || q in w.receipts)
    requires TermRecorded(Effect(w, Save(p, r)).receipts[q].phase)
    ensures q in w.watch && w.watch[q].drained
  {
    hide ServiceInv, Proven, Held, Told, Identified;
  }

  lemma SaveKeepsWatch(w: World, p: Path, r: Receipt)
    requires Core(w) && Allowed(w, Save(p, r)) && ReceiptInv(Effect(w, Save(p, r)))
    ensures WatchInv(Effect(w, Save(p, r)))
  {
    hide ServiceInv, Proven, Held, MayAdvance, MayCreate, ReceiptInv, TermRecorded;
    var after := Effect(w, Save(p, r));
    forall q | q in after.watch ensures q in after.receipts && after.receipts[q].container in after.containers && Held(after, q) {
      SaveHeld(w, p, r, q);
    }
    forall q | q in after.receipts && TermRecorded(after.receipts[q].phase) ensures q in after.watch && after.watch[q].drained {
      SaveWatched(w, p, r, q);
    }
  }

  lemma PolicyKeepsReceipts(w: World, p: Path, policy: Policy)
    requires Core(w) && Allowed(w, SetPolicy(p, policy))
    ensures ServiceInv(Effect(w, SetPolicy(p, policy))) && ReceiptInv(Effect(w, SetPolicy(p, policy)))
  {
    hide WatchInv, Told, Asked;
  }

  /** No watched process is touched by a policy. */
  lemma PolicyKeepsWatch(w: World, p: Path, policy: Policy)
    requires Core(w) && Allowed(w, SetPolicy(p, policy)) && ReceiptInv(Effect(w, SetPolicy(p, policy)))
    ensures WatchInv(Effect(w, SetPolicy(p, policy)))
  {
    hide ServiceInv, Proven, Told, Asked, MaySetPolicy;
    var after := Effect(w, SetPolicy(p, policy));
    forall q | q in after.watch ensures q in after.receipts && Held(after, q) {
      assert q in w.receipts && Held(w, q);
    }
  }

  lemma DrainSparesTheDead(w: World, p: Path)
    requires Allowed(w, Drain(p))
    ensures SparesTheDead(w, Effect(w, Drain(p)))
  {
  }

  lemma DrainHeld(w: World, p: Path, q: Path)
    requires Core(w) && Allowed(w, Drain(p)) && q in Effect(w, Drain(p)).watch
    ensures var v := Effect(w, Drain(p));
      q in v.receipts && v.receipts[q].container in v.containers && Held(v, q)
  {
    hide ServiceInv, Proven;
    if q in w.watch {
      assert Held(w, q);
    }
  }

  lemma DrainKeepsCore(w: World, p: Path)
    requires Core(w) && Allowed(w, Drain(p))
    ensures Core(Effect(w, Drain(p)))
  {
    hide ServiceInv, Held, Proven;
    var after := Effect(w, Drain(p));
    DrainSparesTheDead(w, p);
    DeadStayProven(w, after);
    forall q | q in after.watch ensures q in after.receipts && Held(after, q) {
      DrainHeld(w, p, q);
    }
  }

  lemma EndDrainSparesTheDead(w: World, p: Path, expected: nat)
    requires Allowed(w, EndDrain(p, expected))
    ensures SparesTheDead(w, Effect(w, EndDrain(p, expected)))
  {
    hide Asked;
  }

  /** An abort by one owner does not end what another owner holds. */
  lemma EndDrainLeavesOthers(w: World, p: Path, expected: nat, q: Path)
    requires Core(w) && Allowed(w, EndDrain(p, expected)) && q in w.watch && q != p
    ensures var after := Effect(w, EndDrain(p, expected));
      q in after.receipts && after.receipts[q].container in after.containers && q in after.watch && Held(after, q)
  {
    hide ServiceInv, Proven, Asked;
    assert Held(w, q) && w.receipts[q].owner != w.receipts[p].owner;
  }

  lemma EndDrainKeepsCore(w: World, p: Path, expected: nat)
    requires Core(w) && Allowed(w, EndDrain(p, expected))
    ensures Core(Effect(w, EndDrain(p, expected)))
  {
    hide ServiceInv, Proven, Held, Asked;
    var after := Effect(w, EndDrain(p, expected));
    EndDrainSparesTheDead(w, p, expected);
    DeadStayProven(w, after);
    forall q | q in after.watch ensures q in after.receipts && Held(after, q) {
      if Ends(w, p, expected) {
        EndDrainLeavesOthers(w, p, expected, q);
      }
    }
  }

  lemma AnswerHeld(w: World, p: Path, status: M.Status, q: Path)
    requires Core(w) && Allowed(w, Answer(p, status)) && q in w.watch
    ensures var v := Effect(w, Answer(p, status));
      q in v.receipts && v.receipts[q].container in v.containers && q in v.watch && Held(v, q)
  {
    hide ServiceInv, Proven;
    assert Held(w, q);
  }

  lemma AnswerKeepsTerm(w: World, p: Path, status: M.Status, q: Path)
    requires Core(w) && Allowed(w, Answer(p, status)) && q in w.receipts && TermRecorded(w.receipts[q].phase)
    ensures var v := Effect(w, Answer(p, status)); q in v.watch && v.watch[q].drained
  {
    hide ServiceInv, Proven, Held, ReceiptInv;
  }

  lemma AnswerChangesWatch(w: World, p: Path, status: M.Status)
    requires Allowed(w, Answer(p, status))
    ensures var v := Effect(w, Answer(p, status)); v == w.(watch := v.watch) && v.watch.Keys == w.watch.Keys
  {
  }

  lemma AnswerKeepsCore(w: World, p: Path, status: M.Status)
    requires Core(w) && Allowed(w, Answer(p, status))
    ensures Core(Effect(w, Answer(p, status)))
  {
    hide ServiceInv, Proven, Held, Allowed, Effect, TermRecorded, ReceiptInv;
    var after := Effect(w, Answer(p, status));
    AnswerChangesWatch(w, p, status);
    SparedAsIs(w, after);
    DeadStayProven(w, after);
    forall q | q in after.watch ensures q in after.receipts && after.receipts[q].container in after.containers && Held(after, q) {
      AnswerHeld(w, p, status, q);
    }
    forall q | q in after.receipts && TermRecorded(after.receipts[q].phase) ensures q in after.watch && after.watch[q].drained {
      AnswerKeepsTerm(w, p, status, q);
    }
  }

  lemma SparedAsIs(w: World, v: World)
    requires v == w.(watch := v.watch, turn := v.turn)
    ensures SparesTheDead(w, v)
  {
  }

  lemma RecreateKeepsReceipts(w: World, p: Path, made: Option<(Id, Container)>)
    requires Core(w) && Allowed(w, Recreate(p, made))
    ensures ServiceInv(Effect(w, Recreate(p, made))) && ReceiptInv(Effect(w, Recreate(p, made)))
  {
    hide WatchInv;
  }

  /** The new container is not the one any drain is held in. */
  lemma RecreateHeld(w: World, p: Path, made: Option<(Id, Container)>, q: Path)
    requires Core(w) && Allowed(w, Recreate(p, made)) && q in w.watch
    ensures var v := Effect(w, Recreate(p, made));
      q in v.receipts && v.receipts[q].container in v.containers && q in v.watch && Held(v, q)
  {
    hide ServiceInv, Proven;
    assert Held(w, q);
  }

  lemma RecreateKeepsWatch(w: World, p: Path, made: Option<(Id, Container)>)
    requires Core(w) && Allowed(w, Recreate(p, made)) && ReceiptInv(Effect(w, Recreate(p, made)))
    ensures WatchInv(Effect(w, Recreate(p, made)))
  {
    hide ServiceInv, Proven, Held;
    var after := Effect(w, Recreate(p, made));
    forall q | q in after.watch ensures q in after.receipts && Held(after, q) {
      RecreateHeld(w, p, made, q);
    }
  }

  lemma LockKeepsCore(w: World, e: Event)
    requires Core(w) && Allowed(w, e) && (e.Begin? || e.Stop?)
    ensures Core(Effect(w, e))
  {
    hide ServiceInv, Proven;
    SparedAsIs(w, Effect(w, e));
    DeadStayProven(w, Effect(w, e));
    forall q | q in w.watch ensures Held(Effect(w, e), q) {
      assert Held(w, q);
    }
  }

  lemma NatureKeepsGenerations(w: World, m: Move)
    requires GenerationInv(w)
    ensures GenerationInv(Nature(w, m)) && Nature(w, m).nextGeneration >= w.nextGeneration
  {
  }

  lemma StepKeepsGenerations(w: World, e: Event)
    requires GenerationInv(w) && Allowed(w, e)
    ensures GenerationInv(Effect(w, e)) && Effect(w, e).nextGeneration >= w.nextGeneration
  {
    hide Foreign, MayAdvance, MaySetPolicy;
    if e.Env? {
      NatureKeepsGenerations(w, e.move);
    }
  }

  /** No step touches a label. */
  lemma LabelsStay(w: World, e: Event, id: Id)
    requires Allowed(w, e) && id in w.containers
    ensures id in Effect(w, e).containers && Effect(w, e).containers[id].drainLabel == w.containers[id].drainLabel
  {
    hide MaySave, MaySetPolicy, Asked;
  }

  lemma SaveKeepsRecords(w: World, p: Path, r: Receipt)
    requires RecordInv(w) && Allowed(w, Save(p, r))
    ensures RecordInv(Effect(w, Save(p, r)))
  {
    hide Identified, Known;
    var after := Effect(w, Save(p, r));
    forall q | q in after.receipts && after.receipts[q].container in after.containers
      ensures Captured(after, q).drainLabel && (after.receipts[q].phase != Prepared <==> after.receipts[q].generation.Some?)
    {
      assert q != p ==> after.receipts[q] == w.receipts[q];
    }
  }

  lemma ReceiptsStay(w: World, e: Event)
    requires Allowed(w, e) && !e.Save?
    ensures Effect(w, e).receipts == w.receipts
  {
    hide MaySetPolicy, Asked, Enabled, Accepts, Ends;
  }

  lemma StepKeepsRecords(w: World, e: Event)
    requires ReceiptInv(w) && RecordInv(w) && Allowed(w, e)
    ensures RecordInv(Effect(w, e))
  {
    hide Proven, Allowed, Effect;
    if e.Save? {
      SaveKeepsRecords(w, e.path, e.receipt);
    } else {
      var after := Effect(w, e);
      ReceiptsStay(w, e);
      forall q | q in w.receipts
        ensures w.receipts[q].container in after.containers && Captured(after, q).drainLabel
      {
        LabelsStay(w, e, w.receipts[q].container);
      }
    }
  }

  lemma NatureKeepsInv(w: World, m: Move)
    requires Inv(w)
    ensures Inv(Nature(w, m))
  {
    StepKeepsRecords(w, Env(m));
    hide Core, GenerationInv, RecordInv, Nature;
    NatureKeepsCore(w, m);
    NatureKeepsGenerations(w, m);
  }

  lemma StepKeepsCore(w: World, e: Event)
    requires Core(w) && Allowed(w, e)
    ensures Core(Effect(w, e))
  {
    hide ServiceInv, ReceiptInv, WatchInv;
    match e {
      case Env(m) => NatureKeepsCore(w, m);
      case Begin(_) => LockKeepsCore(w, e);
      case Stop => LockKeepsCore(w, e);
      case Save(p, r) =>
        SaveKeepsReceipts(w, p, r);
        SaveKeepsWatch(w, p, r);
      case SetPolicy(p, policy) =>
        PolicyKeepsReceipts(w, p, policy);
        PolicyKeepsWatch(w, p, policy);
      case Term(_) =>
      case Drain(p) => DrainKeepsCore(w, p);
      case EndDrain(p, expected) => EndDrainKeepsCore(w, p, expected);
      case Answer(p, status) => AnswerKeepsCore(w, p, status);
      case Recreate(p, made) =>
        RecreateKeepsReceipts(w, p, made);
        RecreateKeepsWatch(w, p, made);
    }
  }

  lemma ServiceIsAlone(w: World)
    requires ServiceInv(w)
    ensures NeverTwoLive(w)
  {
  }

  /** The discipline keeps the invariant, whatever the environment does in between. */
  lemma StepKeepsInv(w: World, e: Event)
    requires Inv(w) && Allowed(w, e)
    ensures Inv(Effect(w, e)) && NeverTwoLive(Effect(w, e))
    ensures Effect(w, e).nextGeneration >= w.nextGeneration
  {
    hide GenerationInv, RecordInv, Effect, Allowed, ServiceInv, ReceiptInv, WatchInv, NeverTwoLive;
    StepKeepsCore(w, e);
    StepKeepsGenerations(w, e);
    StepKeepsRecords(w, e);
    ServiceIsAlone(Effect(w, e));
  }
}
