/** What the copy loop of `tools/nfs-qual/main_linux.go` shares with its committer, the signal
    handler and the kernel, and how the other threads may move it. */
module CopyMachine {
  import opened Base
  import opened ErrorTree

  type Byte = bv8

  datatype Policy = Whole | Periodic | Concurrent | Range

  /** Calls on the target and the descriptors, in the order they happen. */
  datatype Call =
    | Wrote(len: nat)
    | Window(from: nat, len: nat)
    | RangeWrite(from: nat, len: nat)
    | RangeWait(from: nat, len: nat)
    | DataSyncBegin
    | DataSyncEnd
    | FullSync
    | CloseTarget
    | CloseSource

  /** The goroutine of the `concurrent` policy: `Holding` between its check and the call,
      `Failing` between a failed call and its cancel. */
  datatype Committer = Absent | Idle | Holding | Syncing | Failing | Finished

  datatype Shared = Shared(
    target: seq<Byte>, digest: seq<Byte>,
    cancelled: bool, workCancelled: bool,
    queued: bool, channelClosed: bool, committer: Committer, commitFault: Option<int>,
    sourceOpened: nat, sourceClosed: nat, targetOpened: nat, targetClosed: nat,
    faults: set<int>, log: seq<Call>)

  const START := Shared([], [], false, false, false, false, Absent, None, 0, 0, 0, 0, {}, [])

  /** Steps of the other threads. */
  datatype Move = Signal | Take | Begin | End(fault: Option<int>) | Cancel | Quit

  function Nudge(s: Shared, m: Move): Shared {
    match m
    case Signal =>
      s.(cancelled := true, workCancelled := true)
    case Take =>
      if s.committer == Idle && s.queued then
        if s.commitFault.Some? || s.workCancelled then s.(queued := false)
        else s.(queued := false, committer := Holding)
      else s
    case Begin =>
      if s.committer == Holding then s.(committer := Syncing, log := s.log + [DataSyncBegin]) else s
    case End(fault) =>
      if s.committer != Syncing then s
      else s.(committer := if fault.Some? then Failing else Idle, commitFault := fault, log := s.log + [DataSyncEnd])
    case Cancel =>
      if s.committer == Failing then s.(committer := Idle, workCancelled := true) else s
    case Quit =>
      if s.committer == Idle && s.channelClosed && !s.queued then s.(committer := Finished) else s
  }

  predicate DataSync(c: Call) {
    c == DataSyncBegin || c == DataSyncEnd
  }

  /** What the other threads leave alone while the copier does nothing. */
  ghost predicate Beside(s: Shared, t: Shared) {
    && t.target == s.target && t.digest == s.digest && t.channelClosed == s.channelClosed
    && t.sourceOpened == s.sourceOpened && t.sourceClosed == s.sourceClosed
    && t.targetOpened == s.targetOpened && t.targetClosed == s.targetClosed && t.faults == s.faults
    && (s.cancelled ==> t.cancelled) && (s.workCancelled ==> t.workCancelled)
    && s.log <= t.log && (forall i :: |s.log| <= i < |t.log| ==> DataSync(t.log[i]))
    && (s.committer == Absent <==> t.committer == Absent)
    && (s.committer in {Absent, Finished} ==>
          t.log == s.log && t.committer == s.committer && t.commitFault == s.commitFault)
  }

  lemma NudgeIsBeside(s: Shared, m: Move)
    ensures Beside(s, Nudge(s, m))
  {
  }

  predicate Running(c: Committer) {
    c in {Idle, Holding, Syncing, Failing}
  }

  predicate Inv(s: Shared) {
    && (s.cancelled ==> s.workCancelled)
    && (s.workCancelled && s.commitFault == None ==> s.cancelled)
    && (s.committer == Absent ==> s.commitFault == None)
    && (s.committer in {Holding, Syncing} ==> s.commitFault == None)
    && (s.committer == Failing ==> s.commitFault.Some?)
    && (s.committer in {Idle, Finished} && s.commitFault.Some? ==> s.workCancelled)
    && (s.committer == Finished ==> s.channelClosed)
    && (Running(s.committer) ==> s.targetClosed == 0 && s.targetOpened == 1)
  }

  lemma NudgeKeepsInv(s: Shared, m: Move)
    requires Inv(s)
    ensures Inv(Nudge(s, m))
  {
  }

  /** Every failure any thread met so far. */
  function Failures(s: Shared): set<int> {
    s.faults + (if s.commitFault.Some? then {s.commitFault.value} else {})
  }

  function FailuresOf(err: Option<Err>): set<int> {
    Codes(LeavesOf(err))
  }

  function Codes(leaves: set<Leaf>): set<int> {
    set l | l in leaves && l.Failure? :: l.code
  }

  lemma CodesOfUnion(a: set<Leaf>, b: set<Leaf>)
    ensures Codes(a + b) == Codes(a) + Codes(b)
  {
    forall c | c in Codes(a) + Codes(b) ensures c in Codes(a + b) {
      assert Failure(c) in a + b;
    }
  }

  predicate Sound(err: Option<Err>) {
    Hollow !in LeavesOf(err)
  }

  predicate Tail(c: Call) {
    c.FullSync? || c.CloseTarget? || c.CloseSource?
  }

  /** Calls of the copy proper: no final sync and no close among them. */
  predicate Body(log: seq<Call>) {
    forall i :: 0 <= i < |log| ==> !Tail(log[i])
  }

  // ---------- writeback windows ----------

  function Windows(log: seq<Call>): seq<(nat, nat)> {
    if log == [] then []
    else
      var c := log[|log| - 1];
      Windows(log[..|log| - 1]) + (if c.Window? then [(c.from, c.len)] else [])
  }

  function RangeWrites(log: seq<Call>): seq<(nat, nat)> {
    if log == [] then []
    else
      var c := log[|log| - 1];
      RangeWrites(log[..|log| - 1]) + (if c.RangeWrite? then [(c.from, c.len)] else [])
  }

  function RangeWaits(log: seq<Call>): seq<(nat, nat)> {
    if log == [] then []
    else
      var c := log[|log| - 1];
      RangeWaits(log[..|log| - 1]) + (if c.RangeWait? then [(c.from, c.len)] else [])
  }

  /** Data syncs of the committer are no windows. */
  lemma {:induction false} BesideKeepsWindows(s: Shared, t: Shared)
    requires Beside(s, t)
    ensures Windows(t.log) == Windows(s.log) && RangeWrites(t.log) == RangeWrites(s.log)
    ensures RangeWaits(t.log) == RangeWaits(s.log) && (Body(s.log) ==> Body(t.log))
  {
    SyncsAreNoWindows(s.log, t.log);
    if Body(s.log) {
      forall i | 0 <= i < |t.log| ensures !Tail(t.log[i]) {
        assert i < |s.log| ==> t.log[i] == s.log[i];
      }
    }
  }

  lemma {:induction false} SyncsAreNoWindows(log: seq<Call>, more: seq<Call>)
    requires log <= more && forall i :: |log| <= i < |more| ==> DataSync(more[i])
    ensures Windows(more) == Windows(log) && RangeWrites(more) == RangeWrites(log) && RangeWaits(more) == RangeWaits(log)
    decreases |more|
  {
    if |more| == |log| {
      assert more == log;
    } else {
      SyncsAreNoWindows(log, more[..|more| - 1]);
    }
  }

  lemma Appended(log: seq<Call>, c: Call)
    ensures Windows(log + [c]) == Windows(log) + (if c.Window? then [(c.from, c.len)] else [])
    ensures RangeWrites(log + [c]) == RangeWrites(log) + (if c.RangeWrite? then [(c.from, c.len)] else [])
    ensures RangeWaits(log + [c]) == RangeWaits(log) + (if c.RangeWait? then [(c.from, c.len)] else [])
    ensures Body(log + [c]) <==> Body(log) && !Tail(c)
  {
    assert (log + [c])[..|log|] == log;
    assert Body(log + [c]) ==> Body(log) && !Tail(c) by {
      if Body(log + [c]) {
        assert forall i :: 0 <= i < |log| ==> log[i] == (log + [c])[i];
        assert (log + [c])[|log|] == c;
      }
    }
  }

  /** Non-empty, adjacent, disjoint, and covering exactly [0, end). */
  predicate Tiles(ws: seq<(nat, nat)>, end: nat) {
    if ws == [] then end == 0
    else
      var (from, len) := ws[|ws| - 1];
      len > 0 && from + len == end && Tiles(ws[..|ws| - 1], from)
  }

  /** All windows but possibly the last one are full, and none reaches a chunk beyond. */
  predicate Full(ws: seq<(nat, nat)>, window: nat, chunk: nat) {
    forall i :: 0 <= i < |ws| - 1 ==> window <= ws[i].1 < window + chunk
  }

  /** Tiling seen from a byte: every offset below `end` lies in exactly one window. */
  lemma {:induction false} TilesPartition(ws: seq<(nat, nat)>, end: nat, x: nat)
    requires Tiles(ws, end)
    ensures x < end <==> exists i :: 0 <= i < |ws| && ws[i].0 <= x < ws[i].0 + ws[i].1
    ensures forall i, j :: 0 <= i < j < |ws| ==> ws[i].0 + ws[i].1 <= ws[j].0
    ensures forall i :: 0 <= i < |ws| ==> ws[i].0 + ws[i].1 <= end
  {
    if ws != [] {
      var front, last := ws[..|ws| - 1], ws[|ws| - 1];
      TilesPartition(front, last.0, x);
      if x < last.0 {
        var i :| 0 <= i < |front| && front[i].0 <= x < front[i].0 + front[i].1;
        assert ws[i] == front[i];
      }
      if i :| 0 <= i < |ws| && ws[i].0 <= x < ws[i].0 + ws[i].1 {
        assert i < |front| ==> front[i] == ws[i];
      }
      forall i, j | 0 <= i < j < |ws| ensures ws[i].0 + ws[i].1 <= ws[j].0 {
        assert ws[i] == front[i];
        assert j < |front| ==> ws[j] == front[j];
      }
    }
  }

  /** With k windows, the first k - 1 alone hold (k - 1) * window bytes. */
  lemma {:induction false} WindowsAreFew(ws: seq<(nat, nat)>, end: nat, window: nat, chunk: nat)
    requires Tiles(ws, end) && Full(ws, window, chunk) && ws != []
    ensures (|ws| - 1) * window <= ws[|ws| - 1].0 <= end
  {
    if |ws| > 1 {
      var front := ws[..|ws| - 1];
      var prior := front[|front| - 1];
      assert Full(front, window, chunk);
      WindowsAreFew(front, ws[|ws| - 1].0, window, chunk);
      assert prior == ws[|ws| - 2];
      assert (|ws| - 1) * window == (|ws| - 2) * window + window;
    }
  }
}
