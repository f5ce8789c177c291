/** The scratch-file copy of `tools/nfs-qual/main_linux.go`: the copy loop with its writeback
    policies, the join of the committer, the final sync and the closes, while the committer and
    a cancelling signal move between any two of its calls. */
module CopyEngine {
  import opened Base
  import opened ErrorTree
  import opened CopyMachine

  const CHUNK: nat := 0x10_0000
  const SHORT_WRITE := -1
  const INVALID_SOURCE := -2
  const NO_IDENTITY := -3

  function Done(s: Shared, c: Call): Shared {
    s.(log := s.log + [c])
  }

  function CommitError(s: Shared): Option<Err> {
    if s.commitFault.Some? then Some(Fault(s.commitFault.value)) else None
  }

  /** The copier's own error says exactly which failures the copier met. */
  ghost predicate Accounts(err: Option<Err>, s: Shared) {
    FailuresOf(err) == s.faults && Sound(err)
  }

  lemma FaultAccounts(code: int)
    ensures FailuresOf(Some(Fault(code))) == {code} && Sound(Some(Fault(code)))
  {
    assert LeavesOf(Some(Fault(code))) == {Failure(code)};
    assert Failure(code) in LeavesOf(Some(Fault(code)));
  }

  lemma CanceledAccounts()
    ensures FailuresOf(Some(Canceled)) == {} == FailuresOf(None) && Sound(Some(Canceled)) && Sound(None)
  {
    assert LeavesOf(Some(Canceled)) == {ErrorTree.Cancel};
  }

  /** `open` of the target happened, and nothing was closed yet. */
  predicate Open(s: Shared) {
    s.sourceOpened == 1 && s.sourceClosed == 0 && s.targetOpened == 1 && s.targetClosed == 0
  }

  predicate Alongside(s: Shared, policy: Policy) {
    && !s.channelClosed
    && (policy == Concurrent ==> Running(s.committer))
    && (policy != Concurrent ==> s.committer == Absent)
  }

  // ---------- progress of the writeback windows ----------

  ghost predicate AllFull(ws: seq<(nat, nat)>, window: nat) {
    forall i :: 0 <= i < |ws| ==> window <= ws[i].1 < window + CHUNK
  }

  predicate Ranged(log: seq<Call>, policy: Policy, from: nat, len: nat) {
    var ws := RangeWrites(log);
    if policy != Range then ws == [] && RangeWaits(log) == []
    else
      && ws == Windows(log)
      && (ws == [] ==> len == 0 && RangeWaits(log) == [])
      && (ws != [] ==> ws[|ws| - 1] == (from, len) && len > 0 && RangeWaits(log) == ws[..|ws| - 1])
  }

  ghost predicate Tiled(log: seq<Call>, lastWindow: nat, window: nat) {
    Tiles(Windows(log), lastWindow) && Full(Windows(log), window, CHUNK)
  }

  class Experiment {
    const source: seq<Byte>
    var s: Shared

    constructor (source: seq<Byte>)
      ensures this.source == source && s == START
    {
      this.source := source;
      s := START;
    }

    /** Any number of steps of the other threads. */
    method Others()
      requires Inv(s)
      modifies this
      ensures Inv(s) && Beside(old(s), s)
    {
      var steps: nat := *;
      while steps > 0
        invariant Inv(s) && Beside(old(s), s)
      {
        var m: Move := *;
        NudgeIsBeside(s, m);
        NudgeKeepsInv(s, m);
        s := Nudge(s, m);
        steps := steps - 1;
      }
    }

    /** A call that may fail, with an error of the kernel's choice. */
    method Perform(c: Call) returns (err: Option<Err>)
      requires Inv(s)
      modifies this
      ensures Inv(s) && After(old(s), s, c)
      ensures err.None? ==> s.faults == old(s).faults
      ensures err.Some? ==> err.value.Fault? && s.faults == old(s).faults + {err.value.code}
    {
      Others();
      BesideKeepsWindows(old(s), s);
      Appended(s.log, c);
      var failed: bool := *;
      var code: int := *;
      err := if failed then Some(Fault(code)) else None;
      s := Done(s, c).(faults := if failed then s.faults + {code} else s.faults);
    }

    /** An error the copier itself raises. */
    method Raise(code: int) returns (err: Option<Err>)
      requires Inv(s)
      modifies this
      ensures Inv(s) && s == old(s).(faults := old(s).faults + {code}) && err == Some(Fault(code))
    {
      err := Some(Fault(code));
      s := s.(faults := s.faults + {code});
    }

    /** `io.ReadFull`: exactly `len` bytes, or an error; it must fail past the end of the file. */
    method ReadFull(at: nat, len: nat) returns (data: seq<Byte>, err: Option<Err>)
      requires Inv(s)
      modifies this
      ensures Inv(s) && Idled(old(s), s)
      ensures err.None? ==> s.faults == old(s).faults && at + len <= |source| && data == source[at..at + len]
      ensures err.Some? ==> err.value.Fault? && s.faults == old(s).faults + {err.value.code}
    {
      Others();
      BesideKeepsWindows(old(s), s);
      var failed: bool := *;
      var code: int := *;
      if failed || at + len > |source| {
        data := [];
        err := Raise(code);
      } else {
        data, err := source[at..at + len], None;
      }
    }

    /** `File.Write` followed by feeding the digest what was written. */
    method WriteAndDigest(data: seq<Byte>) returns (count: nat, err: Option<Err>)
      requires Inv(s)
      modifies this
      ensures Inv(s) && count <= |data|
      ensures After(old(s).(target := old(s).target + data[..count], digest := old(s).digest + data[..count]), s, Wrote(count))
      ensures err.None? ==> s.faults == old(s).faults
      ensures err.Some? ==> err.value.Fault? && s.faults == old(s).faults + {err.value.code}
    {
      var written: int := *;
      count := if 0 <= written <= |data| then written else |data|;
      err := Perform(Wrote(count));
      s := s.(target := s.target + data[..count], digest := s.digest + data[..count]);
    }

    /** `fdatasync` by the copier itself. */
    method PeriodicSync() returns (err: Option<Err>)
      requires Inv(s) && s.faults == {}
      modifies this
      ensures Inv(s) && SameFiles(old(s), s) && Accounts(err, s) && (err.Some? ==> s.faults != {})
      ensures Windows(s.log) == Windows(old(s).log) && RangeWrites(s.log) == RangeWrites(old(s).log)
      ensures RangeWaits(s.log) == RangeWaits(old(s).log) && (Body(old(s).log) ==> Body(s.log))
    {
      hide Windows, RangeWrites, RangeWaits;
      Appended(s.log, DataSyncBegin);
      s := Done(s, DataSyncBegin);
      err := Perform(DataSyncEnd);
      if err.Some? {
        FaultAccounts(err.value.code);
      }
    }

    /** A send that never blocks: a full channel coalesces. */
    method RequestCommit()
      requires Inv(s)
      modifies this
      ensures Inv(s) && Idled(old(s), s) && s.faults == old(s).faults
    {
      Others();
      BesideKeepsWindows(old(s), s);
      s := s.(queued := true);
    }

    /** `sync_file_range`: start writing the new window, then wait for the previous one. */
    method RangeSync(from: nat, len: nat, previousStart: nat, previousBytes: nat) returns (err: Option<Err>)
      requires Inv(s) && Body(s.log) && s.faults == {}
      modifies this
      ensures Inv(s) && SameFiles(old(s), s) && Body(s.log) && Accounts(err, s) && (err.Some? ==> s.faults != {})
      ensures Windows(s.log) == Windows(old(s).log)
      ensures RangeWrites(s.log) == RangeWrites(old(s).log) + [(from, len)]
      ensures err.None? && previousBytes > 0 ==> RangeWaits(s.log) == RangeWaits(old(s).log) + [(previousStart, previousBytes)]
      ensures RangeWaits(s.log) == RangeWaits(old(s).log) ||
        (previousBytes > 0 && RangeWaits(s.log) == RangeWaits(old(s).log) + [(previousStart, previousBytes)])
    {
      hide Windows, RangeWrites, RangeWaits;
      err := Perform(RangeWrite(from, len));
      if err.None? && previousBytes > 0 {
        err := Perform(RangeWait(previousStart, previousBytes));
      }
      if err.Some? {
        FaultAccounts(err.value.code);
      }
    }

    /** The end of a window under each policy. */
    method SyncPoint(policy: Policy, lastWindow: nat, written: nat, previousStart: nat, previousBytes: nat)
      returns (err: Option<Err>, start: nat, bytes: nat)
      requires Inv(s) && Open(s) && Alongside(s, policy) && Body(s.log) && s.faults == {} && lastWindow < written
      requires Ranged(s.log, policy, previousStart, previousBytes)
      modifies this
      ensures Inv(s) && Open(s) && Alongside(s, policy) && Body(s.log) && Accounts(err, s)
      ensures s.target == old(s.target) && s.digest == old(s.digest)
      ensures Windows(s.log) == Windows(old(s).log) + [(lastWindow, written - lastWindow)]
      ensures err.None? ==> Ranged(s.log, policy, start, bytes)
      ensures (err.Some? ==> s.faults != {}) && WellRanged(s.log, policy, err.None?)
    {
      hide Windows, RangeWrites, RangeWaits;
      start, bytes := previousStart, previousBytes;
      err := None;
      Appended(s.log, Window(lastWindow, written - lastWindow));
      s := Done(s, Window(lastWindow, written - lastWindow));
      match policy {
        case Whole =>
        case Periodic =>
          err := PeriodicSync();
        case Concurrent =>
          RequestCommit();
        case Range =>
          err := RangeSync(lastWindow, written - lastWindow, previousStart, previousBytes);
          start, bytes := lastWindow, written - lastWindow;
      }
    }

    /** One chunk: read it, write it, count it. */
    method CopyChunk(written: nat, len: nat) returns (count: nat, err: Option<Err>)
      requires Inv(s) && s.faults == {} && Body(s.log) && s.target == s.digest && |s.target| == written <= |source|
      modifies this
      ensures Inv(s) && Body(s.log) && Accounts(err, s) && s.target == s.digest
      ensures SameFiles(old(s).(target := s.target, digest := s.digest), s) && SameWindows(old(s), s)
      ensures count <= len && written + count <= |source| && s.target == old(s.target) + source[written..written + count]
      ensures if err.None? then count == len else s.faults != {}
    {
      hide Windows, RangeWrites, RangeWaits;
      count := 0;
      var data: seq<Byte>;
      data, err := ReadFull(written, len);
      if err.Some? {
        FaultAccounts(err.value.code);
        return;
      }
      count, err := WriteAndDigest(data);
      if err.Some? {
        FaultAccounts(err.value.code);
      } else if count != len {
        err := Raise(SHORT_WRITE);
        FaultAccounts(SHORT_WRITE);
      }
    }

    /** What every loop head knows. */
    ghost predicate Copied(written: nat, policy: Policy)
      reads this
    {
      && Inv(s) && Open(s) && Alongside(s, policy) && Body(s.log)
      && written <= |source| && s.target == source[..written] && s.digest == s.target
    }

    /** `workCtx.Err()`. */
    method WorkErr() returns (err: Option<Err>)
      requires Inv(s)
      modifies this
      ensures Inv(s) && Idled(old(s), s) && s.faults == old(s).faults
      ensures err == if s.workCancelled then Some(Canceled) else None
    {
      Others();
      BesideKeepsWindows(old(s), s);
      err := if s.workCancelled then Some(Canceled) else None;
    }

    /** A window is full, or the copy complete: unless cancelled, close the window. */
    method CloseWindow(policy: Policy, lastWindow: nat, written: nat, previousStart: nat, previousBytes: nat)
      returns (err: Option<Err>, last: nat, start: nat, bytes: nat)
      requires Copied(written, policy) && s.faults == {} && lastWindow < written
      requires Ranged(s.log, policy, previousStart, previousBytes)
      modifies this
      ensures Copied(written, policy) && Accounts(err, s) && last in {lastWindow, written}
      ensures Windows(s.log) == Windows(old(s).log) + (if last == written then [(lastWindow, written - lastWindow)] else [])
      ensures err.None? ==> last == written && s.faults == {} && Ranged(s.log, policy, start, bytes)
      ensures err.Some? && s.faults == {} ==> s.workCancelled
      ensures WellRanged(s.log, policy, false)
    {
      hide Windows, RangeWrites, RangeWaits, WellRanged;
      last, start, bytes := lastWindow, previousStart, previousBytes;
      err := WorkErr();
      if err.Some? {
        CanceledAccounts();
        RangedIsWell(s.log, policy, previousStart, previousBytes);
        return;
      }
      err, start, bytes := SyncPoint(policy, lastWindow, written, previousStart, previousBytes);
      last := written;
      if err.None? {
        CanceledAccounts();
        RangedIsWell(s.log, policy, start, bytes);
      }
    }

    /** Read and write the next chunk unless cancelled. */
    method NextChunk(policy: Policy, written: nat, len: nat, ghost start: nat, ghost bytes: nat) returns (count: nat, err: Option<Err>)
      requires Copied(written, policy) && s.faults == {} && Ranged(s.log, policy, start, bytes)
      modifies this
      ensures count <= len && Copied(written + count, policy) && Accounts(err, s) && Windows(s.log) == Windows(old(s).log)
      ensures Ranged(s.log, policy, start, bytes) && WellRanged(s.log, policy, false)
      ensures err.None? ==> count == len && s.faults == {}
      ensures err.Some? && s.faults == {} ==> s.workCancelled
    {
      hide Windows, RangeWrites, RangeWaits, WellRanged;
      count := 0;
      err := WorkErr();
      CanceledAccounts();
      if err.None? {
        count, err := CopyChunk(written, len);
      }
      RangedIsWell(s.log, policy, start, bytes);
    }

    /** The copy loop. */
    method CopyLoop(size: nat, policy: Policy, window: nat) returns (copyErr: Option<Err>, written: nat, lastWindow: nat)
      requires size > 0 && window > 0
      requires Copied(0, policy) && s.faults == {} && Windows(s.log) == [] && Ranged(s.log, policy, 0, 0)
      modifies this
      ensures written <= size && Copied(written, policy) && (copyErr.None? ==> written == size)
      ensures Accounts(copyErr, s) && Tiled(s.log, lastWindow, window)
      ensures copyErr.Some? && s.faults == {} ==> s.workCancelled
      ensures copyErr.None? ==> lastWindow == size
      ensures lastWindow <= size && WellRanged(s.log, policy, copyErr.None?)
    {
      hide Windows, RangeWrites, RangeWaits, WellRanged, Ranged, Copied, Tiles, Full, AllFull, Accounts;
      written := 0;
      var previousStart, previousBytes := 0, 0;
      lastWindow, copyErr := 0, None;
      NoTiles(window);
      while written < size
        invariant written <= size && Copied(written, policy) && s.faults == {} && copyErr == None
        invariant lastWindow <= written && (written < size ==> written - lastWindow < window)
        invariant Tiles(Windows(s.log), lastWindow) && Full(Windows(s.log), window, CHUNK)
        invariant written < size ==> AllFull(Windows(s.log), window)
        invariant written == size ==> lastWindow == size
        invariant Ranged(s.log, policy, previousStart, previousBytes)
      {
        var len := Min(CHUNK, size - written);
        var count;
        count, copyErr := NextChunk(policy, written, len, previousStart, previousBytes);
        written := written + count;
        if copyErr.Some? {
          return;
        }
        if written - lastWindow >= window || written == size {
          TileMore(Windows(s.log), lastWindow, written, window);
          copyErr, lastWindow, previousStart, previousBytes := CloseWindow(policy, lastWindow, written, previousStart, previousBytes);
          if copyErr.Some? {
            return;
          }
        }
      }
      RangedIsWell(s.log, policy, previousStart, previousBytes);
      SomeTiles(Windows(s.log), lastWindow);
      CanceledIsNothing();
    }

    lemma CanceledIsNothing()
      requires s.faults == {}
      ensures Accounts(None, s)
    {
      CanceledAccounts();
    }

    /** Close the channel, then wait for the committer's last word. */
    method JoinCommitter() returns (commitErr: Option<Err>)
      requires Inv(s) && Open(s) && Alongside(s, Concurrent) && Body(s.log)
      modifies this
      ensures Inv(s) && Open(s) && s.committer == Finished && Body(s.log) && s.faults == old(s).faults
      ensures s.target == old(s).target && s.digest == old(s).digest && SameWindows(old(s), s)
      ensures commitErr == CommitError(s) && (old(s).workCancelled ==> s.workCancelled)
    {
      hide Windows, RangeWrites, RangeWaits;
      s := s.(channelClosed := true);
      Others();
      BesideKeepsWindows(old(s).(channelClosed := true), s);
      while s.committer != Finished
        invariant Inv(s) && Open(s) && s.channelClosed && s.committer != Absent && Body(s.log)
        invariant s.target == old(s).target && s.digest == old(s).digest && SameWindows(old(s), s) && s.faults == old(s).faults
        invariant old(s).workCancelled ==> s.workCancelled
        decreases Remaining(s)
      {
        var code: Option<int> := *;
        var m := match s.committer
          case Idle => if s.queued then Take else Quit
          case Holding => Begin
          case Syncing => End(code)
          case _ => Move.Cancel;
        NudgeIsBeside(s, m);
        NudgeKeepsInv(s, m);
        BesideKeepsWindows(s, Nudge(s, m));
        s := Nudge(s, m);
      }
      commitErr := CommitError(s);
    }

    /** The final sync unless something went wrong, and both closes. */
    method SyncAndClose(sync: bool) returns (syncErr: Option<Err>, closeErr: Option<Err>, sourceCloseErr: Option<Err>)
      requires Inv(s) && Open(s) && s.committer in {Absent, Finished}
      modifies this
      ensures Inv(s) && s.committer == old(s.committer) && s.commitFault == old(s).commitFault
      ensures s.target == old(s).target && s.digest == old(s).digest
      ensures s.sourceClosed == 1 && s.targetClosed == 1 && s.sourceOpened == 1 && s.targetOpened == 1
      ensures s.log == old(s).log + Ending(sync)
      ensures Plain(syncErr) && Plain(closeErr) && Plain(sourceCloseErr)
      ensures s.faults == old(s).faults + Code(syncErr) + Code(closeErr) + Code(sourceCloseErr)
      ensures old(s).cancelled ==> s.cancelled
    {
      hide Windows, RangeWrites, RangeWaits, Ending;
      syncErr := None;
      if sync {
        syncErr := Perform(FullSync);
      }
      closeErr := Perform(CloseTarget);
      s := s.(targetClosed := s.targetClosed + 1);
      sourceCloseErr := Perform(CloseSource);
      s := s.(sourceClosed := s.sourceClosed + 1);
      EndingIs(old(s).log);
    }

    /** Final sync, closes, and the error of the whole run. */
    method Finish(copied: Option<Err>, closeStress: bool) returns (err: Option<Err>, synced: bool)
      requires Inv(s) && Open(s) && s.committer in {Absent, Finished}
      requires FailuresOf(copied) == Failures(s) && Sound(copied)
      requires copied.Some? && Failures(s) == {} ==> s.cancelled
      modifies this
      ensures Inv(s) && s.committer == old(s.committer)
      ensures s.target == old(s).target && s.digest == old(s).digest
      ensures s.sourceClosed == 1 && s.targetClosed == 1 && s.sourceOpened == 1 && s.targetOpened == 1
      ensures s.log == old(s).log + Ending(synced)
      ensures synced ==> copied.None? && !closeStress
      ensures err.None? ==> copied.None? && !s.cancelled && (closeStress || synced)
      ensures FailuresOf(err) == Failures(s) && Sound(err)
      ensures err.Some? && Failures(s) == {} ==> s.cancelled
    {
      hide Windows, RangeWrites, RangeWaits, FailuresOf, LeavesOf;
      var copyErr := copied;
      if copyErr.None? {
        copyErr := WorkErr();
        CanceledAccounts();
      }
      synced := copyErr.None? && !closeStress;
      var syncErr, closeErr, sourceCloseErr := SyncAndClose(synced);
      Others();
      err := Verdict(copyErr, s.cancelled, syncErr, closeErr, sourceCloseErr);
      VerdictAccounts(copyErr, s.cancelled, syncErr, closeErr, sourceCloseErr);
    }

    /** A call outside the log that may fail. */
    method Try() returns (err: Option<Err>)
      requires Inv(s) && s.committer == Absent
      modifies this
      ensures Inv(s) && s.committer == Absent && s.commitFault == None && Plain(err)
      ensures s == old(s).(cancelled := s.cancelled, workCancelled := s.workCancelled, queued := s.queued, faults := s.faults)
      ensures s.faults == old(s).faults + Code(err)
    {
      Others();
      var failed: bool := *;
      var code: int := *;
      err := None;
      if failed {
        err := Raise(code);
      }
    }

    /** Close what was opened before the copy could start; a descriptor not open stays alone. */
    method CloseEarly(target: bool) returns (targetErr: Option<Err>, sourceErr: Option<Err>)
      requires Inv(s) && s.committer == Absent && s.log == []
      requires s.sourceOpened == 1 && s.sourceClosed == 0 && s.targetOpened == (if target then 1 else 0) && s.targetClosed == 0
      modifies this
      ensures Inv(s) && s.committer == Absent && s.commitFault == None && s.target == old(s).target
      ensures s.sourceOpened == s.sourceClosed == 1 && s.targetClosed == s.targetOpened == old(s).targetOpened
      ensures s.log == if target then Ending(false) else [CloseSource]
      ensures Plain(targetErr) && Plain(sourceErr) && s.faults == old(s).faults + Code(targetErr) + Code(sourceErr)
    {
      hide Windows, RangeWrites, RangeWaits;
      targetErr := None;
      if target {
        targetErr := Perform(CloseTarget);
        s := s.(targetClosed := 1);
      }
      sourceErr := Perform(CloseSource);
      s := s.(sourceClosed := 1);
    }

    /** A return before the copy: what was opened is closed, nothing was synced, and the returned
        tree holds failures that happened. Errors of a close before the target exists are dropped. */
    ghost predicate GaveUp(err: Option<Err>)
      reads this
    {
      && Inv(s) && s.target == [] && s.committer == Absent && Sound(err)
      && s.sourceClosed == s.sourceOpened <= 1 && s.targetClosed == s.targetOpened <= 1
      && s.log in {[], [CloseSource], Ending(false)} && FullSync !in s.log
      && {} != FailuresOf(err) <= Failures(s) && (s.targetOpened == 1 ==> FailuresOf(err) == Failures(s))
    }

    /** Nothing but opening files happened. */
    ghost predicate OnlyOpened(sources: nat, targets: nat)
      reads this
    {
      Inv(s) && s == START.(cancelled := s.cancelled, workCancelled := s.workCancelled, queued := s.queued, sourceOpened := sources, targetOpened := targets)
    }

    /** Open the source; it has to be a regular file that is long enough. */
    method OpenSource(size: nat) returns (err: Option<Err>)
      requires s == START
      modifies this
      ensures err.None? ==> OnlyOpened(1, 0) && size <= |source|
      ensures err.Some? ==> GaveUp(err)
    {
      hide FailuresOf, LeavesOf, Windows, RangeWrites, RangeWaits;
      err := Try();
      if err.Some? {
        FaultAccounts(err.value.code);
        return;
      }
      s := s.(sourceOpened := 1);
      err := Try();
      var regular: bool := *;
      if err.None? && (!regular || |source| < size) {
        err := Raise(INVALID_SOURCE);
      }
      if err.Some? {
        FaultAccounts(err.value.code);
        var _, _ := CloseEarly(false);
      }
    }

    /** Identify the source and create the target. */
    method CreateTarget() returns (err: Option<Err>)
      requires OnlyOpened(1, 0)
      modifies this
      ensures err.None? ==> OnlyOpened(1, 1)
      ensures err.Some? ==> GaveUp(err)
    {
      hide FailuresOf, LeavesOf, Windows, RangeWrites, RangeWaits;
      var identified: bool := *;
      if !identified {
        err := Raise(NO_IDENTITY);
      } else {
        err := Try();
      }
      if err.Some? {
        var _, sourceErr := CloseEarly(false);
        JoinOfTwo(err, sourceErr);
        err := JoinErrors([err, sourceErr]);
        return;
      }
      s := s.(targetOpened := 1);
    }

    /** Identify the target. */
    method IdentifyTarget() returns (err: Option<Err>)
      requires OnlyOpened(1, 1)
      modifies this
      ensures err.None? ==> OnlyOpened(1, 1)
      ensures err.Some? ==> GaveUp(err)
    {
      hide FailuresOf, LeavesOf, Windows, RangeWrites, RangeWaits;
      err := Try();
      var identified: bool := *;
      if err.None? && !identified {
        err := Raise(NO_IDENTITY);
      }
      if err.Some? {
        var targetErr, sourceErr := CloseEarly(true);
        JoinOfThree(err, targetErr, sourceErr);
        err := JoinErrors([err, targetErr, sourceErr]);
      }
    }

    /** Both descriptors open and the committer started, or everything opened is closed again. */
    method OpenBoth(size: nat, policy: Policy) returns (err: Option<Err>)
      requires s == START
      modifies this
      ensures err.None? ==> Copied(0, policy) && size <= |source| && s.faults == {} && s.log == []
      ensures err.Some? ==> GaveUp(err)
    {
      hide GaveUp, Windows, RangeWrites, RangeWaits;
      err := OpenSource(size);
      if err.Some? {
        return;
      }
      err := CreateTarget();
      if err.Some? {
        return;
      }
      err := IdentifyTarget();
      if err.Some? {
        return;
      }
      if policy == Concurrent {
        s := s.(committer := Idle);
      }
    }

    /** The copy, and the committer joined to it. */
    method CopyAndJoin(size: nat, policy: Policy, window: nat) returns (copied: Option<Err>, lastWindow: nat)
      requires size > 0 && window > 0 && Copied(0, policy) && s.faults == {} && s.log == []
      modifies this
      ensures Inv(s) && Open(s) && s.committer in {Absent, Finished} && Body(s.log)
      ensures FailuresOf(copied) == Failures(s) && Sound(copied)
      ensures copied.Some? && Failures(s) == {} ==> s.cancelled
      ensures copied.None? ==> size <= |source| && s.target == source[..size] && s.digest == s.target && lastWindow == size
      ensures Tiled(s.log, lastWindow, window) && lastWindow <= size && WellRanged(s.log, policy, copied.None?)
    {
      assert Windows([]) == [] && RangeWrites([]) == [] && RangeWaits([]) == [];
      hide Windows, RangeWrites, RangeWaits, LeavesOf, Codes;
      var written;
      copied, written, lastWindow := CopyLoop(size, policy, window);
      if policy == Concurrent {
        var before := copied;
        var commitErr := JoinCommitter();
        copied := JoinErrors([before, commitErr]);
        CommitAccounts(before, commitErr);
      }
    }

    /** `run`. The ghost result says where the copy proper ends in the log of calls. */
    method Run(size: nat, policy: Policy, window: nat, closeStress: bool) returns (err: Option<Err>, ghost end: nat)
      requires s == START && size > 0 && window > 0
      modifies this
      ensures err.None? ==> size <= |source| && s.target == source[..size] && s.digest == s.target && !s.cancelled
      ensures err.None? ==> FullSync in s.log || closeStress
      ensures FullSync in s.log ==> size <= |source| && s.target == source[..size] && !closeStress
      ensures s.committer in {Absent, Finished}
      ensures s.sourceClosed == s.sourceOpened <= 1 && s.targetClosed == s.targetOpened <= 1
      ensures err.None? ==> s.targetOpened == 1
      ensures end <= |s.log| && Body(s.log[..end])
      ensures s.log[end..] in {[], [CloseSource], Ending(false), Ending(true)}
      ensures FailuresOf(err) <= Failures(s) && (FailuresOf(err) == {} ==> Failures(s) == {})
      ensures s.targetOpened == 1 ==> FailuresOf(err) == Failures(s)
      ensures OnlyCancellation(err) <==> err.Some? && Failures(s) == {}
      ensures OnlyCancellation(err) ==> s.cancelled
      ensures exists last: nat :: last <= size && Tiled(s.log[..end], last, window) && (err.None? ==> last == size)
      ensures WellRanged(s.log[..end], policy, err.None?)
    {
      hide RangeWrites, RangeWaits, LeavesOf, Codes;
      end := 0;
      err := OpenBoth(size, policy);
      if err.Some? {
        Classified(err);
        assert s.log[..0] == [] && s.log[0..] == s.log;
        NothingRanged(policy);
        assert Tiled([], 0, window);
        return;
      }
      var copied, lastWindow := CopyAndJoin(size, policy, window);
      ghost var copy := s.log;
      end := |copy|;
      var synced;
      err, synced := Finish(copied, closeStress);
      LogShape(copy, synced);
      assert Tiled(s.log[..end], lastWindow, window);
      if err.Some? {
        Classified(err);
      }
    }
  }

  function Ending(synced: bool): seq<Call> {
    (if synced then [FullSync] else []) + [CloseTarget, CloseSource]
  }

  lemma EndingIs(log: seq<Call>)
    ensures log + [FullSync] + [CloseTarget] + [CloseSource] == log + Ending(true)
    ensures log + [CloseTarget] + [CloseSource] == log + Ending(false)
  {
  }

  lemma LogShape(copy: seq<Call>, synced: bool)
    requires Body(copy)
    ensures var log := copy + Ending(synced);
      && log[..|copy|] == copy && log[|copy|..] == Ending(synced)
      && (FullSync in log <==> synced)
  {
  }

  /** Only `range` makes range calls. It submits the windows one by one, and before the next is
      submitted it waits for the one before; a complete copy has waited for all but the last. */
  predicate WellRanged(copy: seq<Call>, policy: Policy, complete: bool) {
    var ws, waits := Windows(copy), RangeWaits(copy);
    if policy != Range then RangeWrites(copy) == [] && waits == []
    else
      && RangeWrites(copy) == ws
      && (ws == [] ==> waits == [] && !complete)
      && (ws != [] ==> waits <= ws[..|ws| - 1] && |ws| <= |waits| + 2)
      && (complete ==> |waits| == |ws| - 1)
  }

  lemma NoTiles(window: nat)
    ensures Tiles([], 0) && Full([], window, CHUNK) && AllFull([], window)
  {
  }

  lemma SomeTiles(ws: seq<(nat, nat)>, end: nat)
    requires Tiles(ws, end) && end > 0
    ensures ws != []
  {
  }

  /** Closing a window behind full ones. */
  lemma TileMore(ws: seq<(nat, nat)>, last: nat, written: nat, window: nat)
    requires Tiles(ws, last) && AllFull(ws, window) && last < written
    ensures var more := ws + [(last, written - last)];
      && ws + [] == ws && Full(ws, window, CHUNK) && Tiles(more, written) && Full(more, window, CHUNK)
      && (window <= written - last < window + CHUNK ==> AllFull(more, window))
  {
    var more := ws + [(last, written - last)];
    assert more[..|ws|] == ws;
  }

  lemma RangedIsWell(log: seq<Call>, policy: Policy, from: nat, len: nat)
    requires Ranged(log, policy, from, len)
    ensures WellRanged(log, policy, false) && (Windows(log) != [] ==> WellRanged(log, policy, true))
  {
    hide Windows, RangeWrites, RangeWaits;
  }

  lemma NothingRanged(policy: Policy)
    ensures WellRanged([], policy, false)
  {
  }

  lemma CommitAccounts(copied: Option<Err>, commitErr: Option<Err>)
    requires Plain(commitErr)
    ensures FailuresOf(JoinErrors([copied, commitErr])) == FailuresOf(copied) + Code(commitErr)
    ensures Sound(JoinErrors([copied, commitErr])) <==> Sound(copied)
    ensures JoinErrors([copied, commitErr]).None? <==> copied.None? && commitErr.None?
  {
    JoinKeepsEveryLeaf([copied, commitErr]);
    UnionOfTwo(copied, commitErr);
    PlainLeaves(commitErr);
    CodesOfUnion(LeavesOf(copied), LeavesOf(commitErr));
  }

  /** The classification of `main`: cancelled exactly when no failure is in the tree. */
  lemma Classified(err: Option<Err>)
    requires Sound(err) && err.Some?
    ensures OnlyCancellation(err) <==> FailuresOf(err) == {}
  {
    OnlyCancelsIsItsLeaves(err.value);
    forall l | l in LeavesOf(err) && l.Failure? ensures l.code in FailuresOf(err) {
    }
    if FailuresOf(err) == {} {
      forall l | l in LeavesOf(err) ensures l == ErrorTree.Cancel {
        assert !l.Failure?;
      }
    }
  }

  /** Steps the committer still has to make once its channel is closed. */
  function Remaining(s: Shared): nat {
    (if s.queued then 5 else 0) +
    match s.committer
    case Holding => 4
    case Syncing => 3
    case Failing => 2
    case Idle => 1
    case _ => 0
  }

  /** What `run` returns: cancellation seen after the copy, and every error. */
  function Verdict(copyErr: Option<Err>, cancelled: bool, syncErr: Option<Err>, closeErr: Option<Err>, sourceErr: Option<Err>): Option<Err> {
    JoinErrors([if cancelled then JoinErrors([copyErr, Some(Canceled)]) else copyErr, syncErr, closeErr, sourceErr])
  }

  function Code(err: Option<Err>): set<int> {
    if err.Some? && err.value.Fault? then {err.value.code} else {}
  }

  predicate Plain(err: Option<Err>) {
    err.Some? ==> err.value.Fault?
  }

  lemma PlainLeaves(err: Option<Err>)
    requires Plain(err)
    ensures Codes(LeavesOf(err)) == Code(err) && Hollow !in LeavesOf(err)
  {
    if err.Some? {
      assert LeavesOf(err) == {Failure(err.value.code)};
      assert Failure(err.value.code) in LeavesOf(err);
    }
  }

  lemma JoinOfTwo(a: Option<Err>, b: Option<Err>)
    requires Plain(a) && Plain(b)
    ensures FailuresOf(JoinErrors([a, b])) == Code(a) + Code(b) && Sound(JoinErrors([a, b]))
    ensures JoinErrors([a, b]).None? <==> a.None? && b.None?
  {
    JoinKeepsEveryLeaf([a, b]);
    UnionOfTwo(a, b);
    PlainLeaves(a);
    PlainLeaves(b);
    CodesOfUnion(LeavesOf(a), LeavesOf(b));
  }

  lemma JoinOfThree(a: Option<Err>, b: Option<Err>, c: Option<Err>)
    requires Plain(a) && Plain(b) && Plain(c)
    ensures FailuresOf(JoinErrors([a, b, c])) == Code(a) + Code(b) + Code(c) && Sound(JoinErrors([a, b, c]))
    ensures JoinErrors([a, b, c]).None? <==> a.None? && b.None? && c.None?
  {
    JoinKeepsEveryLeaf([a, b, c]);
    assert [a, b, c][1..] == [b, c];
    UnionOfTwo(b, c);
    PlainLeaves(a);
    PlainLeaves(b);
    PlainLeaves(c);
    CodesOfUnion(LeavesOf(b), LeavesOf(c));
    CodesOfUnion(LeavesOf(a), LeavesOf(b) + LeavesOf(c));
  }

  lemma VerdictLeaves(copyErr: Option<Err>, cancelled: bool, syncErr: Option<Err>, closeErr: Option<Err>, sourceErr: Option<Err>)
    ensures LeavesOf(Verdict(copyErr, cancelled, syncErr, closeErr, sourceErr)) ==
      LeavesOf(copyErr) + (if cancelled then {ErrorTree.Cancel} else {}) + LeavesOf(syncErr) + LeavesOf(closeErr) + LeavesOf(sourceErr)
  {
    var first := if cancelled then JoinErrors([copyErr, Some(Canceled)]) else copyErr;
    JoinKeepsEveryLeaf([first, syncErr, closeErr, sourceErr]);
    assert UnionOf([first, syncErr, closeErr, sourceErr]) ==
      LeavesOf(first) + LeavesOf(syncErr) + LeavesOf(closeErr) + LeavesOf(sourceErr) by {
      UnionOfFour(first, syncErr, closeErr, sourceErr);
    }
    if cancelled {
      JoinKeepsEveryLeaf([copyErr, Some(Canceled)]);
      UnionOfTwo(copyErr, Some(Canceled));
    }
  }

  lemma UnionOfTwo(a: Option<Err>, b: Option<Err>)
    ensures UnionOf([a, b]) == LeavesOf(a) + LeavesOf(b)
  {
    assert [a, b][1..] == [b] && [b][1..] == [];
    assert UnionOf([b]) == LeavesOf(b);
  }

  lemma UnionOfFour(a: Option<Err>, b: Option<Err>, c: Option<Err>, d: Option<Err>)
    ensures UnionOf([a, b, c, d]) == LeavesOf(a) + LeavesOf(b) + LeavesOf(c) + LeavesOf(d)
  {
    assert [a, b, c, d][1..] == [b, c, d] && [b, c, d][1..] == [c, d];
    UnionOfTwo(c, d);
  }

  /** The verdict keeps every failure and adds nothing but cancellation. */
  lemma VerdictAccounts(copyErr: Option<Err>, cancelled: bool, syncErr: Option<Err>, closeErr: Option<Err>, sourceErr: Option<Err>)
    requires Plain(syncErr) && Plain(closeErr) && Plain(sourceErr)
    ensures var err := Verdict(copyErr, cancelled, syncErr, closeErr, sourceErr);
      && FailuresOf(err) == FailuresOf(copyErr) + Code(syncErr) + Code(closeErr) + Code(sourceErr)
      && (Sound(err) <==> Sound(copyErr))
      && (err.None? <==> copyErr.None? && !cancelled && syncErr.None? && closeErr.None? && sourceErr.None?)
  {
    NoneIsLeafless(Verdict(copyErr, cancelled, syncErr, closeErr, sourceErr));
    NoneIsLeafless(copyErr);
    hide Verdict, LeavesOf;
    VerdictLeaves(copyErr, cancelled, syncErr, closeErr, sourceErr);
    PlainLeaves(syncErr);
    PlainLeaves(closeErr);
    PlainLeaves(sourceErr);
    CodesOfFive(LeavesOf(copyErr), if cancelled then {ErrorTree.Cancel} else {}, LeavesOf(syncErr), LeavesOf(closeErr), LeavesOf(sourceErr));
  }

  lemma NoneIsLeafless(err: Option<Err>)
    ensures LeavesOf(err) == {} <==> err.None?
  {
  }

  lemma CodesOfFive(a: set<Leaf>, b: set<Leaf>, c: set<Leaf>, d: set<Leaf>, e: set<Leaf>)
    ensures Codes(a + b + c + d + e) == Codes(a) + Codes(b) + Codes(c) + Codes(d) + Codes(e)
  {
    CodesOfUnion(a, b);
    CodesOfUnion(a + b, c);
    CodesOfUnion(a + b + c, d);
    CodesOfUnion(a + b + c + d, e);
  }

  ghost predicate SameFiles(a: Shared, b: Shared) {
    && b.target == a.target && b.digest == a.digest && b.channelClosed == a.channelClosed
    && b.sourceOpened == a.sourceOpened && b.sourceClosed == a.sourceClosed
    && b.targetOpened == a.targetOpened && b.targetClosed == a.targetClosed
    && (a.cancelled ==> b.cancelled) && (a.workCancelled ==> b.workCancelled)
    && (a.committer == Absent <==> b.committer == Absent)
    && (a.committer in {Absent, Finished} ==> b.committer == a.committer && b.commitFault == a.commitFault)
  }

  ghost predicate SameWindows(a: Shared, b: Shared) {
    Windows(b.log) == Windows(a.log) && RangeWrites(b.log) == RangeWrites(a.log) && RangeWaits(b.log) == RangeWaits(a.log)
  }

  /** The copier waited for a call that is not logged. */
  ghost predicate Idled(a: Shared, b: Shared) {
    && SameFiles(a, b)
    && Windows(b.log) == Windows(a.log) && RangeWrites(b.log) == RangeWrites(a.log) && RangeWaits(b.log) == RangeWaits(a.log)
    && (Body(a.log) ==> Body(b.log))
    && (a.committer in {Absent, Finished} ==> b.log == a.log)
  }

  /** The copier made one call, possibly among data syncs of the committer. */
  ghost predicate After(a: Shared, b: Shared, c: Call) {
    && SameFiles(a, b)
    && Windows(b.log) == Windows(a.log) + (if c.Window? then [(c.from, c.len)] else [])
    && RangeWrites(b.log) == RangeWrites(a.log) + (if c.RangeWrite? then [(c.from, c.len)] else [])
    && RangeWaits(b.log) == RangeWaits(a.log) + (if c.RangeWait? then [(c.from, c.len)] else [])
    && (Body(a.log) && !Tail(c) ==> Body(b.log))
    && (a.committer in {Absent, Finished} ==> b.log == a.log + [c])
  }
}
