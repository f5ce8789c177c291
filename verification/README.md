# Verification of the deployment, copy, scheduling, ranking and identity logic

These Dafny modules model the parts of the repository whose correctness rests on more than
one function: a crash-resumable deployment protocol, a concurrent file copy, a scheduler and
an admission gate, the merge and scoring arithmetic of the discovery evaluation, byte-bounded
text, server shutdown, sharded test runs, and identity strings. Code that works by changing
state is modelled by classes and by methods with loops; each of them is proved against a
specification over values, and the main results are lemmas about that specification over every
input, every run or every interleaving. `dafny verify dfyconfig.toml` checks everything.

| files | what they model |
|---|---|
| `Maintenance.dfy` | the drain coordinator: admission tokens, owner, generation, terminal close |
| `DeployWorld.dfy`, `DeployHistory.dfy`, `DeployTool.dfy` | the drained deployment tool, the containers, receipts and lock it works on, and histories of its runs |
| `DeployProgress.dfy`, `DeployDeadEnds.dfy`, `DeployGap.dfy` | from where a deployment can be finished and from where never again, and when its TERM can interrupt work |
| `ErrorTree.dfy`, `CopyMachine.dfy`, `CopyEngine.dfy` | the qualification copy with its writeback policies and its committer goroutine |
| `Scheduler.dfy`, `Gate.dfy` | the priority token-bucket scheduler and the single-flight gate |
| `Ndcg.dfy`, `Fusion.dfy`, `Evaluation.dfy` | nDCG, reciprocal-rank fusion, and the lists they are applied to |
| `Candidates.dfy`, `CombinedPaths.dfy`, `Combined.dfy` | interleaving, disjoint paths, and the quota merge of candidates |
| `Utf8.dfy`, `SeedTopic.dfy` | UTF-8 truncation (section 3 of RFC 3629) and the provider text built with it |
| `Lifecycle.dfy` | server shutdown: lock, closing flag, two wait groups, admission tokens |
| `RunPattern.dfy`, `Shard.dfy`, `ShardMerge.dfy` | test sharding, the `-run` pattern, and the validating merge of coverage |
| `Text.dfy`, `Wantable.dfy`, `SearchPlan.dfy`, `PreviewKey.dfy` | identity strings, search plans and preview keys |
| `Base.dfy`, `Sequences.dfy`, `Sorting.dfy` | shared datatypes, duplicate-free sequences, a stable sort |

**How concurrency and failure are modelled.** A step of another thread, of the kernel, of the
Docker daemon or of a client is a value (`Move`, `Event`, `Step`); a history is a sequence of
such steps. The methods that follow the source call `Environment` or `Others` between any two of
their own steps, which takes any number of possible foreign steps. A command of the deployment tool
may fail before or after its effect, or succeed without an answer; a crash is a command that fails
without effect, after which nothing else of that run happens but that the lock is free again. A run is
what happens in a history between taking the lock (`Begin`) and giving it back (`Stop`).

**Assumptions.** The environment of the deployment protocol holds no owner token of a receipt and
starts or removes no container of the service by hand. Docker may restart an exited container under any
policy but `no`, under `on-failure` only after a non-zero exit code; that a retry limit can be used up, or that
`unless-stopped` stays down after a stop by hand, is ignored, so more restarts are possible here than in Docker.
A replacement starts with an application that never drained; the random source never repeats a generation; replacing a receipt file is atomic. In the
copy, `io.ReadFull` fails past the end of the source and a write reports how many bytes it took.
Callers of the gate end only what they were admitted to, which is also shown to be exactly what
keeps its underflow panics unreachable.

**Where the code keeps less than it might promise.**

- The tool sends TERM on the strength of a `drained` answer, so that admitted work finishes first
  (sections 1 and 2 of `docs/NFS_DEPLOYMENT_DRAIN.md`). That answer is read before the restart policy is
  switched off, and the application keeps a drain in memory only. If the captured process fails in
  between and Docker restarts it, the new process admits work, and TERM interrupts it.
  `DeployGap.GapIsReachable` is such a history; `DeployGap.TermIsSafeIffRestartIsOff` proves
  that every later TERM finds no work exactly when Docker could not restart the container or no run can
  take the drain up again.
- Section 2 of that document lets `resume` recover from a lost Docker response. For `up` it does not
  (`scripts/deploy-drained.py:178-183`). If `up` took effect but its answer was lost, the run crashed, or `ps` found no
  running container yet, the durable phase is still `exit_verified` while the service already is the new container.
  From then on every `resume` stops where it compares the service with the captured container (lines 75-77), and
  `abort` is refused. A receipt before TERM is stuck in the same way once the run of another receipt has replaced its
  container. `DeployDeadEnds.DeadEndIsReachable` is such a history, `DeployDeadEnds.UpCanStrand` says from where it can happen.
- A receipt names the generation of its drain, and a run refuses to go on under another one. If the
  captured process is restarted before TERM, or a run stops between ending the drain and recording
  `aborted`, that generation never comes back (`DeployDeadEnds.LostForGood`), and the receipt can be neither
  resumed nor aborted.

`DeployDeadEnds.CanFinishIffNotStuck` is the exact condition for all of these together: between two runs, a receipt can still
be finished if and only if it is not `Stuck`, that is aborted, stranded by a replaced service, without the drain
it has on record, without a drain and unable to get one, or past TERM with a process gone without the evidence
demanded. `Stuck` is for ever (`DeployDeadEnds.StuckForGood`), and every `resume` or `abort` of such a receipt ends in an error
(`DeployTool.Deployment.Run`).

`seed_pool` cuts the first two pages at 60 before it drops the seed. `Evaluation.SeedPoolLosesIff` says exactly
when an id is lost by that; pages of twenty rows, as the repository's captures have, never reach it
(`Evaluation.SmallPagesLoseNothing`).

## Model

| member | source | states |
|---|---|---|
| Maintenance.Coordinator.TryEnter | internal/app/maintenance/maintenance.go:63-90 | Work is admitted exactly when its context is live and either nothing is paused or closed, or it comes under a live token; an admission gets the next id; a refusal leaves the state alone |
| Maintenance.Coordinator.ReleaseToken | internal/app/maintenance/maintenance.go:82-89 | The release closure ends that admission and no other, and a second call changes nothing |
| Maintenance.Coordinator.StartDrain | internal/app/maintenance/maintenance.go:111-138 | Succeeds exactly for a valid owner on an open coordinator that is not drained by another; repeated by the same owner it changes nothing and reports the same drain |
| Maintenance.Coordinator.AbortDrain | internal/app/maintenance/maintenance.go:140-154 | Reopens exactly for the owner and generation of the drain under way, never after close |
| Maintenance.Coordinator.CloseAdmission | internal/app/maintenance/maintenance.go:156-158 | Close makes the coordinator terminal and touches nothing else |
| Maintenance.Coordinator.StatusLocked | internal/app/maintenance/maintenance.go:160-183 | The reported phase and count are those of the state |
| Maintenance.ActiveIsOutstanding | internal/app/maintenance/maintenance.go:69-90 | Over every history in which releases follow their admissions, the table of active work is exactly what was admitted and not released, and ids are never reused |
| Maintenance.DrainIsHeld | internal/app/maintenance/maintenance.go:109-154 | Until its owner ends it, a drain keeps its owner and generation through every sequence of operations, and once workless it stays workless |
| Maintenance.OnlyOwnerReopens | internal/app/maintenance/maintenance.go:140-158 | A drained coordinator can admit work again if and only if it is not closed, and only after its owner ended the drain |
| Maintenance.TerminalStays | internal/app/maintenance/maintenance.go:156-158 | Close is for ever |
| Maintenance.RepeatedStartIsIdempotent | internal/app/maintenance/maintenance.go:109-138 | While a drain lasts every further Start, by anyone, changes nothing and the first generation is reported, so a lost reply is recovered by asking again |
| Maintenance.StaleAbortIsRefused | internal/app/maintenance/maintenance.go:109-154 | An abort carrying the generation of an earlier drain never ends a later one |
| DeployWorld.StepKeepsInv | scripts/deploy-drained.py:120-205 | Every move of the environment and every command the tool may issue keeps the invariant that ties containers, receipts and drains together, and at most one container of the service can be alive |
| DeployWorld.EndDrainLeavesOthers | scripts/deploy-drained.py:186-203 | Ending one receipt's drain never ends the drain held for another receipt |
| DeployHistory.AlwaysSafe | scripts/deploy-drained.py:120-184 | In every state of every history of deploy, resume and abort runs, cut short anywhere, no two containers of the service are ever alive together |
| DeployHistory.RetiredForGood | scripts/deploy-drained.py:165-184 | A container that stopped being the service's container is exited with restart policy `no` and never changes again |
| DeployHistory.UpOnlyAfterExit | scripts/deploy-drained.py:165-180 | `up` runs only with a durable `exit_verified` whose recorded exit is clean and is the state of the captured container, then and for ever after |
| DeployHistory.TermIsWriteAhead | scripts/deploy-drained.py:145-151 | When TERM is sent its intent is already durable and stays so; from then on no run drains, aborts, asks or changes the restart policy under that receipt |
| DeployHistory.DrainOutlivesTerm | scripts/deploy-drained.py:145-151 | Nor does a run under another receipt of the same container reopen it: as long as the drained process is still the one in the container, its admission stays paused for the receipt that sent TERM and it has no work |
| DeployHistory.RecordedStays | scripts/deploy-drained.py:120-151 | The phases from `term_requested` on are never left for an earlier one |
| DeployHistory.TermFollowsDrained | scripts/deploy-drained.py:132-151 | Before every TERM a `drained` status was read for that receipt, and no abort command under that receipt took effect in between |
| DeployHistory.AbortedIsFinal | scripts/deploy-drained.py:120-205 | After a durable `aborted` no run sends any command under that receipt |
| DeployProgress.ResumeCanFinish | scripts/deploy-drained.py:120-184 | Before TERM an interrupted run can be finished, however much work is still admitted, if the captured container is still the service's and either its application can be drained under the drain on record, or none is on record and Docker restarts it |
| DeployProgress.CanReachReplaced | scripts/deploy-drained.py:152-184 | A run from `term_requested` or `exit_verified` whose service still is the captured container can finish if restart is off and the process either still runs or ended with the evidence demanded |
| DeployDeadEnds.CanFinishIffNotStuck | scripts/deploy-drained.py:120-205 | The exact condition, for every receipt in every phase of every history, between two runs: some continuation of further runs finishes it if and only if it is in none of the dead ends, each of which is read off the receipt, the service, and the captured container and its application |
| DeployDeadEnds.StuckForGood | scripts/deploy-drained.py:120-205 | A dead end is for ever: whatever runs are made under whatever receipt, the stuck receipt stays as it is |
| DeployDeadEnds.UpCanStrand | scripts/deploy-drained.py:75-77 | From `term_requested` or `exit_verified`, whenever a run could finish, `up` may take effect in a run that does not record it; then the new container serves, and no continuation ever finishes the receipt |
| DeployDeadEnds.DeadEndIsReachable | scripts/deploy-drained.py:176-183 | One deployment of a healthy service can end there |
| DeployDeadEnds.LostForGood | scripts/deploy-drained.py:126-129 | Once the application no longer holds the drain a receipt names, no history ever restores it: generations are not handed out twice |
| DeployDeadEnds.DrainIsConfirmableIffNotLost | scripts/deploy-drained.py:126-129 | For an interrupted run with a drain on record and a running application that is not shutting down: some continuation confirms that drain, as every run demands before it goes on, if and only if it is not lost |
| DeployDeadEnds.RestartLosesDrain | scripts/deploy-drained.py:126-144 | If Docker can restart the captured container, a drain on record can be lost at any time before TERM |
| DeployDeadEnds.AbortLosesDrain | scripts/deploy-drained.py:194-204 | From every drain on record that a run could take up, an abort that stops before `aborted` is durable leaves admission open, the receipt unchanged and its drain lost |
| DeployHistory.TermFindsNoWork | scripts/deploy-drained.py:132-151 | TERM meets no admitted work as long as the process that was drained is still the one in the container |
| DeployHistory.NoRestartKeepsDrain | scripts/deploy-drained.py:141-151 | If Docker can give the container no other process, a drained answer stays true through every sequence of moves |
| DeployHistory.DrainLastsIffRestartIsOff | scripts/deploy-drained.py:132-144 | A drained answer stays true under every sequence of moves of Docker and the clients if and only if Docker can give the container no other process, which for a running one means that restart is off |
| DeployHistory.TermCanInterruptWork | scripts/deploy-drained.py:140-151 | From any `drained` the run under way has just made durable, if Docker can restart the container, the remaining commands of that run are all possible after a restart, and TERM then meets admitted work |
| DeployGap.TermIsSafeIffRestartIsOff | scripts/deploy-drained.py:140-151 | For every history with a durable `drained` whose answer is still true: every later TERM of this or another run finds no admitted work if and only if Docker could not restart the container, or the drain cannot be taken up again and no TERM follows (unless the drain is aborted or the policy restored on the way) |
| DeployGap.TermFindsHeld | scripts/deploy-drained.py:132-151 | If Docker cannot restart the container when `drained` was read, the history up to TERM, with all commands of all runs in it, admits no work |
| DeployGap.GapIsReachable | scripts/deploy-drained.py:120-151 | From a fresh service with policy `always` one deployment can send TERM to an application with admitted work |
| DeployTool.Host.Perform | scripts/deploy-drained.py:57-64 | A command the protocol allows extends the history by exactly its effect |
| DeployTool.Host.Issue | scripts/deploy-drained.py:57-61 | A command that reports success took effect; one that raises is counted and may or may not have taken effect |
| DeployTool.Deployment.Save | scripts/deploy-drained.py:31-55 | No error means the receipt on disk is the record; the new phase must be one the durable phase and the evidence allow |
| DeployTool.Deployment.VerifyDaemonAndService | scripts/deploy-drained.py:72-77 | No error means the service is the captured container; the only other errors are a raising command and a service that is another one |
| DeployTool.Deployment.CheckCapability | scripts/deploy-drained.py:79-83 | No error means the captured container has the drain label; it is refused only if it was seen without |
| DeployTool.Deployment.Capture | scripts/deploy-drained.py:92-109 | The record names the service container with its own policy and a new owner, and that container was seen running with the drain label; a refusal is backed by what was seen |
| DeployTool.Deployment.Prepare | scripts/deploy-drained.py:92-113 | An existing receipt is refused, and only that is refused so; otherwise success means a durable `prepared` receipt for the service container, which was seen running with the drain label |
| DeployTool.Deployment.BeginDrain | scripts/deploy-drained.py:125-129 | The captured application took the drain request under the generation now in the record, and reported a status since the call began; a generation error means it reported another generation than recorded; a lost drain always ends in an error |
| DeployTool.Deployment.PollStatus | scripts/deploy-drained.py:138-139 | One second later; the status was reported by the captured application since then |
| DeployTool.Deployment.AwaitDrained | scripts/deploy-drained.py:131-139 | Terminates; ends with `drained` as the last answer, or with a reported foreign phase or generation, or after the full drain timeout, or with a container seen without the label, or with a raising command |
| DeployTool.Deployment.WaitUntilDrained | scripts/deploy-drained.py:125-140 | Success means `draining` is durable and `drained` was the last answer read |
| DeployTool.Deployment.DisableAndRecord | scripts/deploy-drained.py:140-147 | Success means restart is off and `term_requested` is durable for the captured service container; nothing but a raising command can prevent it |
| DeployTool.Deployment.DrainThenTerm | scripts/deploy-drained.py:124-151 | Success means TERM was sent after `term_requested` became durable |
| DeployTool.Deployment.RepeatTerm | scripts/deploy-drained.py:152-163 | A resumed run signals again only with restart off on the captured service container |
| DeployTool.Deployment.CheckRestartIsOff | scripts/deploy-drained.py:153-155 | No error means the captured container has restart policy `no`; it is refused only if another policy was seen |
| DeployTool.Deployment.CollectExit | scripts/deploy-drained.py:165-171 | The exit it returns is clean and still the state of the captured container after any further moves; it is refused only if a state was seen that is not clean for the waited code |
| DeployTool.Deployment.ProveExit | scripts/deploy-drained.py:152-176 | Success means `exit_verified` is durable with that exit |
| DeployTool.Deployment.Replace | scripts/deploy-drained.py:177-184 | Success means the service is a container that did not exist before and was seen running, and `replaced` is durable with its identity |
| DeployTool.Deployment.RecordReplacement | scripts/deploy-drained.py:179-183 | `replaced` names the service's container, which is not the captured one and was seen running; it is refused only if there was none |
| DeployTool.Deployment.DrainAndReplace | scripts/deploy-drained.py:120-184 | Terminal receipts are refused, and only they are refused so; a service that is not the captured container any more is always an error; on success TERM was sent in this run if it had not been recorded before, and the replacement is recorded |
| DeployTool.Deployment.AbortDeployment | scripts/deploy-drained.py:186-205 | After TERM or a terminal receipt it is refused, and only then refused so; a service that is not the captured container any more is always an error; on success the captured application was seen admitting work again, the original restart policy is back and `aborted` is durable |
| DeployTool.Deployment.ReopenAdmission | scripts/deploy-drained.py:194-204 | Success means the policy is restored, admission was seen open and `aborted` is durable; a lost drain always ends in an error |
| DeployTool.Deployment.TakeLock | scripts/deploy-drained.py:208-219 | No error means the lock was free and is this run's now; it is reported as busy only while another run holds it, and then the run ends there |
| DeployTool.Deployment.Run | scripts/deploy-drained.py:222-256 | Whatever the action and whatever fails, a run only extends a valid history, so every result above applies to it, and gives the lock back; success is reported only for a durable `replaced` or `aborted`; every error has its cause in this run: a command raised, or the world showed what the error says; and a receipt in a dead end, or one that lost its drain before TERM, can be neither resumed nor aborted |
| ErrorTree.OnlyCancelsIsItsLeaves | tools/nfs-qual/main_linux.go:262-282 | The recursion holds exactly for trees whose every tip says cancellation; an empty join or a wrapper around nothing is a tip that does not |
| ErrorTree.JoinKeepsEveryLeaf | tools/nfs-qual/main_linux.go:231-259 | Joining errors keeps every tip of every part and adds none |
| CopyMachine.NudgeKeepsInv | tools/nfs-qual/main_linux.go:139-156 | Every step of the committer and of the signal keeps what relates its error, its cancellation and the open target |
| CopyMachine.TilesPartition | tools/nfs-qual/main_linux.go:201-228 | Every offset below the last window's end lies in exactly one window |
| CopyMachine.WindowsAreFew | tools/nfs-qual/main_linux.go:201-228 | k windows of a file mean (k - 1) * window <= the start of the last window <= its size |
| CopyEngine.Experiment.CopyChunk | tools/nfs-qual/main_linux.go:183-200 | Target and digest grow by the same source bytes; no error means the whole chunk, otherwise a failure is on record |
| CopyEngine.Experiment.NextChunk | tools/nfs-qual/main_linux.go:180-200 | Copies the next chunk unless cancelled; windows and ranges are left alone |
| CopyEngine.Experiment.SyncPoint | tools/nfs-qual/main_linux.go:205-224 | Under `range` the new window is submitted and the previous one waited for, also when one of the calls fails; the other policies make no range call; the window log grows by the window just closed |
| CopyEngine.Experiment.CloseWindow | tools/nfs-qual/main_linux.go:201-228 | The window is closed unless cancelled; no error means it was closed and the ranges are in step |
| CopyEngine.Experiment.CopyLoop | tools/nfs-qual/main_linux.go:173-229 | At every loop head the target is the first `written` source bytes and the digest was fed the same; on every exit the windows tile a part of the file and each range wait was for the window submitted before; no error means everything was copied; an error without failure means cancellation |
| CopyEngine.Experiment.JoinCommitter | tools/nfs-qual/main_linux.go:231-234 | The committer has finished when its error is read, so it makes no call afterwards |
| CopyEngine.Experiment.SyncAndClose | tools/nfs-qual/main_linux.go:239-255 | The run ends with the final sync, if it is made, then one close of the target and one of the source |
| CopyEngine.Experiment.Finish | tools/nfs-qual/main_linux.go:235-259 | The final sync is made only after a complete copy without close-stress; the returned tree holds exactly the failures any thread met |
| CopyEngine.Experiment.OpenSource | tools/nfs-qual/main_linux.go:104-116 | The source is open and long enough, or it is closed again and the failure is returned |
| CopyEngine.Experiment.CreateTarget | tools/nfs-qual/main_linux.go:117-125 | The target is open as well, or the source is closed again and the failure returned |
| CopyEngine.Experiment.IdentifyTarget | tools/nfs-qual/main_linux.go:126-133 | A failure closes both and is returned with the failures of the closes |
| CopyEngine.Experiment.OpenBoth | tools/nfs-qual/main_linux.go:104-134 | On every early return whatever was opened is closed once, nothing was synced, and the failure is returned |
| CopyEngine.Experiment.Run | tools/nfs-qual/main_linux.go:103-260 | On every policy and schedule: no error means the target is the first `size` source bytes, the digest saw exactly them, no cancellation was visible and a full sync followed the last write unless close-stress was set; a sync is never made on an incomplete copy; no data sync follows a close; every descriptor opened is closed once. On every run, failed or not, the windows tile at most `size` bytes and under `range` each wait is for the window submitted before, all but the last after a complete copy; and the error counts as cancellation exactly when no read, write, commit, sync or close failed |
| CopyEngine.Classified | tools/nfs-qual/main_linux.go:85-94 | The reported class is `cancelled` exactly when the error tree holds no failure |
| CopyEngine.VerdictAccounts | tools/nfs-qual/main_linux.go:256-259 | The final join keeps every failure, adds nothing but cancellation, and is nil exactly when all parts are |
| CopyEngine.CommitAccounts | tools/nfs-qual/main_linux.go:231-234 | Joining the committer's error loses no failure of the copier |
| Scheduler.Scheduler.DispatchOne | tools/curator-embed/bench-scheduler.go:39-60 | Both queues lose exactly their cancelled heads; the grant and the new state are those of the specification |
| Scheduler.Scheduler.Drain | tools/curator-embed/bench-scheduler.go:115-124 | Draining the channels only appends what they hold, in order |
| Scheduler.Scheduler.Run | tools/curator-embed/bench-scheduler.go:107-146 | The loop does exactly: take what waits, try one grant, and block only if none was made; so the tickers are heard only after a dispatch found nothing to grant |
| Scheduler.TokensStayInBuckets | tools/curator-embed/bench-scheduler.go:107-146 | Tokens stay within 10 and 4 over every history |
| Scheduler.GrantsArePaid | tools/curator-embed/bench-scheduler.go:39-60 | In any stretch of any history, grants plus the tokens left at its end are paid for by the tokens at its start and the ticks within it, for both buckets |
| Scheduler.RateIsBounded | tools/curator-embed/bench-scheduler.go:107-146 | A stretch with m master and r recommendation ticks grants at most 10 + m requests, at most 4 + r of them recommendations |
| Scheduler.ServedInOrder | tools/curator-embed/bench-scheduler.go:39-60 | What left a queue is a prefix of what was received, and the grants are a subsequence of it |
| Scheduler.GrantedAtMostOnce | tools/curator-embed/bench-scheduler.go:39-60 | Distinct requests are granted at most once, only if received, and none is both granted and queued |
| Scheduler.PriorityAndCost | tools/curator-embed/bench-scheduler.go:39-60 | A recommendation is granted only when every ordinary request received has left its queue or is seen cancelled; a cancelled head costs no token |
| Scheduler.BlockedMeansNothingToDo | tools/curator-embed/bench-scheduler.go:125-144 | The loop blocks exactly when tokens or live requests are lacking |
| Gate.Gate.Admit | tools/curator-embed/bench-scheduler.go:376-398 | Reply and new state are those of the specification |
| Gate.Gate.ReleaseCache | tools/curator-embed/bench-scheduler.go:400-407 | Panics exactly without a reader, and then changes nothing |
| Gate.Gate.ReleaseJoin | tools/curator-embed/bench-scheduler.go:409-416 | Panics exactly without a joiner, and then changes nothing |
| Gate.Gate.Finish | tools/curator-embed/bench-scheduler.go:418-428 | Panics exactly for a query that is not running, and then changes nothing |
| Gate.CountersAreOutstanding | tools/curator-embed/bench-scheduler.go:367-428 | After every history the counters are exactly what the replies left outstanding: at most one cold query, attached = 1 + joins <= 4 or 0, readers <= 2, and the cache holds what successful finishes stored |
| Gate.CountersAreCounts | tools/curator-embed/bench-scheduler.go:376-428 | The same counted from the calls and replies alone: one more cold reply than finishes while running, attached = 1 + joined - left since the last cold reply, readers = cache replies - releases, and a key is stored by the last word on it |
| Gate.PanicsExactlyOnMisuse | tools/curator-embed/bench-scheduler.go:400-428 | A panic is reached if and only if a caller ends what it does not hold |
| Gate.AdmissionIsSound | tools/curator-embed/bench-scheduler.go:376-398 | Each reply is justified by what is outstanding: cold only when nothing runs and the key is not stored, cache only if stored, 429 only at a cap or behind another query |
| Ndcg.DescendingIsBest | tools/curator-embed/evaluate-m0c-freeze.py:40-48 | The rearrangement bound: under any positive discount that never grows, no selection from a descending list has more gain than the list itself |
| Ndcg.DcgAt10IsDcg | tools/curator-embed/evaluate-m0c-freeze.py:40-42 | Summing the first ten terms equals the recursive sum with the discount cut off at ten |
| Ndcg.SortedDescends | tools/curator-embed/evaluate-m0c-freeze.py:48-49 | `sorted(reverse=True)` is in descending order, a permutation of its input |
| Ndcg.GradesOfSelection | tools/curator-embed/evaluate-m0c-freeze.py:45-49 | A duplicate-free order drawn from a selection has a sub-multiset of its grades |
| Ndcg.ObservedBelowIdeal | tools/curator-embed/evaluate-m0c-freeze.py:45-49 | The observed gain lies between 0 and the ideal of the selection |
| Ndcg.IdealGrows | tools/curator-embed/evaluate-m0c-freeze.py:48-49 | A larger pool has at least the ideal of a selection from it |
| Ndcg.NdcgIsARatio | tools/curator-embed/evaluate-m0c-freeze.py:45-58 | 0 <= ndcg_full <= ndcg_selected <= 1 for all grades, discounts, orders and selections |
| Ndcg.BestOrderScoresOne | tools/curator-embed/evaluate-m0c-freeze.py:45-58 | Any order of the selection with descending grades scores exactly 1 |
| Evaluation.SeedPool | tools/curator-embed/evaluate-m0c-freeze.py:102-104 | The pool is the first 60 of the merged pages without the seed; fewer than three pages raise |
| Evaluation.SeedPoolHolds | tools/curator-embed/evaluate-m0c-freeze.py:102-104 | The pool never holds the seed, an id twice or an id from elsewhere, and at most 60 ids |
| Evaluation.SeedPoolLosesIff | tools/curator-embed/evaluate-m0c-freeze.py:102-104 | An id is missing although there was room exactly when the first two pages hold more than 60 distinct ids, the seed is among the first 60 of them, and the third page adds nothing new |
| Evaluation.SmallPagesLoseNothing | tools/curator-embed/evaluate-m0c-freeze.py:102-104 | So nothing is lost when the first two pages have at most 60 rows together |
| Evaluation.LossIsPossible | tools/curator-embed/evaluate-m0c-freeze.py:102-104 | The situation exists: 61 rows with the seed first |
| Evaluation.RankedIsASelection | tools/curator-embed/evaluate-m0c-freeze.py:299-358 | For every admission test and sort key, a ranking holds exactly the admitted part of the selection, each id once |
| Evaluation.ReportedScoresAreRatios | tools/curator-embed/evaluate-m0c-freeze.py:290-378 | So every score reported for such a ranking is a ratio, with at most as many suitable as returned |
| Fusion.FillPositions | tools/curator-embed/evaluate-m0c-freeze.py:83-90 | The nested dictionary holds, for each id and lane, the best rank of any page, and no other entry |
| Fusion.SumRanks | tools/curator-embed/evaluate-m0c-freeze.py:91-91 | Adding up a lane dictionary in whatever order gives the sum over its lanes |
| Fusion.ListRrf | tools/curator-embed/evaluate-m0c-freeze.py:83-91 | Succeeds exactly when every id occurs on some page, and then gives each id the fusion score |
| Fusion.SeedRrf | tools/curator-embed/evaluate-m0c-freeze.py:107-117 | The same with lanes read from the page path, where several pages share a lane |
| Fusion.BestIsLeast | tools/curator-embed/evaluate-m0c-freeze.py:83-90 | The rank kept is the least absolute rank of the id in the lane, capped by the sentinel |
| Fusion.BestIgnoresOrder | tools/curator-embed/evaluate-m0c-freeze.py:83-90 | It does not depend on the order of the pages nor on repeated pages |
| Fusion.SumInAnyOrder | tools/curator-embed/evaluate-m0c-freeze.py:91-91 | The sum over lanes can start with any lane |
| Fusion.ScoreIgnoresOrder | tools/curator-embed/evaluate-m0c-freeze.py:83-117 | The fusion score of an id is the same for every order in which pages are processed |
| Fusion.WorseRankIsIgnored | tools/curator-embed/evaluate-m0c-freeze.py:107-117 | A further page of a lane that ranks the id no better leaves its score unchanged |
| Sequences.UniqueIsASet | tools/curator-embed/freeze-corpus-candidates.py:16-17 | `unique` keeps exactly the elements, each once, as a subsequence |
| Sequences.UniqueOrder | tools/curator-embed/freeze-corpus-candidates.py:16-17 | and in the order of first occurrences |
| Candidates.Interleave | tools/curator-embed/freeze-corpus-candidates.py:20-28 | The loops leave both lists read in turns without repetition, cut where an append first reaches the limit |
| Candidates.InterleavePages | tools/curator-embed/freeze-corpus-candidates.py:31-40 | The same for any number of pages; no page at all raises |
| Candidates.MergedMembers | tools/curator-embed/freeze-corpus-candidates.py:20-40 | Without a limit the merge holds exactly the ids of all lanes, each once |
| Candidates.LargerLimitExtends | tools/curator-embed/freeze-corpus-candidates.py:20-40 | The result for a smaller limit is a prefix of that for a larger one and as long as the ids allow |
| CombinedPaths.CombinedPaths | tools/curator-embed/freeze-corpus-candidates.py:43-61 | The loops terminate and leave the paths of the specification |
| CombinedPaths.PathsShareTheSlots | tools/curator-embed/freeze-corpus-candidates.py:43-61 | The paths are disjoint, each a subsequence of its source that extends its first rows, and together hold min(60, number of distinct ids) |
| CombinedPaths.FillKeepsGood | tools/curator-embed/freeze-corpus-candidates.py:49-60 | Filling keeps this shape and ends with 60 ids or with every id placed |
| Combined.Combined | tools/curator-embed/freeze-corpus-candidates.py:69-85 | For limits 1 to 28 the loop leaves the candidates of the specification; other limits fail |
| Combined.CombinedPool | tools/curator-embed/freeze-corpus-candidates.py:64-66 | The pool of the specification |
| Combined.SortIsOrdered | tools/curator-embed/freeze-corpus-candidates.py:72-74 | The theme path is ordered by score, merge position and id, and is a permutation |
| Combined.MergeCoversThePaths | tools/curator-embed/freeze-corpus-candidates.py:69-85 | Quota and remainder together hold exactly the pool, each id once, the quota first |
| Combined.EveryLimitIsAPrefix | tools/curator-embed/freeze-corpus-candidates.py:69-85 | The result for every limit k is the first k of the result for 28, within the pool, of length min(k, number of distinct ids) |
| Combined.FullQuotaIsHalfAndHalf | tools/curator-embed/freeze-corpus-candidates.py:75-77 | With fourteen ids on both paths the 28 candidates are exactly fourteen of each |
| Utf8.FittingIsLongest | tools/curator-embed/seed_topic.py:13-16 | The specification: that many characters fit into the limit, and no longer prefix does |
| Utf8.PrefixIsLongestFitting | tools/curator-embed/seed_topic.py:13-16 | Cutting the encoding at any byte and decoding with errors ignored gives exactly the longest prefix that fits |
| Utf8.DecodeEncode | tools/curator-embed/seed_topic.py:13-16 | Decoding an encoding gives the string back |
| Utf8.DecodingNeverGrows | tools/curator-embed/seed_topic.py:13-16 | For arbitrary bytes, dropping what is malformed never makes the encoding longer |
| Utf8.HeadOfEncoding | tools/curator-embed/seed_topic.py:13-16 | The decoder reads back each encoded character and goes on right behind it |
| SeedTopic.SummaryFits | tools/curator-embed/seed_topic.py:19-21 | A summary exists exactly for an overview that is not blank; it is a non-empty prefix of the stripped text within the cap |
| SeedTopic.SelectedKeywords | tools/curator-embed/seed_topic.py:83-93 | The list building leaves the selection of the specification |
| SeedTopic.SelectionIsBounded | tools/curator-embed/seed_topic.py:83-93 | The selection holds only the row's keywords, each once, and as many as fit into 16 |
| SeedTopic.TopicKeywordsSurvive | tools/curator-embed/seed_topic.py:83-93 | Keywords named by the chosen topic's aliases are never crowded out when it has at most 16 aliases |
| SeedTopic.ProviderText | tools/curator-embed/seed_topic.py:106-114 | The internal assertion never fails |
| SeedTopic.ProviderTextFits | tools/curator-embed/seed_topic.py:106-114 | For every row and topic the text has at most 8192 bytes, and its synopsis is the longest prefix of the overview for which that holds |
| Lifecycle.StepKeepsInv | internal/api/lifecycle.go:14-76 | Every step of every thread keeps both wait groups equal to their unfinished tasks, tokens live exactly while held, and the shutdown stages consistent |
| Lifecycle.ClosingIsTheEnd | internal/api/lifecycle.go:14-76 | Once `closing` is set no step of any interleaving increments a wait group or adds a task |
| Lifecycle.JoinIsStable | internal/api/lifecycle.go:27-32 | When `Wait` returned there is no handler, no background job and no token of either, and so it stays after every continuation |
| Lifecycle.QuietStaysIffClosing | internal/api/lifecycle.go:27-32 | Two empty wait groups stay empty if and only if `closing` is set, so `BeginShutdown` has to come first |
| Lifecycle.ReleasedOnceBeforeDone | internal/api/lifecycle.go:59-76 | In every run an admission is released at most once, exactly once when its thread is through, and always before its `Done` |
| Lifecycle.CounterIsPositive | internal/api/lifecycle.go:34-52 | `Done` never takes a wait group below zero |
| Lifecycle.ClosedAdmitsOnlyChildren | internal/api/maintenance.go:62-76 | After `Close` no request is admitted, and background work only under a parent token that is still live |
| Lifecycle.Server.Track | internal/api/lifecycle.go:34-43 | The locked section refuses when closing and otherwise counts the handler |
| Lifecycle.Server.ServeAdmitted | internal/api/maintenance.go:62-76 | A read-only operation takes no token; a mutation is served exactly when it got one, and has released it when it returns |
| Lifecycle.Server.ServeHTTP | internal/api/lifecycle.go:34-52 | After closing every request is refused; a request let in has left its wait group when it returns, amid any steps of others |
| Lifecycle.Server.StartBackgroundFrom | internal/api/lifecycle.go:59-76 | Starts nothing after closing; refuses only when closing or cancelled or because admission was asked for and refused; a started job holds a token and is counted when the lock is given back |
| Lifecycle.Server.Background | internal/api/lifecycle.go:74-74 | The goroutine releases its token, then leaves the wait group |
| Lifecycle.Server.BeginShutdown | internal/api/lifecycle.go:14-21 | Afterwards admission is closed, `closing` is set and the background context is cancelled, amid any steps of others |
| Lifecycle.Server.Wait | internal/api/lifecycle.go:27-32 | Returning means nothing of the server is left; it goes on waiting only while a wait group is not empty |
| RunPattern.PatternFindsExactlyTheNames | scripts/ci-go-shard.py:39-39 | Whatever characters the names hold, reading the escaped alternation back as a regular expression finds exactly the listed names, whole |
| RunPattern.SentinelFindsNothingElse | scripts/ci-go-shard.py:39-39 | The pattern of an empty selection finds only the sentinel |
| Shard.SelectionsPartition | scripts/ci-go-shard.py:36-38 | For every inventory, hash and shard count the selections partition the tests |
| Shard.PatternRunsExactlyTheSelection | scripts/ci-go-shard.py:35-39 | Among the inventoried tests the one global pattern runs exactly the shard's selection, also where packages share test names |
| Shard.RunShard | scripts/ci-go-shard.py:28-48 | A shard succeeds exactly when the inventory is not empty, every `run` event names a test, and the tests that began and the tests that ended are both the selection; its folder then records exactly that |
| Shard.HonestRunsArePlanned | scripts/ci-go-shard.py:39-46 | A go tool that runs what the pattern finds always meets the plan |
| ShardMerge.AddProfile | scripts/ci-go-shard.py:71-78 | The line loop accepts exactly readable, non-negative lines that agree on every block, and then the table holds each block's statements and all its hits |
| ShardMerge.CheckFolder | scripts/ci-go-shard.py:59-70 | The checks before the loop pass exactly for a folder that fits in with those before it |
| ShardMerge.Merge | scripts/ci-go-shard.py:51-83 | Accepts exactly what may be merged: right provenance, one source, every selection executed, no overlap, agreeing atomic profiles, the whole inventory, this checkout; the output then has every block once, in order, with its statements and all its hits, and the same hits in total |
| ShardMerge.RenderMerges | scripts/ci-go-shard.py:83-83 | Writing the table out sorted loses and adds no hit, at any location or in total |
| ShardMerge.AcceptedMeansAllRanOnce | scripts/ci-go-shard.py:51-83 | If the merge accepts, every test of the inventory was executed in exactly one shard and nothing else was, and every block's hits are the sum over the shards |
| ShardMerge.HonestShardsMerge | scripts/ci-go-shard.py:28-83 | End to end: with a go tool that runs what the patterns find and profiles that agree, the merge of all shards is accepted |
| Text.ReadPrinted | internal/domain/wantable.go:14-22 | A printed integer reads back as itself |
| Text.SplitJoin | mobile/src/metadataPreview.ts:17-18 | Splitting joined fields without colons gives the fields back |
| Wantable.ReadPrintedID | internal/domain/wantable.go:102-105 | Every identity string of the four kinds can be read back, over all integers |
| Wantable.IdentitiesNeverCross | internal/domain/wantable.go:14-22 | Identity strings are equal exactly for the same kind, item, season, episode and copy |
| SearchPlan.PlanIDs | internal/domain/wantable.go:407-429 | The identifier queries are those of the usable references, in provider order |
| SearchPlan.PlanVideoSearch | internal/domain/wantable.go:377-471 | The loop with its `seen` map leaves the canonical query and the preferred aliases' texts, first occurrences only; a book gets an empty plan |
| SearchPlan.PlanSearch | internal/domain/wantable.go:475-495 | A video search is the canonical query alone; a book search ends with the title alone and keeps the book type |
| SearchPlan.CanonicalComesFirst | internal/domain/wantable.go:406-406 | The first title is the canonical query |
| SearchPlan.TitlesAreExact | internal/domain/wantable.go:447-469 | Title texts are pairwise distinct and are exactly the canonical text and what the searchable, work-scoped, named aliases render to |
| Sorting.StableSortSorts | internal/domain/wantable.go:440-446 | A stable sort by an order with ties is in order; its contract says it is a permutation |
| Sorting.StableSortIsStable | internal/domain/wantable.go:440-446 | and keeps the order of what ties |
| SearchPlan.TitlesFollowPreference | internal/domain/wantable.go:430-446 | Later titles come in the order of their best aliases: manual, original, others, then lower-cased title |
| SearchPlan.QueriesKeepTheWork | internal/domain/wantable.go:406-469 | Every query keeps the canonical kind, season and episode fields; identifier queries carry a usable value and never a series provider for a movie |
| PreviewKey.ParseIsPrintInverse | mobile/src/metadataPreview.ts:15-22 | The parser accepts exactly the printed forms of well-formed references and gives their parts back, so every accepted key re-prints to itself |
| PreviewKey.PrintedKeyWorks | mobile/src/metadataPreview.ts:6-28 | Every key printed for an item parses, makes a query and matches that item |
| PreviewKey.AcceptedKeyIsPrinted | mobile/src/metadataPreview.ts:6-22 | Every accepted key is the key of some item |
| PreviewKey.KeysNameDistinctIdentities | mobile/src/metadataPreview.ts:15-22 | Accepted keys and the identities they name correspond one to one |
| PreviewKey.MatchIsUnique | mobile/src/metadataPreview.ts:60-65 | An item matches at most one key of each provider |
| PreviewKey.QueriesAreDistinct | mobile/src/metadataPreview.ts:24-28 | Different keys never share a request, and the identifier needs no escaping |

## Left out

- Lifecycle.Server.Wait: blocks in the source; here a call that is still waiting returns false, because termination depends on the handlers.
- ShardMerge.Merge: states exactly when the merge is accepted, not which of several faults is reported first.
- Maintenance.Coordinator.TryEnter: token ids are unbounded here; the 64-bit counter's wrap-around is not modelled. The blocking `Enter` and the times in the status are left out.
- Maintenance.Coordinator.StartDrain: owner tokens and their digests are compared as abstract values, and random generations are an argument.
- DeployTool.Deployment.WaitUntilDrained: like the source it does not compare the generation on the final `drained` status.
- DeployTool.Deployment.VerifyDaemonAndService: the daemon is one fixed daemon, so its identity is not compared, and a service has at most one container; scaled services and several container ids are not modelled.
- DeployTool.Host.Issue: an effect of a command that timed out happens before the next command of the run and before the lock is free again, or never, not later.
- The deployment tool's file handling (symbolic links, modes, fsync, the lock file), its argument parsing, its phase times and its exit timing fields.
- The copy's events and progress ticker, and `sync_file_range` flags beyond start and wait.
- `acquire`, real tickers and channel capacities of the scheduler: requests and ticks are events.
- Page numbers below 1 in the rank fusion, rounding and `p_at_10` in the metrics, and the concrete logarithm.
- Fusion scores, discounts and sort keys are exact numbers; floating-point rounding is not modelled.
- The frozen alias tables, regular expressions and case folding of the seed topics, and lower-casing in search plans: parameters or left out.
- The provider text's input is assumed to be Unicode scalar values; lone surrogates, on which Python's encoder raises, are not.
- Line splitting and number parsing of coverage profiles, JSON and digests in the sharding script: already decoded values and abstract functions.
- Regular expressions beyond what escaped names produce, and the splitting of `-run` patterns at `/`, which no pattern here contains.
- Request contexts, event streams and the second shutdown stage of the server: cancellation is a free choice of the environment.
- The other methods of wantables (quality, on-disk, audio) and `externalLinks`: they play no part in identities, plans or keys.
- Handlers, screens, storage, acquisition, quality and matcher packages.
