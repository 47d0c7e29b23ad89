# The gated merge protocol of codeband, modelled and proved in Dafny

codeband lets language-model agents write, review and merge code while plain
code enforces the protocol: a per-subtask state machine over an append-only,
hash-chained log whose verdict rows are pinned to a commit SHA; the `cb-phase`
legs that drive it; a merge leg that may only land a commit that was verified,
reviewed and granted at exactly that SHA; and a watchdog that patrols all of
it. This project models that protocol and proves what it promises for every
run: interleaved agents, humans, pushes, crashes and patrols.

`dafny verify dfyconfig.toml` checks the whole project.

## Layout

| file | models |
|---|---|
| `Fsm.dfy`, `StateStore.dfy` | the transition table, the merge gate and the one mutation path, as functions; the store as an object whose methods are proved against them |
| `Gate.dfy`, `History.dfy` | what the gate means; what every reachable store keeps |
| `Answers.dfy` | what a call is answered, what the gate, the rows and the audit trail hold, told by the run that led to the store |
| `MergeLeg.dfy`, `MergeCommand.dfy` | `cb-phase merge` as a machine of atomic actions, and as the program's own sequence of statements, proved to end where the machine ends |
| `MergeOutcome.dfy` | where an undisturbed merge leg leaves the subtask, told from the store and the pull request it began with |
| `CrashRecovery.dfy` | stopping the merge leg at any points and re-running it |
| `Interleaving.dfy`, `MergedHead.dfy` | any number of merge legs and approvals against an adversarial world; which commit a leg records after a failed merge command |
| `Racing.dfy`, `Approvals.dfy` | a second merge leg on a step already recorded; the approval command as events and as one pass, proved to do the same |
| `Handoff.dfy`, `LegRuns.dfy` | the coder, reviewer, verifier and conductor legs; runs made of legs only |
| `VerifyRecovery.dfy` | stopping the verify leg at any point and re-running it |
| `Registration.dfy` | task registration and its crash prefixes |
| `ChainIntegrity.dfy` | the hash chains, the incremental patrol and the full sweep |
| `PageWalk.dfy`, `NudgePatrol.dfy` | the watchdog's recency probe and nudges |
| `RoomSignals.dfy` | an agent's clocks told from the messages of the room |
| `SilentAgent.dfy` | what the nudges do for an agent that stopped answering, read through the patrol's window |
| `StallPatrol.dfy`, `StallOutcomes.dfy` | the watchdog's stall counter, re-nudge rungs and drift; what they achieve over runs |
| `StallReads.dfy` | what kind each patrol is, told from the reads of the run; what a patrol writes to the store |
| `MemoryLog.dfy`, `MemoryPages.dfy` | the local memory file under concurrent writers; what its listings return |
| `Witnesses.dfy`, `OvertakenMerge.dfy` | concrete runs, from an empty store, in which a documented promise fails |

Objects the program updates in place are classes (`Store`, `PullRequests`,
`Workspace`, `LedgerWatch`, `StallWatch`, `NudgeWatch`, `LocalMemoryStore`);
every method equals a function of the old state, and the theorems are about
those functions.

## Where the code differs from its documentation

Each is proved, and the exact condition under which it shows is named.

1. A rejected transition is documented to write nothing
   (src/codeband/state/fsm.py:414-416). `ensure_subtask` commits on its own
   first, so a rejection on an unseen subtask id leaves a `planned` row
   (`History.RejectionIsSilentIff`), and that row then keeps an otherwise
   finished task open (`History.LeftoverHoldsTaskOpen`; a run:
   `Witnesses.RejectedCallHoldsTaskOpen`).
2. Re-running an interrupted merge leg is documented to reconcile
   (src/codeband/cli/merge.py:562-574). It does, from every start except one:
   about to queue, with the PR already merged at a head that passes the gate and
   that an old grant still names. Then an undisturbed run blocks and a crashed
   one records `merged` (`CrashRecovery.CrashConvergesIff`; a reachable store:
   `Witnesses.HazardExample`).
3. On the post-failure path the head recorded as merged is the one seen at the
   second look; it is the granted one exactly when the PR's head is then what it
   was at the first look, and if not, somebody outside the tool moved it in
   between (`MergedHead.PostFailureRecordsGrantIff`; a run:
   `OvertakenMerge.PostFailureExample`).
4. The review-round cap is a cap on re-entering work. The counter passes
   `max(cap, 1)` exactly when a subtask is resumed while it stands there and
   fails review again (`History.PassesCapIff`). It never passes `max(cap, 1)`
   plus the number of resumes (`History.ReviewRoundsCapped`), and for any caps and
   any number of resumes some run reaches just that (`History.ReviewBoundIsReached`).
5. A registration cut off between the rows and the pointer is repaired by
   registering the same room again, but a third room registered first leaves two
   active tasks (`Registration.CutOffThenThirdRoom`, exact condition in
   `Registration.OneActiveIff`).
6. After a lost tip the incremental patrol trusts the new tip unverified, so it
   falls silent while the full sweep still reports
   (`ChainIntegrity.SecondPatrol`, exact agreement in
   `ChainIntegrity.AgreesIffPrefixVerifies`).
7. History beyond the five newest pages is documented as unable to change a
   recency verdict (src/codeband/agents/watchdog.py:470-473). It can, for an
   agent whose only signals in the window lie there
   (`NudgePatrol.RecencySurvivesIff`; a room: `NudgePatrol.NoisyRoomHidesAgent`).
8. A nudge mentions the agent, and mentions count as activity. While patrols
   follow each other within the staleness threshold, an agent that stopped
   answering is confirmed alive by each nudge's own mention, so it is never
   escalated. A patrol nudges it again only at a mention both a suppression
   period old and still inside the read window, which is twice the largest
   threshold (`SilentAgent.NudgedIff`); once the mention has left the window the
   agent is skipped for good (`SilentAgent.ForgottenForGood`). That window is
   documented to need no older records, as whoever was last active before it "is
   definitely stale" (src/codeband/agents/watchdog.py:549-551): such an agent is
   not treated as stale but not looked at. With a suppression period longer than
   the window the first nudge is the last (`SilentAgent.NudgedOnce`); the two are
   equal by default, so there a second nudge takes a patrol at that very moment
   (a run of any length: `SilentAgent.DefaultsNudgeOnce`). The agent is nudged for
   ever when the window holds a cooldown and one patrol more
   (`SilentAgent.NudgedForever`). In general: `NudgePatrol.EscalatesIff`.
9. The stall baseline follows the newest read even back in time, so on a subtask
   on which nothing changes, but whose PR carries the newer time, every recovery
   of a failed PR read counts as progress
   (`StallOutcomes.FrozenAttemptIff`); one whose PR read fails on every other
   patrol is never escalated (`StallOutcomes.FlappingIsNeverNoticed`).
10. The backstop releases a patrol to the stall counter only at its cap
    (src/codeband/agents/watchdog.py:1183-1187), and only delivered re-nudges
    count: while none can be delivered, a hung merge is never escalated
    (`StallOutcomes.UndeliverableIsNeverNoticed`, exact condition in
    `StallOutcomes.HandsOverIff`). The acceptance rung is the same.
11. `archive` returns the record it archived, but compaction may drop that very
    record at once (`MemoryLog.JustArchivedStaysIff`; a file:
    `MemoryLog.ArchiveDropsItsOwnRecord`).
12. verify is documented to persist the PR binding the moment it is proven
    (src/codeband/cli/handoff.py:1113-1119). The binding is a commit of its own
    after the record, so a run stopped between the two is in review without it,
    and a second run is refused rather than binding
    (`VerifyRecovery.RerunConvergesIff`).
13. A subtask whose granted head moved is documented to be routed to
    `needs_rebase` (src/codeband/agents/watchdog.py:1114-1122). The patrol does so
    under the default rebase cap and returns before the stall counter: with the
    default rounds used up the subtask stays in `merge_pending` through any number
    of patrols, is never counted and never escalated
    (`StallOutcomes.DriftStrandsIff`).

## Model

| member | source | states |
|---|---|---|
| `StateStore.Store.EnsureSubtask` | src/codeband/state/store.py:919-950 | inserts a `planned` row with zero counters if there is none, and changes nothing else |
| `StateStore.Store.QueryShas` | src/codeband/state/fsm.py:231-238 | finds exactly the SHAs some row of the subtask entered the state with |
| `StateStore.Store.EvaluateMergeEligibility` | src/codeband/state/fsm.py:166-256 | the reason loop decides exactly what the design asks: the explicit `[]`, or every leg passed at exactly this head |
| `StateStore.Store.CheckTransition` | src/codeband/state/fsm.py:487-554 | table, no-op rule, both caps and the gate in the program's order, reading only |
| `StateStore.Store.WriteTransition` | src/codeband/state/fsm.py:556-619 | state, counters, one log row and task completion, as one new store |
| `StateStore.Store.Transition` | src/codeband/state/fsm.py:397-623 | the whole call is one step of the value-level transition every theorem below is about |
| `StateStore.Store.MergePendingSha` | src/codeband/cli/merge.py:273-291 | the SHA read back is that of a recorded row into `merge_pending`, and of the newest |
| `StateStore.Store.SetPrNumber` | src/codeband/state/store.py:993-1014 | binds the PR on an existing row and always leaves an audit row |
| `StateStore.Store.IncrementVerifyAttempts` | src/codeband/state/store.py:967-991 | adds one attempt to an existing row, nothing else |
| `StateStore.Store.MarkMergeApprovalRequested` | src/codeband/state/store.py:1085-1109 | sets the request marker and audits it |
| `StateStore.Store.RecordMergeApproval` | src/codeband/state/store.py:1050-1083 | sets the grant and audits it |
| `StateStore.PendingShaIsRow` | src/codeband/cli/merge.py:273-291 | a queue SHA never comes from anything but a `merge_pending` row of that subtask |
| `Gate.EligibleIffGatePasses` | src/codeband/state/fsm.py:198-256 | eligible iff the task exists and its snapshot is `[]`, or the head is pinned and every required leg has a row at exactly that head |
| `Gate.NoReasonsIff` | src/codeband/state/fsm.py:221-256 | no reason is produced iff every leg passed at this head; every failing leg is named |
| `Gate.GateMonotone` | src/codeband/state/fsm.py:198-256 | for a fixed snapshot, appended rows never close an open gate |
| `Gate.PlainPathRuns` | src/codeband/state/fsm.py:289-363 | a path of table edges that meets no cap and no gate applies step by step and leaves every row on the log |
| `Gate.QueueAppliesIff` | src/codeband/state/fsm.py:538-554 | from both pre-merge states the queue edge applies iff the gate passes: there is no way round it |
| `Gate.ReearnCuresIff` | src/codeband/cli/merge.py:637-670 | the legal rework path from `needs_rebase` that re-records each leg at the head opens the gate there iff the head is pinned and every required leg is known |
| `Gate.ShaShapedIsCurable` | src/codeband/cli/merge.py:637-670 | every refusal the merge leg classes as SHA-shaped is cured by that rework |
| `Answers.RetryAfterAnything` | src/codeband/state/fsm.py:487-503 | an applied SHA-pinned call issued again after any later operations is a no-op exactly when the table no longer allows it and the subtask is not in `needs_rebase`, `review_failed` or `blocked`; in those it is illegal |
| `Answers.AnswerIff` | src/codeband/state/fsm.py:473-554 | in every reachable store, for each answer the exact condition in terms of the run: the table, what earlier calls recorded, the failed reviews and send-backs on the log against the caps, the gate |
| `Answers.RowsAreRecorded` | src/codeband/state/fsm.py:556-599 | the log holds a row into a state at a SHA iff some call of the run applied that transition at that SHA |
| `Answers.GateMeans` | src/codeband/state/fsm.py:198-256 | in every reachable store the gate is open iff the task is known and either asks explicitly for no verdict, or each verdict it asks for - verify and review without a snapshot - was given at this head by the role it belongs to |
| `Answers.MarksAreLastWritten` | src/codeband/state/store.py:967-1109 | the binding, attempt count, grant and request of a row are those last written since it was there; no transition touches them |
| `Answers.AuditIsComplete` | src/codeband/state/store.py:993-1109 | the audit trail is exactly the bindings, requests, grants and reports of the run, in order |
| `Answers.AtDefaultCaps` | src/codeband/state/fsm.py:77-90 | at the default caps at most three send-backs, and six failed reviews plus one for each resume |
| `History.RunKeepsInv` | src/codeband/state/fsm.py:475-619 | in every reachable store each row's state and counters are those of its own log, which is a legal path from `planned` |
| `History.PathConnected` | src/codeband/state/fsm.py:477-503 | each log row starts where the one before ended, by an allowed edge |
| `History.RebaseRoundsCapped` | src/codeband/state/fsm.py:527-531 | entries into `needs_rebase` never exceed the cap |
| `History.ReviewRoundsCapped` | src/codeband/state/fsm.py:505-519 | entries into `review_failed` are at most max(cap, 1) plus resumes, and at that bound the subtask rests |
| `History.PassesCapIff` | src/codeband/state/fsm.py:505-519 | the count passes max(cap, 1) iff a resume taken while it stood there was followed by another failed review |
| `History.ReviewBoundIsReached` | src/codeband/state/fsm.py:362-573 | under any caps and for every number of resumes some run reaches the bound exactly |
| `History.PathIsRun` | src/codeband/state/fsm.py:289-583 | every legal path within the caps is the log of some run, so the characterisation of reachable logs is exact |
| `History.CountersAreCapped` | src/codeband/state/fsm.py:505-583 | durable counters equal the log's row counts and respect those bounds, in every reachable store |
| `History.StepUsesPotential` | src/codeband/state/fsm.py:289-394 | every step but the watchdog's re-block uses up potential; a resume buys back seven |
| `History.RunsAreBounded` | src/codeband/state/fsm.py:289-394 | re-blocks aside, a subtask's log has at most 9 + 7(R + B + resumes) rows whatever the actors do |
| `History.EveryWayIn` | src/codeband/state/fsm.py:289-394 | the table and both wildcards read backwards: exactly which role may bring a subtask into each state, and from where |
| `History.QueuedAfterOneLap` | src/codeband/state/fsm.py:289-394 | a subtask in `merge_pending`, gated or not, has just made one uninterrupted verified and reviewed lap |
| `History.TransitionIsLocal` | src/codeband/state/fsm.py:556-619 | a transition changes its own row, one log row, and at most its own task from active to completed when all its rows are merged |
| `History.CompletesIffLast` | src/codeband/state/fsm.py:600-619 | merging completes the task iff it was active and every other subtask was merged |
| `History.AbandonedSiblingNeverCompletes` | src/codeband/state/fsm.py:600-619 | once a sibling of an active task is abandoned, no later run completes the task |
| `History.RejectionIsSilentIff` | src/codeband/state/fsm.py:473-503 | a rejection leaves the store as it was iff the row existed or the task does not |
| `History.LeftoverHoldsTaskOpen` | src/codeband/state/fsm.py:473-619 | merging the last subtask completes its task, but no longer after any rejected call on an id of that task without a row |
| `Witnesses.RejectedCallHoldsTaskOpen` | src/codeband/state/fsm.py:473-619 | a reachable store in which that happens |
| `History.CapLeavesEscape` | src/codeband/state/fsm.py:505-531 | whoever a cap turns away may move the same subtask to `blocked` |
| `History.RetryIsNoOp` | src/codeband/state/fsm.py:487-503 | repeating an applied SHA-pinned call writes nothing and reports so, except into rework states |
| `History.NoDeadEnd` | src/codeband/state/fsm.py:366-394 | exactly the terminal states expect no actor; from every other state an expected actor has an edge nearer to merged |
| `MergeLeg.StepGoesAhead` | src/codeband/cli/merge.py:478-915 | every invocation ends: each action leaves fewer ahead |
| `MergeCommand.CmdMerge` | src/codeband/cli/merge.py:478-915 | the command ends in exactly the store, world and exit at which the machine of atomic actions ends |
| `MergeCommand.MergeBound` | src/codeband/cli/merge.py:547-693 | snapshot, reconcile and gated queueing, against the machine |
| `MergeCommand.MergeQueued` | src/codeband/cli/merge.py:686-805 | SHA re-check, open check, grant check and conflict check, against the machine |
| `MergeCommand.AwaitApproval` | src/codeband/cli/merge.py:758-786 | the request marker is burned only after the request was sent |
| `MergeCommand.ExecuteMerge` | src/codeband/cli/merge.py:804-915 | pinned execution and the classification after a failure, against the machine |
| `MergeCommand.NeedsRebaseOrBlocked` | src/codeband/cli/merge.py:420-475 | send-back below the rebase cap, escalation at it |
| `MergeCommand.TransitionOrFail` | src/codeband/cli/merge.py:390-412 | an already recorded transition counts as done, any other rejection fails |
| `MergeCommand.PullRequests.Merge` | src/codeband/cli/merge.py:207-231 | only an open PR whose head is the pinned commit can be merged, whatever gh reports |
| `MergeCommand.RecordApprovalGrant` | src/codeband/cli/merge.py:951-1095 | recorded iff some unfinished row bound to the PR requested the live head; then exactly those rows are granted, at the requested SHA; each refusal has its own exact condition and records nothing |
| `MergeCommand.GrantEach` | src/codeband/cli/merge.py:1068-1095 | each matching row gets its own requested SHA; others are untouched |
| `MergeOutcome.BeginsIff` | src/codeband/cli/merge.py:478-534 | an invocation gets as far as the pull request exactly on a subtask ready to merge whose row and arguments agree on one; any other start writes nothing and says what was wrong |
| `MergeOutcome.Unreadable` | src/codeband/cli/merge.py:540-559 | on a pull request that cannot be read nothing is decided |
| `MergeOutcome.FoundMerged` | src/codeband/cli/merge.py:575-635 | a queued subtask whose pull request is found merged is recorded at its grant, or reported and blocked |
| `MergeOutcome.RefusedShapedIff` | src/codeband/cli/merge.py:637-670 | a gate refusal is one that rework at this head cures iff there is a head and every required leg is known and passed at some commit |
| `MergeOutcome.RefusedFromStartIff` | src/codeband/cli/merge.py:637-680 | from the beginning of the invocation: a refused subtask ends in `needs_rebase` - in `blocked` at the rebase cap - iff that is so; otherwise rows and log are as before, and the exit says so |
| `MergeOutcome.QueuedFate` | src/codeband/cli/merge.py:686-915 | from the queue on: merged, sent back, blocked or waiting for its grant, with rows, log, pull request and exit, from the queued SHA, the grant, the pull request and the answer of the merge command |
| `MergeOutcome.MergeEndsIff` | src/codeband/cli/merge.py:478-915 | for the whole invocation the exact condition of each end, and of the pull request being merged by it, read off the store and pull request it began with |
| `Racing.SecondRecord` | src/codeband/cli/merge.py:390-412 | after any operations, a second leg recording the merge at the same commit counts it as done and writes nothing; at another commit it is rejected |
| `Racing.SecondQueue` | src/codeband/cli/merge.py:637-693 | a second leg queueing at a head already queued goes on to the checks of a queued subtask, unless the subtask left for rework |
| `Approvals.ApprovalGrantsRequested` | src/codeband/cli/merge.py:1048-1095 | the approval as interleavable events, left alone, grants exactly the rows the program's own pass grants, in any order |
| `CrashRecovery.CrashConvergesIff` | src/codeband/cli/merge.py:478-915 | for all crash points and any number of crashes the re-run ends in the same rows, counters, bindings, markers, tasks, log and PRs as an undisturbed run, iff it does not start in the hazard |
| `CrashRecovery.ConvergesStep` | src/codeband/cli/merge.py:575-915 | every single action keeps convergence; queueing does unless the hazard holds |
| `CrashRecovery.ExecuteStep` | src/codeband/cli/merge.py:806-862 | a merge that landed before the crash is reconciled to what the first run would have recorded |
| `CrashRecovery.MarkStep` | src/codeband/cli/merge.py:748-786 | a crash after the request marker was written does not ask twice or lose the wait |
| `CrashRecovery.EnqueueStep` | src/codeband/cli/merge.py:575-693 | queueing loses convergence in exactly the hazard |
| `CrashRecovery.HazardDiverges` | src/codeband/cli/merge.py:575-715 | in the hazard a crash right after queueing does change the outcome |
| `Witnesses.HazardExample` | src/codeband/cli/merge.py:575-715 | a reachable store, and a merged PR, in the hazard, where some crash changes the outcome |
| `CrashRecovery.RerunOnMerged` | src/codeband/cli/merge.py:487-496 | re-running on a merged subtask changes nothing |
| `Interleaving.StepKeepsInv` | src/codeband/cli/merge.py:478-1095 | every event of every actor keeps: request markers and queue rows name queued SHAs, grants name granted ones, and so does what each running process remembers |
| `Interleaving.MergedCommitWasEarned` | src/codeband/cli/merge.py:686-805 | in every interleaving, a commit the tool merges was queued through the gate at that SHA and afterwards granted at that SHA |
| `Interleaving.MergedRowWasEarned` | src/codeband/cli/merge.py:575-593 | every attempt to record `merged` comes from a merge leg holding an earned grant, and off the post-failure path records that very SHA |
| `Interleaving.MarkersWereEarned` | src/codeband/cli/merge.py:739-784 | in every reachable world the request marker names a gate-passed SHA, the grant one that was also granted |
| `Interleaving.GrantsWereQueued` | src/codeband/cli/merge.py:1048-1090 | an approval only ever grants a SHA the subtask was queued at |
| `Interleaving.QueuedMeansGated` | src/codeband/state/fsm.py:538-554 | a queued event passed the gate of the store it read |
| `MergedHead.PostFailureRecordsGrantIff` | src/codeband/cli/merge.py:804-862 | in every interleaving the commit recorded after a failed merge command is the granted one iff the PR's head is at the second look what it was at the first; if not, someone outside moved it in between |
| `MergedHead.LookedTwice` | src/codeband/cli/merge.py:547-862 | every invocation about to record after a failure has looked twice at one PR, at the granted head and at the one it records |
| `MergedHead.OnlyOthersMoveHeads` | src/codeband/cli/merge.py:207-231 | nothing the tool does moves a PR's head |
| `MergedHead.GoesOn` | src/codeband/cli/merge.py:478-915 | an invocation only goes forward, whatever the others do |
| `OvertakenMerge.PostFailureExample` | src/codeband/cli/merge.py:806-862 | a whole run from an empty store that records as merged a commit nobody granted |
| `Handoff.WalkToVerifyPending` | src/codeband/cli/handoff.py:775-911 | the auto-walk takes exactly the edges of the specification and exits as it says |
| `Handoff.WalkEnds` | src/codeband/cli/handoff.py:716-911 | the walk applies edge by edge, ends in `verify_pending` or at the review cap in `blocked`, writes nothing from any other state, and never touches a counter, marker or other row |
| `Handoff.PassingPinsThePrHead` | src/codeband/cli/handoff.py:967-1063 | the gates pass at a commit iff it is the clean worktree head, verified by the command, and the head of this branch's open PR |
| `Handoff.CmdVerify` | src/codeband/cli/handoff.py:914-1126 | the command's new store and exit are those of the specification |
| `Handoff.RunGates` | src/codeband/cli/handoff.py:940-1126 | from the attempt cap on, each gate in order; a rejected record binds no PR |
| `Handoff.Reject` | src/codeband/cli/handoff.py:684-701 | a coder-error rejection burns one attempt and nothing else |
| `Handoff.VerifyRecordedIff` | src/codeband/cli/handoff.py:914-1126 | verify succeeds iff the walk lets it run, an attempt is left and every gate passes; then the row is bound and in review and the log ends with the proven commit |
| `Handoff.AttemptsCountCoderErrors` | src/codeband/cli/handoff.py:684-701 | over any run the durable count grows by exactly the coder-error rejections and never leaves the cap, resumes included |
| `Handoff.SpentBudgetOnlyBlocks` | src/codeband/cli/handoff.py:943-965 | at the budget no gate runs: the call only escalates |
| `Handoff.FirstFailingGate` | src/codeband/cli/handoff.py:967-1063 | each failing exit names the first gate that fails, as a condition on what the call sees |
| `Handoff.VerifyExitIff` | src/codeband/cli/handoff.py:914-1063 | a verify call exits with a gate's failure iff the walk lets it run, an attempt is left and that gate is the first to fail |
| `Handoff.AttemptBurnsIff` | src/codeband/cli/handoff.py:940-1063 | an attempt is burned iff the gates run and find a dirty tree, no open PR, another branch's PR, a test command failing with a code that is not infrastructure, or a worktree off the PR's head; nothing else costs one |
| `Handoff.WalkRunsIff` | src/codeband/cli/handoff.py:775-911 | the walk lets the gates run iff its own edges can take the subtask to `verify_pending` at all, under the review cap |
| `Handoff.VerifyStops` | src/codeband/cli/handoff.py:775-940 | calls that never reach the gates: which they are, that they write nothing, and that one at the review cap is blocked |
| `Handoff.GatesMeanwhile` | src/codeband/cli/handoff.py:1066-1126 | wherever another actor moved the subtask meanwhile: recorded and bound iff it still awaits the verdict, and what each other exit leaves |
| `Handoff.CmdReview` | src/codeband/cli/handoff.py:1260-1332 | the review leg's new store and exit are those of the specification |
| `Handoff.ReviewRecordedIff` | src/codeband/cli/handoff.py:1294-1332 | a review verdict is recorded iff the subtask is in review with a resolved head, pinned there, and only a rejection costs a round |
| `Handoff.ReviewExits` | src/codeband/cli/handoff.py:1260-1332 | the exact condition of every exit of the review leg; any but success leaves row and log as they were |
| `Handoff.CmdVerifyAcceptance` | src/codeband/cli/handoff.py:1395-1506 | the acceptance leg's new store and exit are those of the specification |
| `Handoff.AcceptanceRecordedIff` | src/codeband/cli/handoff.py:1395-1506 | an acceptance is recorded iff the review passed, the head resolves, the ledger is intact and the claim agrees with the store |
| `Handoff.AcceptanceRejectedIff` | src/codeband/cli/handoff.py:1395-1506 | a rejection needs neither ledger nor claim, and costs a review round |
| `Handoff.AcceptanceExits` | src/codeband/cli/handoff.py:1360-1506 | the exact condition of every exit of the acceptance leg, the broken chain and the claim that contradicts the store included |
| `Handoff.CmdStart` | src/codeband/cli/handoff.py:1128-1168 | seeds planned or assigned up to in_progress, otherwise changes nothing |
| `Handoff.CmdAbandon` | src/codeband/cli/handoff.py:1171-1210 | one conductor transition, or nothing |
| `Handoff.CmdResume` | src/codeband/cli/handoff.py:1213-1257 | one conductor transition, or nothing |
| `Handoff.RecoveryIsExact` | src/codeband/cli/handoff.py:1171-1257 | resume works iff blocked and keeps every counter and marker; abandon iff not terminal |
| `VerifyRecovery.RerunWithinWalk` | src/codeband/cli/handoff.py:716-911 | verify stopped within its walk and run again is the rest of the first run, whether or not the gates then pass |
| `VerifyRecovery.RerunConvergesIff` | src/codeband/cli/handoff.py:914-1126 | a successful verify stopped after any number of its effects and run again ends in the same rows, tasks and log, iff it did not stop between record and binding on a row not yet bound to this PR |
| `LegRuns.PassesArePinned` | src/codeband/cli/handoff.py:1066-1105 | no leg or patrol records a passing verdict without a commit |
| `LegRuns.RunKeepsPinned` | src/codeband/cli/handoff.py:1294-1316 | in every run driven by legs and patrols each passing row is pinned and each snapshot names known legs |
| `LegRuns.GateSeesOnlyPinned` | src/codeband/state/fsm.py:221-251 | in such runs the gate never answers `unpinned_verdict`, `unknown_verdict` or `unknown_task` for a registered task |
| `Registration.ResolvesIffExecutable` | src/codeband/state/registration.py:86-173 | registration resolves iff every leg can be rendered under the configuration, and merging without verdicts takes a double opt-in |
| `Registration.LegsRefusedAs` | src/codeband/state/registration.py:122-171 | why a configuration is refused: the first of its faults |
| `Registration.ApproverIff` | src/codeband/state/registration.py:194-214 | an approval setting is accepted iff it is the owner or a named human, and is recorded as given |
| `Registration.ValidIff` | src/codeband/state/registration.py:282-345 | a request is valid iff it names an owner and a room, its legs can be rendered and its approver is one; the row is as configured |
| `Registration.Workspace.ReadRoomPointer` | src/codeband/state/registration.py:250-279 | the new location wins, the legacy file is the fallback, empty counts as missing |
| `Registration.Workspace.RegisterTaskAtomic` | src/codeband/state/store.py:646-738 | supersede only an active row, and insert or update, as one new table |
| `Registration.Workspace.RegisterTask` | src/codeband/state/registration.py:282-383 | the call's effects in order, its report, and nothing at all on a rejected request |
| `Registration.CompleteEstablishes` | src/codeband/state/registration.py:318-371 | after a complete call: pointer, owner, verdict snapshot, approver, kept description, superseded task, and every other row unchanged |
| `Registration.NoPointerWithoutRow` | src/codeband/state/registration.py:345-371 | no cut-off call leaves a pointer to a room without a row |
| `Registration.RetriesConverge` | src/codeband/state/registration.py:318-371 | retrying the same room from any cut-off, any number of times, ends as one undisturbed call, over dangling and legacy pointers too |
| `Registration.OneActiveIff` | src/codeband/state/registration.py:318-371 | the room ends as the only active task iff no other active task stood beside the one pointed at |
| `Registration.CompleteKeepsOneActive` | src/codeband/state/registration.py:318-371 | complete calls keep one active task |
| `Registration.CutOffThenThirdRoom` | src/codeband/state/registration.py:345-371 | a cut-off call followed by a third room leaves two active tasks |
| `ChainIntegrity.LedgerWatch.Verify` | src/codeband/state/store.py:153-199 | the chain walk's verdict, first break and last good row |
| `ChainIntegrity.LedgerWatch.PatrolChain` | src/codeband/agents/watchdog.py:2122-2177 | one chain's patrol: its report and the tip it remembers |
| `ChainIntegrity.LedgerWatch.VerifyChainsIncremental` | src/codeband/agents/watchdog.py:2101-2179 | both chains, each with its own tip |
| `ChainIntegrity.LedgerWatch.VerifyChainsFull` | src/codeband/agents/watchdog.py:2231-2267 | both chains from row 1, remembering nothing |
| `ChainIntegrity.AgreesIffPrefixVerifies` | src/codeband/agents/watchdog.py:2101-2179 | while the tip stands, patrol and sweep report the same break at the same row iff the rows up to the tip still verify |
| `ChainIntegrity.IncrementalRefinesFull` | src/codeband/agents/watchdog.py:2101-2267 | over every run of appends, patrols and edits above the tip, the next patrol reports exactly what a walk from row 1 does |
| `ChainIntegrity.PatrolKeepsTracked` | src/codeband/agents/watchdog.py:2163-2176 | the tip a patrol moves to is again backed by a verified prefix |
| `ChainIntegrity.HonestNeverAlarms` | src/codeband/state/store.py:202-255 | appends and patrols alone never raise an alarm |
| `ChainIntegrity.RegressionIffTipLost` | src/codeband/agents/watchdog.py:2127-2149 | `head_regression` is reported iff the remembered row is gone or rewritten |
| `ChainIntegrity.SecondPatrol` | src/codeband/agents/watchdog.py:2150-2176 | on an unchanged table a chain break is reported again at the same row; a lost tip only once |
| `ChainIntegrity.EditBreaksThere` | src/codeband/state/store.py:153-199 | editing one row of a good ledger breaks the full walk at exactly that row |
| `ChainIntegrity.HeadHashPinsHistory` | src/codeband/state/store.py:110-199 | two ledgers that verify and end in the same hash are equal row for row |
| `ChainIntegrity.HeadIsNewestHash` | src/codeband/state/store.py:233-238 | an appended row links to the newest row that carries a hash, and to the beginning only when none does |
| `PageWalk.FetchRecent` | src/codeband/agents/watchdog.py:455-511 | the backward walk returns the pages it took, oldest first |
| `PageWalk.ListMessages` | src/codeband/agents/watchdog.py:426-453 | the window filter on top of the walk |
| `PageWalk.RecentIsSuffix` | src/codeband/agents/watchdog.py:455-511 | the result is the contiguous newest part of what was within reach, in order, though messages arrive meanwhile |
| `PageWalk.ReachCoversProbe` | src/codeband/agents/watchdog.py:475-484 | everything there when the probe began is within reach |
| `PageWalk.AgreesIffNothingBefore` | src/codeband/agents/watchdog.py:447-511 | for any history, ordered or not, the filtered walk equals the filtered history iff nothing before the stop lies in the window |
| `PageWalk.PageWalkAgreesIff` | src/codeband/agents/watchdog.py:447-511 | for time-ordered histories it agrees iff not cut short: more than five pages and the message before the newest five still in the window |
| `PageWalk.WindowAt` | src/codeband/agents/watchdog.py:447-453 | the window filter keeps, in order, exactly the messages stamped no earlier than its edge and those without a stamp |
| `PageWalk.FiveHundredAreSeen` | src/codeband/agents/watchdog.py:455-511 | a time-ordered room of at most five hundred messages is never cut short |
| `PageWalk.OneMoreIsCutShort` | src/codeband/agents/watchdog.py:455-511 | one of five hundred and one recent messages is |
| `NudgePatrol.NudgeWatch.ScanRoom` | src/codeband/agents/watchdog.py:645-664 | newest own message and newest foreign mention of every participant |
| `NudgePatrol.NudgeWatch.CheckAgent` | src/codeband/agents/watchdog.py:670-757 | one agent's step, with every other agent's state unchanged |
| `NudgePatrol.NudgeWatch.PatrolRoom` | src/codeband/agents/watchdog.py:608-757 | one step for each participant but the watchdog itself |
| `NudgePatrol.NudgesAreSpaced` | src/codeband/agents/watchdog.py:684-752 | between successive nudges lies an untrack, or a healthy patrol whose recorded time is a suppression period before the second |
| `NudgePatrol.OneEscalationPerNudge` | src/codeband/agents/watchdog.py:733-752 | between two burnt escalation markers lies a new nudge |
| `NudgePatrol.NudgesIff` | src/codeband/agents/watchdog.py:684-732 | over every time-ordered run a nudge is attempted iff the agent is stale, no nudge to it stands unresolved and no cooldown since its last answer runs; it goes on record only when delivered |
| `NudgePatrol.EscalatesIff` | src/codeband/agents/watchdog.py:684-752 | an escalation is attempted iff the agent is stale and a nudge to it is a grace period old, neither resolved nor escalated since; its marker burns iff the send was delivered or can never be |
| `NudgePatrol.LastSeenIsLatest` | src/codeband/agents/watchdog.py:645-704 | the scan yields the latest of the agent's signals, and one iff there is one |
| `RoomSignals.SpokeIsNewestOwn` | src/codeband/agents/watchdog.py:645-655 | the agent's own clock is the first of its newest messages, and there is one iff it spoke |
| `RoomSignals.MentionedIsNewestCall` | src/codeband/agents/watchdog.py:656-664 | its mention clock is the newest mention by somebody else |
| `RoomSignals.LeftAloneIff` | src/codeband/agents/watchdog.py:670-697 | an agent is untracked iff its newest word closes the protocol and nobody called it later, and skipped iff the room holds neither |
| `NudgePatrol.RecencySurvivesIff` | src/codeband/agents/watchdog.py:469-473 | the five newest pages determine an agent's recency iff they carry a signal of it or nothing before them in the window does |
| `NudgePatrol.NoisyRoomHidesAgent` | src/codeband/agents/watchdog.py:469-473 | a room in which the walk passes over an agent the whole window would have had nudged |
| `SilentAgent.WindowedScan` | src/codeband/agents/watchdog.py:442-453 | an agent's two clocks read through the window are those of the whole room, each dropped exactly when it lies before the window |
| `SilentAgent.NudgedIff` | src/codeband/agents/watchdog.py:549-757 | for an agent that has not spoken since it was called: a nudge is attempted iff the last mention is stale, still in the read window and, after the first nudge, a suppression period old; it is skipped iff the mention left the window; it is never escalated |
| `SilentAgent.ForgottenForGood` | src/codeband/agents/watchdog.py:671-674 | a patrol that skips such an agent is followed only by patrols that do |
| `SilentAgent.NudgedOnce` | src/codeband/agents/watchdog.py:684-737 | a suppression period longer than the read window makes the first nudge the last; one exactly as long allows another only at a mention of exactly that age |
| `SilentAgent.NudgedForever` | src/codeband/agents/watchdog.py:2677-2703 | if the window holds a cooldown and one patrol more, every stretch of a run of that length has a nudge in it |
| `SilentAgent.DefaultsNudgeOnce` | src/codeband/config.py:90-105 | at default settings, in a run of any length, exactly one patrol nudges and from the nineteenth on the agent is skipped |
| `StallPatrol.StallWatch.CheckOneSubtask` | src/codeband/agents/watchdog.py:963-1178 | one patrol of one subtask: drift, re-nudge, failed, progress or stuck, the transition it asks of the store, and nobody else's health changes |
| `StallPatrol.StallWatch.Assess` | src/codeband/agents/watchdog.py:963-1112 | the reads, the rungs and the counting, in the program's order |
| `StallPatrol.StallWatch.MaybeBackstopRenudge` | src/codeband/agents/watchdog.py:1180-1238 | who owns the patrol, and the marker written iff a re-nudge was delivered |
| `StallPatrol.StallWatch.MaybeAdvanceRenudge` | src/codeband/agents/watchdog.py:1294-1358 | the same for a stalled acceptance, counting only markers since entry |
| `StallPatrol.CounterMatchesTrace` | src/codeband/agents/watchdog.py:1012-1112 | after any patrols the counter is the number of no-progress patrols since the last progress or re-nudge; failed and drifted ones never count |
| `StallPatrol.AttemptedIff` | src/codeband/agents/watchdog.py:1098-1112 | an escalation is attempted iff that count reaches the cap and none landed since the last progress |
| `StallPatrol.OneLandsPerStall` | src/codeband/agents/watchdog.py:1092-1112 | between two escalations that landed there is a progress |
| `StallReads.KindIff` | src/codeband/agents/watchdog.py:963-1112 | over every run: a patrol is drift iff the granted commit was left behind, progress iff it is released and read a head or a time the run had not read last, no data iff every read the row calls for failed, stuck otherwise; an attempt lands iff the send does |
| `StallReads.BaselinesAreLastReads` | src/codeband/agents/watchdog.py:1060-1093 | the daemon's baselines are the last head and time read in the run, and its no-data count the blind patrols since |
| `StallReads.PatrolWrites` | src/codeband/agents/watchdog.py:1098-1178 | an escalation that landed blocks the subtask by the watchdog's hand, drift sends it back while the default rounds last, any other patrol leaves the store alone |
| `StallOutcomes.StallIsNoticed` | src/codeband/agents/watchdog.py:1060-1112 | in every state, from any state of the daemon, one released patrol more than the cap with the same reads escalates |
| `StallOutcomes.HungIsEscalated` | src/codeband/agents/watchdog.py:1000-1112 | whenever the patrols come: once a hung merge or acceptance was patrolled for as long as the re-nudges it has left can hold it back, one patrol more than the cap escalates |
| `StallOutcomes.RungRunsOut` | src/codeband/agents/watchdog.py:1180-1358 | a delivered re-nudge comes at most a window and a patrol after the one before, so patrols that go on for that long per re-nudge left use the rung up |
| `StallOutcomes.HungAtDefaults` | src/codeband/config.py:132-185 | at default settings, with patrols two minutes apart, at most fifteen patrols |
| `StallOutcomes.FrozenProgressIff` | src/codeband/agents/watchdog.py:1078-1096 | on a frozen subtask a patrol counts as progress iff the PR is the newer signal and its read works again after failing |
| `StallOutcomes.FrozenAttemptIff` | src/codeband/agents/watchdog.py:1078-1112 | on a frozen subtask an escalation is attempted iff the cap is reached with no recovery of the PR read, and none landed, in between |
| `StallOutcomes.FlappingIsNeverNoticed` | src/codeband/agents/watchdog.py:1078-1112 | a frozen subtask whose PR read fails on every other patrol is never escalated |
| `StallOutcomes.BackstopIsBounded` | src/codeband/agents/watchdog.py:1180-1238 | in every run each approved SHA is re-nudged at most the configured times, a window apart and a window after a grant |
| `StallOutcomes.HandsOverIff` | src/codeband/agents/watchdog.py:987-1034 | in every state and for both rungs: a patrol reaches the stall counter iff the head has not drifted and a rung that applies has no grant or no re-nudge left |
| `StallOutcomes.UndeliverableIsNeverNoticed` | src/codeband/agents/watchdog.py:1222-1358 | while re-nudges of either rung cannot be delivered the stall counter never runs |
| `StallOutcomes.AdvanceIsBounded` | src/codeband/agents/watchdog.py:1294-1358 | in every run each acceptance is re-nudged at most the configured number of times |
| `StallOutcomes.AdvanceIsSpaced` | src/codeband/agents/watchdog.py:1294-1358 | re-nudges for one acceptance are a window apart, the first a window after entry |
| `StallOutcomes.DriftSendsBackIff` | src/codeband/agents/watchdog.py:1114-1147 | a patrol that sees the granted head moved changes nothing iff the default rebase rounds are used up; otherwise it sends the subtask back |
| `StallOutcomes.DriftStrandsIff` | src/codeband/agents/watchdog.py:987-1147 | over any number of such patrols the subtask stays in `merge_pending`, uncounted, iff its default rebase rounds are used up |
| `MemoryLog.LocalMemoryStore.StoreRecord` | src/codeband/memory/local_store.py:98-122 | appends the record |
| `MemoryLog.LocalMemoryStore.ArchiveRecord` | src/codeband/memory/local_store.py:163-191 | retires the first live record with the id, compacts, and returns it; otherwise changes nothing |
| `MemoryLog.LocalMemoryStore.Compact` | src/codeband/memory/local_store.py:217-230 | keeps every live record and the archived ones nearest the end |
| `MemoryLog.LocalMemoryStore.List` | src/codeband/memory/local_store.py:124-161 | the trailing page of the matches |
| `MemoryLog.KeepBounds` | src/codeband/memory/local_store.py:217-230 | compaction never touches a live record and keeps exactly the bound of archived ones |
| `MemoryLog.KeepThenRetire` | src/codeband/memory/local_store.py:163-230 | compacting before archiving makes no difference to compacting after |
| `MemoryLog.FileIsCompacted` | src/codeband/memory/local_store.py:163-241 | after any operations the file is the never-compacted list with only its newest fifty archived records |
| `MemoryLog.LiveIsOutstanding` | src/codeband/memory/local_store.py:98-191 | the live records are exactly those stored and not archived since, in order |
| `MemoryLog.ListingIsOutstanding` | src/codeband/memory/local_store.py:124-161 | a default listing is the trailing page of the matches among them: compaction is invisible |
| `MemoryPages.MatchesIff` | src/codeband/memory/local_store.py:142-206 | a record matches iff its status is the one asked for - active when none is, any for `all` - each field asked for is equal, and the text asked for occurs, case aside, on its first line |
| `MemoryPages.PageIsNewest` | src/codeband/memory/local_store.py:136-161 | a page is the newest matches, as many as asked for, in file order |
| `MemoryPages.ArchiveMarks` | src/codeband/memory/local_store.py:163-191 | archiving marks the first live record with the id, its status and time only; without one it changes nothing |
| `MemoryLog.JustArchivedStaysIff` | src/codeband/memory/local_store.py:176-191 | the record just archived is still in the file iff fewer than fifty archived ones follow it |
| `MemoryLog.ArchiveDropsItsOwnRecord` | src/codeband/memory/local_store.py:176-230 | a file, built by stores and archives, from which an archive drops the very record it returns |
| `MemoryLog.WritersAreSerial` | src/codeband/memory/local_store.py:232-270 | every interleaving of writers, crashes included, equals the completed operations one after another: no append is lost |
| `MemoryLog.WritersFromEmpty` | src/codeband/memory/local_store.py:98-270 | from an empty file, in every interleaving: live records are those stored and not archived since, at most fifty archived ones stay, and default listings show just the former |

## Left out

- Interleaving.Act: transitions into `merged` by anyone but the merge leg are excluded; the FSM itself does not ask for a grant on that edge, so the claims are about runs where `cb-phase merge` is its only writer, as the design says.
- Fsm.Transition: the row insert and the exclusive transaction are one step; the gap between the two commits is covered by separate row-insert steps in every run, since rows are never deleted.
- Interleaving.MergedRowWasEarned: a merged row names an earned commit, not that this commit is the one that landed; gh may also report success on a pull request that somebody else merged.
- CrashRecovery.CrashConvergesIff: the audit trail may repeat an event and a message may be sent twice; only rows, tasks, log and pull requests are compared.
- MemoryLog.WritersAreSerial: a crash in the middle of one line's write is not modelled; a write, a read and a rename are one action each.
- ChainIntegrity.HeadHashPinsHistory: hashes are free terms, so two digests agree only on equal contents; SHA-256 itself is not modelled.
- PageWalk.PageWalkAgreesIff: the service is taken to report its page count honestly; without one the method returns the first page, as the code does.
- NudgePatrol.NudgesAreSpaced: about one room; the daemon keys an agent's state by the agent alone, so one in two active rooms shares it, and that sharing is not modelled.
- SilentAgent.NudgedIff: a run begins with nothing on record about the agent, so a cooldown left from an earlier nudge it did answer is not in it; the room is what the page walk reaches; for one so busy that five pages do not cover the window, `NudgePatrol.RecencySurvivesIff` says what is lost.
- StallPatrol.StallWatch.CheckOneSubtask: whether a tried escalation is deferred for a transport pin is an answer of the world; one that is not deferred blocks the subtask.
- Texts of reasons, messages and audit events, timestamps in rows, identity stamping, the role guard and exit-code numbers.
- SQLite and file-system failures, schema migration, `clear_task_records` and `cb reset`.
- `gh`, `git` and chat services appear only as answers; deleting the remote branch has no effect on the state and is not part of this model.
- The transport-pin rung, the blocked-subtask and integrity alerts, the swarm-status gate and the full sweep's cadence.
- Case folding and JSON parsing in the memory store; record attributes are plain strings.
- Human-API message reads, which the service itself bounds by time.
