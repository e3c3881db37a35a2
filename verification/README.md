# TaskSpindle, modelled and verified

TaskSpindle runs coding agents in containers, keeps their work in worktrees, and lands it in a
repository. The hard part of it is the code that has to be right after a crash, a lost reply or a
race. This project models that code and proves what it promises. Dafny checks everything with
`dafny verify dfyconfig.toml`.

## How it is organised

| files | what they model |
|---|---|
| `Units`, `Fence`, `Launch`, `LaunchProperties` | the launch protocol and the admission fence as a step machine: records, containers by generation, requests in flight, file writes; properties of every run |
| `DockerUnits` | the controller's backend as a class. Each method may die between any two effects, the Engine moves in between, and `Valid()` says that what was done is a run of the step machine |
| `Dispatch` | the client's mapping of lost replies and the dispatcher's lease |
| `Git`, `Integration` | a repository as HEAD, commits, index and working tree, and the journaled accept with its recovery |
| `Muse`, `AcpGuard` | two single-reader protocols over wire traces |
| `Escalation`, `PolicyDocument` | the controller's arithmetic, the stored form of a policy, and presets |
| `Namespace` | the mount plan and its validation |
| `Recovery`, `SweepRuns`, `SweepResult`, `Reconcile` | what one examination of a task decides; every run of a sweep beside other writers, as a step machine; what an undisturbed sweep leaves; and the sweep as a class whose store is the replay of its log |
| `Review`, `OpLog`, `Dedup`, `Repos` | the object scanner, log rotation, repeated failures, and status parsing |

The methods of the classes are proved against functions and step machines; the lemmas about those
functions and machines are the properties.

## What is assumed

- The Engine: a create or start request takes effect at most once, possibly late, and only if it was
  sent. A container ends only after it ran, and an ended one changes only by disappearing. A
  destroyed generation never returns. A fresh generation (a random identifier) was never used before.
- The latest turn of a unit never goes back to an earlier one; turns are numbers that only grow.
- Git: a cherry-pick writes only the candidate's paths, stopped anywhere. A new commit's name is new.
  Nobody else commits while the journal says `committing`, and nobody edits index or tree inside one
  stage or one abort; between those, anybody may edit, stage and commit. No ignore rules.
- One process writes the files of one state directory at a time where the source takes a lock; a file
  replacement, an unlink and one log write each happen whole or not at all.
- Digests and fingerprints are injective.
- ACP: `set_config_option` calls do not overlap on one connection.
- Mounts are not below a file or a symlink.
- The task store: a version never goes back, and while it stands the state and mode stand too; a row
  is not deleted. A task holds at most one lease, of its own provider.

## Where the code and what it says of itself differ

- `_recover_accept` clears the journal before the task moves, while `run_accept` moves the task first.
  A recovery that dies in between leaves a landed commit with no journal, and the next one reports it
  as aborted. `Integration.InterruptedRecovery` says exactly when that happens, and
  `Integration.WindowMisreports` is such a run.
- `commit_landed` accepts any child of the target, and nothing checks HEAD before the commit. If the
  operator commits between the cherry-pick and the commit, the candidate lands on that commit; a death
  just before reports the operator's commit as the candidate, and a death just after leaves the task to
  a person (`Integration.MovedHeadIsCommittedOn`). `Integration.RecognisedIffOnTarget` and
  `Integration.SettlementIsExact` give the condition, HEAD at the target when `commit_staged` begins.
- `git commit` takes the whole index: whatever the operator or a verification command stages between
  the cherry-pick and the commit is part of the accepted commit (`Integration.StagedEditIsCommitted`;
  the condition is in `Integration.CommitIsTheCandidateIff`).
- Recovery says ambiguity is never resolved by guessing, but a task being cancelled becomes CANCELLED
  as soon as its unit is anything but active, a state recovery has no rule for included
  (`Recovery.CancelledExactlyWhenNotActive`).
- The branch for a task with no legal target (`src/taskspindle/recovery.py:310-314`) is never taken
  (`Recovery.SomeTargetIsLegal`).
- The root directory counts as its own descendant in the mount plan (`Namespace.TextBelowIsBelow`).
- The log says suppressed counts are always reported later. An entry pushed out by the cap of 256
  scopes takes its count with it, and so does a process that dies after saving the table and before
  writing the count; one that dies before its record silences the failure for the rest of the window
  (`Dedup.LostExactlyWhen`, `Dedup.DeathSilences`).
- A log file deleted from the middle leaves what remains in order but no longer a suffix, until what is
  older than the gap has been rotated out (`OpLog.SuffixIffNoGapIsLeft`).

## Model

| member | source | states |
|---|---|---|
| Units.ObservedKind | src/taskspindle/docker_units.py:409-426 | a container is reported active exactly when it is up, ended exactly when it is terminal, and unknown (never absent) otherwise; an ended one succeeded on code 0, was signalled from 128 on, otherwise exited, unless out of memory; the code is kept |
| Units.ReadByName | src/taskspindle/docker_units.py:409-426 | which of these an Engine status is, by its name |
| Launch.StepPreservesInv | src/taskspindle/docker_units.py:428-516 | every step of controller, Engine or database keeps the protocol invariant: in `creating`, or `failed` from it, no start was issued for the generation; a superseded generation is dead and archived; equal launches are never both started |
| Launch.RunPreservesInv | src/taskspindle/docker_units.py:428-638 | the invariant holds after every run |
| Launch.RecordWritePreservesInv | src/taskspindle/docker_units.py:409-426 | saving a phase or evidence keeps the invariant, given what the Engine can still do |
| Launch.ReservePreservesInv | src/taskspindle/docker_units.py:464-468 | a new reservation keeps the invariant, old generations included |
| LaunchProperties.StartedAtMostOnce | src/taskspindle/docker_units.py:428-516 | in every run, with crashes and late requests, no two start requests serve the same unit and turn |
| LaunchProperties.OneLiveContainerPerUnit | src/taskspindle/docker_units.py:428-516 | in every reachable state a unit has at most one running container |
| LaunchProperties.UnstartedPhases | src/taskspindle/docker_units.py:518-638 | a record at `creating` or `failed` belongs to a launch whose start was never requested |
| LaunchProperties.QuietUntilReserved | src/taskspindle/docker_units.py:844-863 | once a unit's record is settled and nothing of it can run, that stays so in every continuation until a new launch of that unit is reserved |
| LaunchProperties.GoneForGood | src/taskspindle/docker_units.py:518-638 | a generation the Engine refused or destroyed never has a container again |
| LaunchProperties.EvidenceIsKept | src/taskspindle/docker_units.py:409-426 | a current record that is finished or retired carries terminal evidence of a container that really ran, and a generation that was replaced left a settled record in the archive |
| LaunchProperties.LogsOnlyGrow | src/taskspindle/docker_units.py:428-516 | what the Engine was asked, did, refused and destroyed, the reservations and the archived generations are never taken back along a run |
| LaunchProperties.FenceHoldsThroughout | src/taskspindle/docker_units.py:185-283 | while an owner holds the fence and does not release it, in every run: admission is false, no launch is reserved, no submission begins, and the submissions only shrink |
| Fence.OnlyTheOwnerReleases | src/taskspindle/docker_units.py:199-260 | of all file writes the code can make, only the owner's own release lowers a held fence |
| DockerUnits.DockerBackend.Start | src/taskspindle/docker_units.py:428-516 | at most this generation is started; without admission, a turn, a configuration, a valid command and the image nothing is reserved, created or started; otherwise the answer is exactly what the Engine was seen to do (a running older turn, this turn's own container, a definite refusal, a confirmed start), and all else is uncertain; an error other than uncertain means nothing was started and a quiet unit stays quiet |
| DockerUnits.DockerBackend.StartTurn | src/taskspindle/docker_units.py:436-516 | the same once the turn is known; a refused command or a missing image reserves nothing |
| DockerUnits.DockerBackend.LaunchReserved | src/taskspindle/docker_units.py:464-516 | success exactly when a container exists and is confirmed started, failure exactly on a definite refusal without one |
| DockerUnits.DockerBackend.StartSaved | src/taskspindle/docker_units.py:498-516 | success exactly on an acknowledged start or a container seen running or ended |
| DockerUnits.DockerBackend.SettleEarlier | src/taskspindle/docker_units.py:436-452 | a new launch goes ahead exactly when there is none before it, an older turn's is settled and not running, or this turn's own was refused; a running older turn, and this turn's own container, are reported exactly then |
| DockerUnits.DockerBackend.SettleCreate | src/taskspindle/docker_units.py:479-494 | a create without a handle is no failure exactly when its container is there, and certain exactly on a definite refusal without one; only then does the record change |
| DockerUnits.DockerBackend.Show | src/taskspindle/docker_units.py:794-810 | the answer is exactly what the container or the saved evidence says; an answer other than active means no process of the unit runs or can still start; everything unsettled is an uncertain error |
| DockerUnits.DockerBackend.Stop | src/taskspindle/docker_units.py:811-843 | success exactly when the unit is unknown, settled without a container, or seen to have ended, and then nothing of it runs or can start; a container not seen to have ended is told to stop, once, and asked about again |
| DockerUnits.DockerBackend.ResetFailed | src/taskspindle/docker_units.py:844-863 | a container seen to have ended is removed and its launch retired with that end as evidence; one still up or unknown is left; a failure exactly when the Engine did not answer or remove, or an unsettled launch has no container |
| DockerUnits.DockerBackend.RemoveContainer | src/taskspindle/docker_units.py:844-863 | a container may be removed only once the record durably holds how it ended |
| DockerUnits.DockerBackend.RecoverFailedCreate | src/taskspindle/docker_units.py:518-638 | admission is closed first; a `creating` record is retired exactly when its container is missing, asked twice, before and after the Engine's own event shows that generation destroyed; anything else changes no record and says why |
| DockerUnits.DockerBackend.RecoverAbsentLaunch | src/taskspindle/docker_units.py:702-739 | success exactly for an hour-old worker create of a cancelled task that never started and that the Engine does not hold; every other case changes no record and gets its own error |
| DockerUnits.DockerBackend.SetAdmission | src/taskspindle/docker_units.py:214-222 | opening is refused exactly while a fence is held; otherwise the operator's boolean and nothing else changes |
| DockerUnits.DockerBackend.MaintenanceAcquire | src/taskspindle/docker_units.py:224-238 | dying between the two writes leaves the fence untouched or fully held; refusals change nothing and are exactly the stated ones |
| DockerUnits.DockerBackend.MaintenanceRelease | src/taskspindle/docker_units.py:240-260 | completes only with no submission in flight and only for the owner, every refusal exactly as stated; repeated after completing it writes nothing |
| DockerUnits.DockerBackend.SubmissionBegin | src/taskspindle/docker_units.py:262-271 | begins exactly when admitted, with a token not in use |
| DockerUnits.DockerBackend.SubmissionEnd | src/taskspindle/docker_units.py:273-283 | removes that token and no other |
| Dispatch.CertainErrorsAreTheControllers | src/taskspindle/execution.py:20-34 | whatever happened to the reply of a start, an error the client calls certain is the controller's own |
| Dispatch.LostRepliesAreNamed | src/taskspindle/execution.py:20-34 | a lost or meaningless reply gets the name its operation needs, every other error keeps its own |
| Dispatch.RoomIsWithinLimits | src/taskspindle/orchestrator.py:1257-1263 | there is room for a lease exactly when the task has none and one more stays within both limits |
| Dispatch.Dispatcher.CallStart | src/taskspindle/execution.py:36-40 | the caller is told the controller's answer or uncertain; a certain error means the call started nothing, a quiet unit is quiet, and each code what it says of the fence, the earlier turn, the image or the refused create |
| Dispatch.Dispatcher.StartWorkerAdmitted | src/taskspindle/orchestrator.py:1203-1308 | a lease is taken exactly when the earlier run is over, the task eligible and there is room; it is given up only when nothing of the unit runs or can still start; the task fails exactly on a certain failure of the launch, and stays queued exactly on closed admission or a running earlier turn; other leases stand |
| Dispatch.Dispatcher.LaunchLeased | src/taskspindle/orchestrator.py:1275-1308 | which of the four ends a start has, and what becomes of its lease |
| Dispatch.Dispatcher.ResetStaleUnit | src/taskspindle/orchestrator.py:1174-1190 | forgetting an earlier run starts nothing, keeps a quiet unit quiet, and fails exactly when the controller says so or does not answer |
| Git.ResetTouchesOnlyOwned | src/taskspindle/integration.py:318-349 | when everything dirty is owned, a hard reset changes owned paths only and leaves owned files only |
| Git.UnlinkOne | src/taskspindle/integration.py:347-349 | removing one untracked file keeps the rest as they were, so the unlink loop can stop anywhere |
| Integration.SettlementIsExact | src/taskspindle/integration.py:352-369 | wherever an accept dies with its journal, recovery says accepted exactly when the commit was made, except inside `commit_staged`: there if and only if HEAD was the target as it began (the commit made), or was not a child of the target (not made) |
| Integration.UndoneExactlyWhenSafe | src/taskspindle/integration.py:318-369 | recovery undoes exactly when nothing was staged, or HEAD is the target and all that is dirty is the candidate's; refuses exactly when undoing could lose somebody else's work |
| Integration.RecognisedIffOnTarget | src/taskspindle/integration.py:281-316 | dying before and after the commit are both told rightly if and only if HEAD was the target when `commit_staged` began |
| Integration.CommitIsTheCandidateIff | src/taskspindle/integration.py:281-300 | the commit is the candidate on the target if and only if, when Git is asked, HEAD is the target and the index is the target with the candidate applied |
| Integration.StagedEditIsCommitted | src/taskspindle/integration.py:296-297 | an input that fails it: a path staged by somebody else is committed with the candidate |
| Integration.MovedHeadIsCommittedOn | src/taskspindle/integration.py:303-316 | an input that fails both: on an operator's commit the candidate gets the wrong parent, a death before it reports that commit as the candidate, and a death after it cannot be settled |
| Integration.InterruptedRecovery | src/taskspindle/orchestrator.py:386-412 | a recovery that dies between clearing the journal and moving the task, run again, ends as if it had not died if and only if it had not found the commit |
| Integration.RecoveredRepository | src/taskspindle/integration.py:352-369 | an undone accept that had staged anything leaves HEAD's tree and nothing else; otherwise the repository is left as it is, and only a refusal keeps the journal |
| Integration.WindowMisreports | src/taskspindle/orchestrator.py:386-412 | the two-step run: a recovery of a landed commit dies once the journal is cleared, and the next one reports it undone |
| Integration.Accept.StageCandidate | src/taskspindle/integration.py:178-209 | refuses exactly a dirty or moved target, changing nothing; success is the candidate applied to the target; a conflict ends exactly at the target; a death is restartable |
| Integration.Accept.CommitStaged | src/taskspindle/integration.py:281-301 | the commit has HEAD as `commit_staged` found it for parent and the index as Git found it for tree; it is the candidate on the target exactly when those were the target and the staged tree; recovery recognises it, or invents it, exactly as the guard on HEAD says; an error made none and every death is crash-safe |
| Integration.Accept.AbortStaged | src/taskspindle/integration.py:318-349 | refuses exactly when not allowed, touching nothing; success is exactly the target; paths outside the candidate never change; a death anywhere can be rerun |
| Integration.Accept.RemoveUntracked | src/taskspindle/integration.py:347-349 | the unlink loop ends pristine and touches owned files only |
| Integration.Accept.RunAccept | src/taskspindle/accept.py:58-199 | a clean, checked candidate on a clean target whose cherry-pick and commit go through is accepted unless the accept dies, and nothing else is; a conflict and a failure come exactly from their causes and leave no commit; the commit is the candidate on the target exactly when HEAD and index stood as staged, and always when nobody else touched them; every death leaves a recoverable state |
| Integration.Accept.RecoverAccept | src/taskspindle/orchestrator.py:386-412 | from any death, the window left by an earlier recovery included, it ends exactly as `Recovered` says, HEAD, commits and foreign paths untouched; dying inside the undo it can be run again |
| Integration.Accept.AcceptAndRecover | src/taskspindle/accept.py:58-199 | an accept that may die anywhere, the operator working on, and its recovery are one atomic step if Git was asked on the target or never: accepted exactly when the commit was made, handed back only when nothing was |
| Muse.TurnsMoveForward | src/taskspindle/muse_msp.py:393-484 | nothing seen is forgotten, items keep their place and a stored revision is never replaced by an older one |
| Muse.TextIsTheMessages | src/taskspindle/muse_msp.py:393-484 | the captured text is the text of the agent messages among the items, each of them once, nothing else, in the order in which the items first appeared |
| Muse.TurnTellsTrace | src/taskspindle/muse_msp.py:393-484 | a turn fails exactly when some event offends; otherwise it holds exactly what its events tell: each item as its own updates and deltas make it, tool calls, thoughts, usage, models and updates in wire order, the first end deciding and the last kept |
| Muse.FailsWhenOffended | src/taskspindle/muse_msp.py:393-484 | what the handler refuses, event by event: another approval mode, a gap, a malformed delta or item, delegated work, a negative counter, an unproven end |
| Muse.RedeliveryChangesNothing | src/taskspindle/muse_msp.py:393-420 | redelivering a cursor-bearing event anywhere later changes nothing |
| Muse.LoopKeepsOrder | src/taskspindle/muse_msp.py:240-299 | under every schedule, what was read has been handled in wire order and once, or all of it waits in the buffer |
| Muse.SchedulingIsInvisible | src/taskspindle/muse_msp.py:503-531 | a complete run without a protocol error ends as if the acknowledgement had come first |
| Muse.SchedulesAgree | src/taskspindle/muse_msp.py:503-531 | two complete schedules of one wire have the same capture and terminal |
| Muse.AckIsTheWires | src/taskspindle/muse_msp.py:222-299 | the turn id taken is that of the first acknowledgement on the wire |
| Muse.MuseWorker.Read | src/taskspindle/muse_msp.py:240-299 | the reader's updates of the worker's fields are the modelled step, losing and repeating nothing |
| Muse.MuseWorker.Resume | src/taskspindle/muse_msp.py:503-531 | the resumed coroutine empties the buffer in order, and fails exactly when the wire order would |
| AcpGuard.FlaggedIffFoul | src/taskspindle/acp_client.py:591-626 | a run is flagged if and only if some frame carried a protected value that the trace does not excuse |
| AcpGuard.UnflaggedUpdatesAreLegitimate | src/taskspindle/acp_client.py:591-626 | unflagged, every update of a protected key carried its agreed value, or the old value of the one key being changed before the correlated response |
| AcpGuard.ViolationIsSticky | src/taskspindle/acp_client.py:591-626 | nothing clears the flag |
| AcpGuard.RunMirrors | src/taskspindle/acp_client.py:737-776 | until a violation the worker's fields are exactly what the trace says was agreed, asked and answered |
| AcpGuard.AcpWorker.ObserveConfiguration | src/taskspindle/acp_client.py:591-626 | the loop over a snapshot flags exactly when one entry changes something protected |
| AcpGuard.AcpWorker.Observe | src/taskspindle/acp_client.py:497-529 | one frame updates the fields as the modelled step does, and the trace with them |
| AcpGuard.AcpWorker.EndSet | src/taskspindle/acp_client.py:737-776 | a change is confirmed exactly when the connection is unviolated and the answer confirms every protected key; otherwise the earlier values are protected again |
| AcpGuard.PromptReturnsIffClean | src/taskspindle/acp_client.py:778-825 | for every trace and every place where a prompt begins and ends: it returns normally if and only if it was replied to and no frame before its end was foul, before the prompt, during it or in the grace after the reply; a foul frame is what it reports unless it was cancelled; a timeout, an error and a cancellation are reported exactly as such |
| AcpGuard.AcpWorker.Prompt | src/taskspindle/acp_client.py:778-825 | the coroutine, frames arriving whenever it waits, leaves by that exit; `last_result` carries the stop reason of that end, and an error exactly when a frame was foul or the turn failed |
| AcpGuard.AcpWorker.AwaitLateUpdates | src/taskspindle/acp_client.py:827-839 | the grace lasts until the summary, a violation or the deadline, and ends at once on a violation |
| AcpGuard.ConfigOptions | src/taskspindle/acp_client.py:1016-1027 | exactly the well-shaped options of an answer are kept |
| Escalation.SchmittTrigger | src/taskspindle/policy.py:1051-1061 | level >= k exactly when the distance reaches step k, or k was held and it is within the release of step k |
| Escalation.MagnitudeIsIdempotent | src/taskspindle/policy.py:1051-1061 | reading the same distance again does not move the level |
| Escalation.MagnitudeIsMonotone | src/taskspindle/policy.py:1051-1061 | a larger distance or held level never gives a lower level |
| Escalation.FlipsAtMostOnce | src/taskspindle/policy.py:1051-1061 | while the signal spans at most the release points, each threshold flips at most once |
| Escalation.UnbrakedFollowsDeficit | src/taskspindle/policy.py:1094-1104 | the level has the sign of the deficit, is nothing without enough turns, and on each side is the stack of thresholds over what was held on that side |
| Escalation.UnbrakedIsSymmetric | src/taskspindle/policy.py:1097-1102 | over target is under target in a mirror |
| Escalation.BrakesExactly | src/taskspindle/policy.py:1106-1120 | each cap is in force exactly on its own evidence |
| Escalation.CheckRules | src/taskspindle/policy.py:178-210 | the validator accepts exactly the ordered rules within their bounds |
| Escalation.RulesAtTheirBounds | src/taskspindle/policy.py:183-210 | every bound is inclusive where it says so, and what is beyond it is refused |
| Escalation.StepsAtTheirBounds | src/taskspindle/policy.py:185-204 | one to three thresholds from 1 to 100, strictly ascending, the release below the first |
| Escalation.SortedIsSorted | src/taskspindle/policy.py:1108-1124 | the collected caps are sorted, the same ones kept |
| Escalation.Level | src/taskspindle/policy.py:1064-1124 | the level is the minimum of the unbraked level and every cap, within the number of steps |
| Escalation.StepStaysOnLadder | src/taskspindle/policy.py:1127-1141 | a step never passes its ladder or what was asked, and keeps its direction |
| Escalation.StepIsMonotone | src/taskspindle/policy.py:1127-1141 | a higher level never reaches a lower step |
| PolicyDocument.DumpRoundTrip | src/taskspindle/policy.py:527-532 | a full dump parses to the policy itself |
| PolicyDocument.ParseAcceptsExactly | src/taskspindle/policy.py:527-532 | a document is accepted exactly when every bound holds of the fields it gives; a field left out never stands in its way |
| PolicyDocument.StoredRoundTrip | src/taskspindle/policy.py:659-700 | the stored form parses to the policy up to its empty ladders |
| PolicyDocument.StoredIsFixed | src/taskspindle/policy.py:659-700 | storing what was read back writes the same document, so the fingerprint is a fixed point |
| PolicyDocument.StoringIsInvisible | src/taskspindle/policy.py:1127-1141 | no step selection tells the stored policy from the original |
| PolicyDocument.StoreDocument | src/taskspindle/policy.py:659-700 | the in-place edits of the dump give the stored form |
| PolicyDocument.PresetIsAccepted | src/taskspindle/policy.py:479-500 | a preset of a valid policy always parses, and the result is valid |
| PolicyDocument.PresetWrites | src/taskspindle/policy.py:438-500 | a preset writes the level's concurrency and, for every shipped role that already selects the provider, the table's selection and ladder |
| PolicyDocument.PresetRefusedExactlyWhen | src/taskspindle/policy.py:479-500 | refused exactly for an unknown provider or one without presets |
| PolicyDocument.PresetsCoverShippedRoles | src/taskspindle/policy.py:370-436 | every preset writes the same six roles, never steps to what it has; conserving steps nothing up, balanced steps the lightest up, maximal steps everything down |
| PolicyDocument.PresetsNameTheirOwn | src/taskspindle/policy.py:394-436 | every family's presets name its own models |
| PolicyDocument.PresetFrame | src/taskspindle/policy.py:438-500 | a preset touches only the provider's concurrency and that provider's entries of the shipped roles that already select it |
| PolicyDocument.PresetIsIdempotent | src/taskspindle/policy.py:479-500 | applying a preset twice is applying it once |
| PolicyDocument.OnlyTheAppliedLevelFits | src/taskspindle/policy.py:503-513 | after applying a level, that level fits and no other does |
| PolicyDocument.PresetMatches | src/taskspindle/policy.py:503-513 | the answer is a level that fits, or that none does, or that there are no presets |
| PolicyDocument.MatchAfterApply | src/taskspindle/policy.py:503-513 | matching the result of a preset returns exactly the level applied |
| Namespace.VisitCovers | src/taskspindle/agy_namespace.py:38-55 | everything in the tree is held by exactly one source, except what is at, below or above a mount, held by none |
| Namespace.SourcesCoverExactly | src/taskspindle/agy_namespace.py:32-55 | the whole plan, with the descendants chosen by the text test, covers exactly that |
| Namespace.SourcesAreClear | src/taskspindle/agy_namespace.py:38-55 | no returned source contains a mount |
| Namespace.TextBelowIsBelow | src/taskspindle/agy_namespace.py:32-37 | the prefix test on texts is "strictly below", the root directory alone being below itself |
| Namespace.VisitNode | src/taskspindle/agy_namespace.py:38-55 | the recursion that extends a list per directory computes the plan |
| Namespace.RuntimeSources | src/taskspindle/agy_namespace.py:32-55 | refused exactly above the limit of descendants, otherwise the plan |
| Namespace.PrefixesAreContiguous | src/taskspindle/agy_namespace.py:58-63 | texts with one prefix are contiguous in text order from the prefix on |
| Namespace.BisectLeft | src/taskspindle/agy_namespace.py:58-63 | the first position not below the key |
| Namespace.ValidateSource | src/taskspindle/agy_namespace.py:58-63 | one probe finds a nested mount exactly when a full scan would |
| Recovery.DecisionsAreLegal | src/taskspindle/recovery.py:231-330 | every move a decision makes is legal, permitted to the mode, and into an inactive state |
| Recovery.LegalBothWays | src/taskspindle/service.py:101-153 | the transitions read by the states they lead to |
| Recovery.FinishedStaysFinished | src/taskspindle/service.py:101-179 | no mode leaves a terminal state, but for a consultation asked one more question; an advisory task is never offered or accepted |
| Recovery.AcceptFollowsTheJournal | src/taskspindle/recovery.py:429-460 | an accept is accepted only on the journal's word that the commit landed, handed back only on its word that nothing did, and every answer is followed when the journal may be asked |
| Recovery.EndsAsItsUnitDid | src/taskspindle/recovery.py:287-330 | a failing exit fails a task, every other end interrupts it, as does a stale absence; an unanswered Muse command makes each ambiguous |
| Recovery.EndsWithItsBoot | src/taskspindle/recovery.py:248-330 | after a reboot a task is interrupted, or ambiguous on an unanswered command |
| Recovery.StoppedExactlyWhenOverdue | src/taskspindle/recovery.py:402-417 | a cancelled task whose unit runs is stopped exactly when its request is old |
| Recovery.RetiredExactlyWhen | src/taskspindle/recovery.py:261-281 | a lease is retired without its task exactly when workers alone are swept, the task's own worker signed it and is over or gone, and the continuation's turn is open |
| Recovery.FreedExactlyWhen | src/taskspindle/recovery.py:197-222 | a finished task's lease is freed exactly when of another boot, or its process ended, or is gone with its heartbeat missing or stale |
| Recovery.UnitsAreTheTasks | src/taskspindle/recovery.py:125-128 | a unit without a saved name is the task's own accept unit while accepting, its worker unit otherwise, and no other task's |
| Recovery.SomeTargetIsLegal | src/taskspindle/recovery.py:368-380 | no examination ends without a legal target |
| Recovery.MovesExactlyWhenGone | src/taskspindle/recovery.py:231-330 | a task moves if and only if its boot is over, or it waited too long for a unit, or its unit was looked at and is not active, a dispatch under way aside |
| Recovery.FailedOnlyWithCause | src/taskspindle/recovery.py:255-330 | a task fails only without a unit, in preparation, or on a failing exit |
| Recovery.DoubtGoesToAPerson | src/taskspindle/recovery.py:382-400 | an unseen unit with a fresh heartbeat becomes ambiguous, cancellation and preparation aside |
| Recovery.CancelledExactlyWhenNotActive | src/taskspindle/recovery.py:282-305 | a cancelled task is claimed exactly when its unit is not active or its boot is over |
| Recovery.MoveLeavesOneFewer | src/taskspindle/recovery.py:463-499 | each move leaves exactly one fewer active task |
| SweepRuns.SweepIsSafe | src/taskspindle/recovery.py:131-330 | in every run, whatever other processes write between: a row the sweep changes is the one examined, at the version read, moved along a legal edge out of the active states, never when the latest answer about its unit was active, to accepted or handed back only as the latest answer of the journal says; a lease it takes belonged to such a task, or to one at rest whose process is over by the latest answer; a unit is stopped only while active, forgotten only when ended; nothing else changes |
| SweepRuns.RunKeepsInv | src/taskspindle/recovery.py:131-330 | rows read earlier are still as read unless their version has moved, after every run |
| SweepRuns.RunSeesLatest | src/taskspindle/recovery.py:282-288 | what an examination holds of a unit is always the latest answer, and about its own unit |
| SweepRuns.MovesAreCounted | src/taskspindle/recovery.py:463-499 | left alone, the moves of a sweep are exactly the active tasks that are gone |
| Reconcile.Sweep.Transition | src/taskspindle/service.py:187-247 | succeeds exactly on the expected version along a legal edge the mode permits, which is logged as the move; any failure changes nothing |
| Reconcile.Sweep.Apply | src/taskspindle/recovery.py:463-499 | fails only because the version moved; undisturbed it moves the row and takes its lease and nothing else |
| Reconcile.Sweep.ReconcileTask | src/taskspindle/recovery.py:231-330 | one examination decides by what it has read and been told alone; undisturbed, row and lease end exactly as decided; it fails only on a unit call that failed or a version that moved |
| Reconcile.Sweep.SettleTask | src/taskspindle/recovery.py:289-330 | a task that must move goes where its accept journal, its cancellation or the permitted target says, with its lease, unless its version moved |
| Reconcile.Sweep.RetirePrevious | src/taskspindle/recovery.py:261-281 | a signed lease of an ended worker is released exactly while row, lease and turn still stand, and nothing else changes |
| Reconcile.Sweep.ReconcileByUnit | src/taskspindle/recovery.py:282-291 | what the unit says is what is decided, and an ended unit is forgotten before its task moves |
| Reconcile.Sweep.EscalateCancel | src/taskspindle/recovery.py:402-417 | an active unit is asked to stop exactly once its cancellation is old, which is logged, and row and lease stay |
| Reconcile.Sweep.SweepRow | src/taskspindle/recovery.py:154-177 | one listed row is examined unless left to others, and no other row changes |
| Reconcile.Sweep.ReleaseFinishedLeases | src/taskspindle/recovery.py:197-228 | undisturbed, no row changes, and a lease goes if and only if its task is at rest and its unit was shown dead, stale or of another boot |
| Reconcile.Sweep.Reconcile | src/taskspindle/recovery.py:131-180 | the store is the replay of the sweep's log; undisturbed, every active task is examined, each row and lease ends as its own examination says, finished leases go exactly when over, and the active tasks go down by exactly the number of moves |
| Review.BalancedObjects | src/taskspindle/review.py:54-80 | the spans are exactly the objects of the text, all of them, ordered and disjoint, the depth back at zero only at their end |
| Review.SpansAreTheObjects | src/taskspindle/review.py:54-80 | a span is returned if and only if it opens at depth zero outside a string and closes there first |
| Review.ValueIsSkipped | src/taskspindle/review.py:54-80 | inside an object, any JSON value with correct escaping leaves the scan as it was |
| Review.EmbeddedObjectsAreFound | src/taskspindle/review.py:54-80 | for any JSON objects in prose free of quotes and braces the scan returns exactly their texts, in order |
| OpLog.FilesAreASuffix | src/taskspindle/oplog.py:154-179 | oldest generation to live file is a suffix of everything appended, cut between two records |
| OpLog.ShiftIsSound | src/taskspindle/oplog.py:154-162 | a rotation stopped after any rename loses the oldest generation and nothing else, order kept |
| OpLog.AppendIsSound | src/taskspindle/oplog.py:165-179 | a write keeps whole records and a file no longer than the cap or one record |
| OpLog.DeletionKeepsTail | src/taskspindle/oplog.py:154-162 | what is left after losing one file is a suffix if and only if the file was empty or nothing older is held |
| OpLog.SuffixIffNoGapIsLeft | src/taskspindle/oplog.py:154-179 | over any sequence of appends, rotations, crashes and losses: what is held is a suffix if and only if no lost record is newer than one still held |
| OpLog.LogFile.Lose | src/taskspindle/oplog.py:154-179 | a file lost to something else takes its records and no others; what is left stays in order |
| OpLog.LogFile.Rotate | src/taskspindle/oplog.py:154-162 | the countdown of renames, stopped anywhere, is a shift that reached some slot |
| OpLog.LogFile.Append | src/taskspindle/oplog.py:165-179 | rotates exactly when the record does not fit; only a rotation loses anything, and then the oldest generation; what is held is a suffix exactly while no gap is left |
| Dedup.OccurrencesAreConserved | src/taskspindle/oplog.py:318-345 | per scope, occurrences are records written, repeats counted in a line, pending, or lost |
| Dedup.LostExactlyWhen | src/taskspindle/oplog.py:302-400 | something is lost if and only if an entry was dropped with a count pending, or a process died before a line it owed |
| Dedup.DeathSilences | src/taskspindle/oplog.py:335-371 | a run in which a process dies before its record, and the next occurrence is suppressed although the log holds nothing of it |
| Dedup.OncePerWindow | src/taskspindle/oplog.py:318-345 | one failure is let through at most once per window while its scope neither changes nor clears |
| Dedup.SuppressedOnlyIfLogged | src/taskspindle/oplog.py:318-345 | what is suppressed repeats something let through less than a window before, with no change between, and logged unless its process died first |
| Dedup.DedupFile.Save | src/taskspindle/oplog.py:302-315 | nothing is dropped up to the cap; beyond it nothing kept was logged before anything dropped |
| Dedup.DedupFile.Gate | src/taskspindle/oplog.py:318-345 | lets through exactly what does not repeat, hands out the pending count, and drops nothing up to the cap |
| Dedup.DedupFile.Report | src/taskspindle/oplog.py:354-371 | table, count and record are written in that order, the process dying between any two; the log holds exactly the lines of the events |
| Dedup.DedupFile.ClearScope | src/taskspindle/oplog.py:375-400 | removes that scope and writes what it held back unless the process dies between |
| Repos.StatusRoundTrip | src/taskspindle/repos.py:197-218 | parsing inverts git's printer for any non-empty paths without NUL, renames giving new then original |
| Repos.PorcelainPaths | src/taskspindle/repos.py:197-218 | the index loop finds the paths of the fields |
| Repos.UnderPrefixIsBySegments | src/taskspindle/repos.py:307-314 | the string test is exactly the test on whole path segments |
| Repos.PathInScope | src/taskspindle/repos.py:307-314 | in scope exactly when the path's segments start with those of some prefix, or some prefix is the whole repository |

## Left out

- Subprocesses, sockets, asyncio, sqlite and file-system mechanics: Docker, git, the wire and the store are abstract state with the assumptions above.
- Validation of saved launch records by pattern, and the phases `reserved` and `created` of older records.
- The `CHERRY_PICK_HEAD` branch of `abort_staged`, and edits of the operator's inside the candidate's own paths, which the code discards by design.
- The output of verification commands (`run_verification`): whether they pass is a parameter of `RunAccept`.
- A death is arbitrary: that a controller or an accept does not die more often than it must is not promised.
- Timeouts of the destroy-event stream: an event seen or not seen is an arbitrary answer.
- `Muse.Handle` works on values: `_event` updates the turn's lists in place, and their aliasing is not modelled. Token counts and tool details of an item are opaque.
- Message texts, reasons and audit events of recovery, and the `RECOVERY` event that records a stranded task.
- The parsing of time stamps: a stamp is an instant or missing.
- `parse_review_output` and its fence and whole-text candidates: they try the scanner's spans one by one.
- Log levels, record contents and the stderr mirror; a log write that fails costs the record.
- Decoding of status output: entries are characters, the two status letters one each. `normalize_prefixes` and snapshot comparison.
- The fields of a policy that are copied through unread are one opaque value per object.
- Deficit and usage metrics behind the escalation signal; the signal is a parameter, its deficit a real.
- Redaction, error classification, `agy_cli.py`, `policy_promotion.py`, the CLI, MCP server, dashboard and setup: single branches, or instances of the patterns above.
