# A verified model of the VoxeraOS queue and automation core

VoxeraOS is a control plane built on files. A job is a JSON file that moves between bucket
directories; a mission is a job with steps that may stop for an operator's approval and resume; a
timer-driven runner turns saved automations into jobs; small skills walk the file system under
fixed limits. This project models that core in Dafny and proves what it keeps over every input, run
or interleaving.

`dafny verify dfyconfig.toml` checks the whole project. One module stands for one source file or one
protocol:

| modules | subject |
|---|---|
| Missions, Approvals, MissionQueue, MissionAttempts, MissionConsents, MissionOutcomes, MissionDaemon | missions that pause, are approved or denied, resume, and are cancelled or retried; tokens, standing grants and the hard gate |
| AutomationModels, AutomationRunner, AutomationSpacing | definitions and their store, due times and fires, the spacing of fires |
| RunnerLock, RunnerPasses, RunnerDueTimes, RunnerSpacing, RunnerCrowding, RunnerStamps, RunnerSwitches | the runner lock, and what interleaved passes keep: at most once, due times, spacing, update times, switches |
| FileTree, BoundedWalk, FilesListTree, FilesFind, FilesGrepText | the capped tree walks of the file skills |
| JsonRecovery | finding one JSON object in noise (RFC 8259, sections 4 and 7) |
| Retention | the two retention policies |
| QueueBuckets, QueuePaths | moves between buckets, side files, free names |
| Lineage, ExecutionResult | child jobs, evidence contracts and their refresh |
| Health, HealthTrace | the health snapshot, its resets, and what it shows of a run |
| Decisions, Policy, DryRuns | policy decisions, their enforcement at run time, and what a dry run foretells of the runs |
| Text, Sorting, Values, Collections, Wrappers | strings, stable sorting, JSON values and Python's `int`, sets and sequences, options |

Methods of classes (`MissionDaemon.QueueDaemon`, `QueueBuckets.Queue`, `AutomationRunner.Runner`,
`Health.HealthFile` and others) follow the source's control flow and are proved equal to a step of a
state machine or a specification function; the theorems are about those.

## Where the code does not do what one expects

Each is stated as an exact condition, for all inputs.

- "Approve always" stores the first capability in sorted order but later prompts look up the first declared one
  (`Approvals.ApproveAlwaysWorksIffFirstIsLeast`).
- A mission of n steps takes at most n approvals an attempt, except that a hard gate before an empty mission takes one
  (`MissionQueue.EmptyGatedMissionTakesOneApproval`).
- A failed job, a denied one included, and a cancelled one can be retried and then runs from its first step again.
  Only a job that is done, or whose first step cannot run at all, is finished for good
  (`MissionAttempts.EndedIsFinalIffDoneOrUnstartable`, `MissionAttempts.EndedRunsAgainIffRetriedAndProcessed`).
- A dry run decides by the policy alone; the run also denies missing, blank, duplicate and unknown capabilities and
  network arguments of a skill without network. The verdicts agree exactly if the policy denies anyway or the manifest
  passes those checks (`Policy.VerdictsAgreeIff`), and a mission reported ready is denied at a step exactly if a
  verdict differs (`DryRuns.ReadyMissionIsDeniedIffVerdictsDiffer`).
- The entry point that runs one automation takes no lock. It keeps a one-shot automation at one fire exactly when
  no pass is holding an unfired copy (`RunnerPasses.UnlockedFireIsSafeIffNobodyOwes`,
  `RunnerPasses.UnlockedFireFiresTwice`).
- Switching an automation off while a pass holds a due copy of it is undone when the pass saves that copy. A
  switch-off holds in every continuation exactly if no process owes a fire when it is made
  (`RunnerSwitches.SwitchOffHoldsIffNobodyOwes`, `RunnerStamps.SwitchDuringPassIsLost`).
- A forced fire in the middle of a pass can be followed by the pass's own fire within the interval, exactly if a
  process owes a fire with a stamp less than an interval after the forced one
  (`RunnerCrowding.ForcedFireKeepsSpacingIffNobodyCrowds`).
- A one-shot definition in a file that is not named after its id stays due after it has fired
  (`AutomationRunner.OneShotIsDoneIffFiledUnderItsId`, `AutomationRunner.MisfiledOneShotFiresTwice`).
- A forced fire with the clock set back lets two unforced fires come closer than an interval
  (`AutomationSpacing.ForcedFireKeepsBoundIffClockHolds`, `AutomationSpacing.ClockSetBackBreaksSpacing`).
- The two retention policies break ties of age in opposite directions (`Retention.TieBreakingMattersOnlyAtTheCount`).
- Cancelling cleans up by the name after the move (`QueueBuckets.CancelCleansUpIffNoCollision`); deleting a finished
  job takes the resume state of a waiting job of the same name (`QueueBuckets.DeleteDropsResumeStateOfNamesake`),
  which then runs its steps again (`MissionAttempts.NamesakeDeletionIsHarmlessIffNothingRan`).
- Deleting a job leaves its state sidecar behind, for a later job of its name to take over
  (`QueueBuckets.StepStaysTidyIffNoOrphan`, `QueueBuckets.RunKeepsSidecars`); and a job's state may be written to a
  namesake's sidecar in another bucket (`QueueBuckets.StateIsWrittenBesideItsJobIff`).
- The root id of a job is stripped of white space from the second generation on (`Lineage.GrownLineage`).
- Two families are always counted as observed, even in an empty directory
  (`ExecutionResult.EmptyDirectoryShowsBaseFamilies`).
- A reset of the recent history forgets since when the daemon has been degraded
  (`Health.DegradedWithoutTimeIffForgotten`); a second reset reports changes it does not make
  (`Health.SecondResetReportsPhantoms`).
- A policy that allows network changes and installs still asks for them (`Policy.AllowingNetworkChangesStillAsks`).

## Model

| member | source | states |
|---|---|---|
| `MissionQueue.ResumedTraceIsUninterrupted` | src/voxera/core/missions.py:475-646 | over every run of submissions, passes, approvals, denials, cancels and retries of any jobs, the steps a job has executed since it was submitted or last retried are those of one uninterrupted run with every question granted, up to where it stands: none skipped, repeated or reordered |
| `MissionQueue.EveryAnswerIsJustified` | src/voxera/core/queue_approvals.py:72-148 | nothing runs unasked, in any run: an executed step is a registered step of its job's mission that the policy does not deny, and if the policy asks about it the event before is a yes for that job, step and skill; each yes has behind it an unused approval of the same key, the standing grant of exactly the asked capability and scope, or the allowlist entry of the asked capability; token answers never outnumber approvals |
| `MissionQueue.ApprovalsAreBounded` | src/voxera/core/queue_approvals.py:589-840 | in each attempt of any run a mission of n steps takes at most n approvals, and at most as many as it has steps that the policy asks about and one for a hard gate; while it waits it has taken fewer |
| `MissionQueue.EmptyGatedMissionTakesOneApproval` | src/voxera/core/queue_approvals.py:302-377 | the exception to the bound: a hard gate asks once even if the mission has no step |
| `MissionQueue.ApprovalMakesProgress` | src/voxera/core/queue_approvals.py:701-840 | an approval ends the wait or leaves the job waiting at a later step |
| `MissionConsents.GrantsAreConsented` | src/voxera/core/queue_approvals.py:691-700 | over every run, a standing grant is there if and only if it was there at the start or an operator approved for good a waiting job whose artifact named that skill, capability and scope |
| `MissionConsents.OnlyConsentGrants` | src/voxera/core/queue_approvals.py:691-700 | in every state, approving once and every other operation leave the grants as they are, and approving for good adds exactly what the artifact says, once |
| `MissionConsents.ArtifactShowsTheQuestion` | src/voxera/core/queue_approvals.py:239-297 | over every run, a waiting job has an artifact; with a pending file it shows the very step the job waits at, so that is what approving for good grants |
| `MissionConsents.HardGateHolds` | src/voxera/core/queue_approvals.py:302-377 | over every run, a job whose payload demands approval executes no step and is not done before it has been approved in the same attempt |
| `MissionConsents.HardGateAsksFirst` | src/voxera/core/queue_execution.py:565-566 | a pass over such a job in inbox/ leaves it waiting without a pending file, and the desk unchanged |
| `MissionConsents.OperationsPlaceJobs` | src/voxera/core/queue_daemon.py:1086-1122 | submitting puts a new name into inbox/; cancelling takes a job there or a waiting one to canceled/, without pending file, artifact or change of the desk; retrying takes a failed or cancelled one back to inbox/ and starts an attempt |
| `MissionOutcomes.DoneIffEveryStepSucceeds` | src/voxera/core/queue_approvals.py:760-840 | over every run, a settled job that was not denied is done if and only if every step of its mission is registered, not denied and works in its attempt |
| `MissionAttempts.DenialIsFinal` | src/voxera/core/queue_approvals.py:640-689 | after a denial the job is failed, and in any continuation that does not retry it nothing of it is executed |
| `MissionAttempts.EndedStaysForever` | src/voxera/core/queue_daemon.py:1086-1122 | a job that is done, failed or cancelled stays where it is and executes nothing in any continuation that does not retry it; one that is done, in any at all |
| `MissionAttempts.EndedRunsAgainIffRetriedAndProcessed` | src/voxera/core/queue_daemon.py:1106-1122 | an ended job executes a step in a continuation only if it is retried there and a pass then finds it in inbox/; and exactly then, if its first step runs without asking |
| `MissionAttempts.EndedIsFinalIffDoneOrUnstartable` | src/voxera/core/queue_daemon.py:1106-1122 | no continuation executes anything more of an ended job if and only if it is done, or its mission has no first step or one that is denied or unknown |
| `MissionAttempts.RetriedJobExecutes` | src/voxera/core/queue_daemon.py:1106-1122 | retried, processed and approved, a failed or cancelled job that has a first step to run executes it again |
| `MissionAttempts.StepExecutions` | src/voxera/core/queue_approvals.py:589-840 | executions are never taken back, and only a pass over a job in inbox/ or an operation on a waiting one adds any |
| `MissionAttempts.NamesakeDeletionIsHarmlessIffNothingRan` | src/voxera/core/queue_daemon.py:1124-1141 | when a finished job of its name is deleted, a waiting job's steps are still executed exactly once in every continuation if and only if none of them had been executed in its attempt |
| `MissionAttempts.ApprovalStartsOver` | src/voxera/core/queue_approvals.py:719-722 | without its pending file a job's next approval runs its first step again, so its trace is no longer that of one run |
| `MissionQueue.StepTouchesOneJob` | src/voxera/core/queue_approvals.py:589-840 | an operation on one job changes neither the place, resume state nor story of another: attempt, executed steps, approvals, denial |
| `MissionQueue.StepKeeps` | src/voxera/core/queue_approvals.py:589-840 | every operation keeps the invariant that ties each job's place, pending file, trace and approvals together |
| `Missions.RunLaws` | src/voxera/core/missions.py:494-646 | a run from any start step executes exactly what an uninterrupted run would, up to the step it pauses or breaks at; what is left from there completes it; other jobs are untouched |
| `Missions.TokenPassesStep` | src/voxera/core/missions.py:623-646 | a run that starts with a token for its first step does not pause at that step |
| `Missions.OutcomesTellTheEnding` | src/voxera/core/missions.py:520-646 | the recorded outcomes are one success for each step before the last attempted one, whose outcome is the ending |
| `Missions.SkillLaws` | src/voxera/skills/runner.py:237-440 | a denied or unknown skill and a pending answer change nothing; an allowed skill is executed once; one that asks is executed once, directly after a yes for its key |
| `Missions.SkillStory` | src/voxera/skills/runner.py:237-440 | an executed step, failed or not, is added to its job's trace once, and no other job's records change |
| `Missions.MissionSurvivesPendingFile` | src/voxera/core/queue_approvals.py:276-297 | a mission read back from its pending file equals the one written, whatever the payload says |
| `Missions.MissingFieldsHaveDefaults` | src/voxera/core/queue_approvals.py:701-715 | what a pending file does not say about its mission comes from the job or is a default |
| `Approvals.LookupFindsExactlyWhatWasGranted` | src/voxera/core/queue_approvals.py:201-237 | after any sequence of grants, a lookup succeeds if and only if that skill, capability and normalised scope was granted |
| `Approvals.GrantsAreDistinct` | src/voxera/core/queue_approvals.py:201-223 | no grant is stored twice |
| `Approvals.ApproveAlwaysWorksIffFirstIsLeast` | src/voxera/core/queue_approvals.py:727 | a standing grant answers later prompts of its skill exactly when the first declared capability is the least in sorted order, or the grant existed |
| `Approvals.ApproveAlwaysCanMiss` | src/voxera/core/queue_approvals.py:68-71 | a manifest for which "approve always" does not answer the next prompt |
| `Approvals.PromptKeepsOrder` | src/voxera/core/queue_approvals.py:72-148 | each yes adds exactly one answer, justified by a token, the grant of the asked capability and scope, or the allowlist; a pending answer changes nothing; a token at hand always gives a yes |
| `Approvals.PromptSaysYesIff` | src/voxera/core/queue_approvals.py:72-148 | a prompt says yes exactly to a token, which it uses up, to a standing grant of the first declared capability and scope, or to the allowlist in development mode; no grant changes |
| `Approvals.LawfulAt` | src/voxera/core/queue_approvals.py:72-148 | in a lawful history every single event is justified by what came before it |
| `Approvals.UsesNeverOutnumberApprovals` | src/voxera/core/queue_approvals.py:85-92 | in a lawful history tokens used for a key never outnumber its approvals |
| `MissionDaemon.QueueDaemon.HasApprovalGrant` | src/voxera/core/queue_approvals.py:225-237 | the search loop finds a grant exactly if it is stored |
| `MissionDaemon.QueueDaemon.GrantApprovalScope` | src/voxera/core/queue_approvals.py:201-223 | the stored grants after the call are those with the scope added once |
| `MissionDaemon.QueueDaemon.QueueApprovalPrompt` | src/voxera/core/queue_approvals.py:72-148 | token first and consumed, then grant, then allowlist, else pending |
| `MissionDaemon.QueueDaemon.RunMission` | src/voxera/core/missions.py:455-646 | the step loop refines the recursive run from the start step: same desk, ending and outcomes |
| `MissionDaemon.QueueDaemon.WritePendingArtifacts` | src/voxera/core/queue_approvals.py:239-297 | the pending file holds the mission and the step to resume at |
| `MissionDaemon.QueueDaemon.EnsureHardApprovalGate` | src/voxera/core/queue_approvals.py:302-377 | a gated job, from inbox/ or in pending/ already, waits without resume state and keeps an approval artifact it already has |
| `MissionDaemon.QueueDaemon.ProcessJobFile` | src/voxera/core/queue_execution.py:489-1070 | processing a job is one step of the queue's state machine |
| `MissionDaemon.QueueDaemon.ResolveApproval` | src/voxera/core/queue_approvals.py:589-840 | resolving an approval is one step of the queue's state machine: approve resumes, deny fails the job |
| `MissionDaemon.QueueDaemon.CancelJob` | src/voxera/core/queue_daemon.py:1086-1104 | cancelling a job in inbox/ or pending/ is one step of the queue's state machine |
| `MissionDaemon.QueueDaemon.RetryJob` | src/voxera/core/queue_daemon.py:1106-1122 | retrying a failed or cancelled job is one step of the queue's state machine |
| `RunnerPasses.AtMostOneCriticalPass` | src/voxera/automation/runner.py:503-543 | under every interleaving of open, try lock, load, emit, record, save, release and crash, at most one process is between taking and giving up the lock |
| `RunnerPasses.OneShotFiresOnce` | src/voxera/automation/runner.py:337-429 | a one-shot automation gets at most one unforced job plus one for each fire whose follow-up write was lost, with switches, forced fires and removals at any moment |
| `RunnerPasses.UnlockedFireIsSafeIffNobodyOwes` | src/voxera/automation/runner.py:442-455 | an unlocked fire keeps the bound in every locked continuation exactly when no process holds a copy it will still fire |
| `RunnerPasses.UnlockedFireFiresTwice` | src/voxera/automation/runner.py:442-455 | a run from an idle system: load under the lock, an unlocked fire, and the pass completes a second fire of the same one-shot |
| `RunnerPasses.OwedFireCompletes` | src/voxera/automation/runner.py:458-483 | a process that owes a fire can go on to complete it whatever has happened on the disk since it loaded |
| `RunnerPasses.LockedRunsAreQuiet` | src/voxera/automation/runner.py:503-525 | runs in which every unforced fire is made under the lock never fire while another process owes one |
| `RunnerPasses.StepsRefineProcess` | src/voxera/automation/runner.py:324-439 | made without interruption, the protocol's steps for one definition leave the files, the fires and the continuation that the method for one definition leaves, fault by fault |
| `RunnerPasses.StepKeeps` | src/voxera/automation/runner.py:289-439 | every step of the protocol keeps the invariant of lock, snapshots, disk and fire counts |
| `RunnerLock.AcquireRunnerLock` | src/voxera/automation/lock.py:65-97 | the lock is obtained exactly when nobody holds it, and otherwise stays with its holder |
| `RunnerLock.ReleaseRunnerLock` | src/voxera/automation/lock.py:100-107 | releasing gives up the caller's own lock only, and forgets the descriptor |
| `RunnerLock.ReleaseIsIdempotent` | src/voxera/automation/lock.py:100-107 | a second release does not free a lock that another pass has taken in between |
| `AutomationSpacing.FiresAreSpaced` | src/voxera/automation/runner.py:386-395 | for any clock readings, switches, failures and forced fires, an unforced fire comes an interval or more after the fire before it |
| `AutomationSpacing.NoBursts` | src/voxera/automation/runner.py:218-229 | if no forced fire is stamped before the unforced fire last before it, unforced fires are pairwise an interval apart, and n of them in any window take n - 1 intervals, over any readings of the clock |
| `AutomationSpacing.ForcedFireKeepsBoundIffClockHolds` | src/voxera/automation/runner.py:166-172 | in any life without an earlier set-back, a forced fire keeps the window bound in every continuation without a further set-back exactly if it is not stamped before the last unforced fire |
| `AutomationSpacing.StampNeverGoesBack` | src/voxera/automation/store.py:98-127 | over any sequence of fires and switches that load and save without interruption, for any clock, the stored update time never goes back nor below the creation time |
| `RunnerSpacing.LockedPassesKeepTheInterval` | src/voxera/automation/runner.py:386-395 | under every interleaving of locked passes with switches, removals and forced fires, completed unforced fires of a recurring automation are an interval apart and no window holds a burst, if no forced fire is stamped before the last unforced one |
| `RunnerCrowding.ForcedFireKeepsSpacingIffNobodyCrowds` | src/voxera/automation/runner.py:442-455 | after a forced fire of a recurring automation, every unforced fire comes an interval or more after the fire before it, of any kind and in every continuation without a crowding fire, exactly if no process owes a fire stamped less than an interval after the forced one |
| `RunnerCrowding.UncrowdedPassesKeepTheInterval` | src/voxera/automation/runner.py:386-395 | from an idle start, under every interleaving without a crowding fire, no unforced fire follows a fire of any kind within the interval |
| `RunnerStamps.StepLowersStampIffStale` | src/voxera/automation/runner.py:393-395 | a step of the protocol lowers the stored update time exactly if it saves a copy although the stored stamp exceeds the pass's stamp and the copy's creation and update times |
| `RunnerStamps.StoredStampNeverGoesBack` | src/voxera/automation/runner.py:393-395 | over every interleaving without such a save the stored update time never goes back |
| `RunnerStamps.SwitchDuringPassIsLost` | src/voxera/automation/runner.py:386-395 | a run in which an operator's switch-off during a pass is undone and the stored update time goes from 1000 back to 20 |
| `RunnerSwitches.SwitchOffHoldsIffNobodyOwes` | src/voxera/automation/runner.py:386-395 | a recurring automation that is off stays off or absent in every continuation that does not switch it on, exactly if no process owes a fire of it |
| `RunnerSwitches.SwitchOffAtAnyMoment` | src/voxera/automation/runner.py:386-395 | the same at any moment of any run, with unlocked and forced fires, that starts with no process in a pass |
| `AutomationSpacing.ClockSetBackBreaksSpacing` | src/voxera/automation/runner.py:386-391 | a run with the clock set back in which two unforced fires are closer than an interval |
| `AutomationRunner.FireReloads` | src/voxera/automation/runner.py:378-395 | the definition a completed fire saves loads again as what was saved, and its update time does not go back |
| `AutomationRunner.CallFiresIffItsTimeHasCome` | src/voxera/automation/runner.py:140-216 | an unforced call fires exactly if the definition is enabled and its trigger's own condition holds: never fired and the set time or the delay from creation reached, or the next run, at first an interval from creation; cron and watch triggers never fire; a forced call needs no time; it is completed exactly if the inbox takes the job and every write succeeds |
| `AutomationRunner.PassSubmitsExactlyTheDue` | src/voxera/automation/runner.py:458-483 | a pass without a fault submits one new job for each enabled definition whose time has come, and nothing else |
| `AutomationRunner.FireLeaves` | src/voxera/automation/runner.py:378-395 | a fire turns a one-shot definition off without a next time, and arms a recurring one for one interval after the stamp |
| `AutomationRunner.JobNamesTellTheirStamp` | src/voxera/automation/history.py:67-82 | the job of a fire is named after its stamp, so jobs of different stamps never share a name |
| `RunnerDueTimes.OneShotsWaitForTheirTime` | src/voxera/automation/runner.py:140-216 | over every interleaving, with forced fires, switches and removals, no unforced job of a one-shot automation is stamped before its time, and cron and watch automations emit none |
| `AutomationRunner.OneShotIsDoneIffFiledUnderItsId` | src/voxera/automation/runner.py:378-395 | after a completed fire the file a one-shot was read from is still due exactly if it is not named after the id |
| `AutomationRunner.MisfiledOneShotFiresTwice` | src/voxera/automation/runner.py:378-395 | a one-shot with id `a` in a file named `copy`: two passes emit two jobs, and it is still due |
| `AutomationRunner.ProcessSideEffects` | src/voxera/automation/runner.py:324-439 | a skip leaves no trace, an error never advances the definition, a call emits at most one job under a new name, and a lost save is recorded with the job |
| `AutomationRunner.RaisedEnds` | src/voxera/automation/runner.py:480-483 | an exception ends the pass: later definitions are not looked at |
| `AutomationRunner.Runner.ProcessAutomationDefinition` | src/voxera/automation/runner.py:289-439 | the method's writes and result are those of the specification, fault by fault |
| `AutomationRunner.Runner.RunDueAutomations` | src/voxera/automation/runner.py:458-483 | one time stamp and one listing of the definitions, made at the start, for the whole pass, definition by definition |
| `AutomationModels.ListingIsExact` | src/voxera/automation/store.py:160-195 | for all files: one entry for each file that validates, whatever its name, and nothing else, in ascending order of ids |
| `AutomationModels.FiledDefinitionsAreListedOnce` | src/voxera/automation/store.py:160-195 | with every file named after its definition's id, no id is listed twice |
| `AutomationModels.ListAutomationDefinitions` | src/voxera/automation/store.py:160-195 | the loop skips files that fail validation and sorts by id |
| `AutomationModels.DefinitionStore.List` | src/voxera/automation/store.py:160-195 | the store lists its own files that way |
| `AutomationModels.DefinitionStore.Save` | src/voxera/automation/store.py:98-127 | saving writes the touched definition under its id, or changes nothing |
| `AutomationModels.DefinitionStore.Load` | src/voxera/automation/store.py:130-157 | loading gives the validated file of a legal id, and an error otherwise |
| `AutomationModels.ValidationIsProjection` | src/voxera/automation/models.py:240-323 | whatever loads is valid |
| `AutomationModels.ValidDefinitionSurvives` | src/voxera/automation/models.py:240-323 | a valid definition written to a file loads as itself |
| `AutomationModels.WhatValidationFillsInAndRefuses` | src/voxera/automation/models.py:124-323 | a watch without an event is for new entries; a time of zero and an id that starts with a sign are refused |
| `AutomationModels.TriggerSurvives` | src/voxera/automation/models.py:116-163 | a valid trigger of each kind survives writing and validation |
| `AutomationModels.TouchNeverGoesBack` | src/voxera/automation/models.py:326-344 | touching never lowers the update time of the copy at hand nor puts it below the creation time, whatever the clock says, and keeps validity |
| `FilesListTree.ListingIsCappedPreorder` | src/voxera_builtin_skills/files_list_tree.py:81-117 | the listing is the first `cap` entries of the depth-limited preorder, directories are counted and files and directories add up, truncated exactly when the preorder is that long; it fails exactly if an unreadable directory comes before the cap |
| `FilesListTree.List` | src/voxera_builtin_skills/files_list_tree.py:81-117 | the stack loop refines the recursive preorder and ends on cyclic directory graphs |
| `FilesListTree.ListTree` | src/voxera_builtin_skills/files_list_tree.py:17-117 | bounds are clamped and a root that is not a directory is refused |
| `FilesFind.FindTakesFirstMatches` | src/voxera_builtin_skills/files_find.py:97-127 | the results are the first `cap` entries after the root that pass the filters, every entry read but the root was scanned, and truncated means the cap was reached |
| `FilesFind.FindAllIsListing` | src/voxera_builtin_skills/files_find.py:17-28 | a find that keeps everything at cap c equals a listing at cap c + 1 without its root |
| `FilesFind.RootComesFirst` | src/voxera_builtin_skills/files_find.py:17-28 | only the first entry of the preorder is the root |
| `FilesFind.Search` | src/voxera_builtin_skills/files_find.py:105-127 | the loop over the stack-driven generator refines the capped consumer of the preorder |
| `FilesGrepText.GrepTakesFirstMatches` | src/voxera_builtin_skills/files_grep_text.py:112-147 | the matches are the first `cap` of the file-by-file, line-by-line enumeration of the preorder; it fails exactly if something unreadable comes before the cap |
| `FilesGrepText.CountersCountFiles` | src/voxera_builtin_skills/files_grep_text.py:112-132 | the counters are the files read, those over the size limit, and the others that are not text |
| `FilesGrepText.FileMatchesAreItsLines` | src/voxera_builtin_skills/files_grep_text.py:130-147 | a file contributes each of its matching lines once, in line order, and nothing else |
| `FilesGrepText.Search` | src/voxera_builtin_skills/files_grep_text.py:112-147 | the nested loops refine the capped consumer, counters of skipped files included |
| `FilesGrepText.SearchLines` | src/voxera_builtin_skills/files_grep_text.py:130-147 | the inner loop stops at the cap with the first matches of the file |
| `FileTree.PreorderIsReachable` | src/voxera_builtin_skills/files_list_tree.py:95-117 | the preorder lists exactly the entries that following visible links within the depth limit leads to |
| `FileTree.SiblingsAscend` | src/voxera_builtin_skills/files_list_tree.py:95-117 | siblings are visited in ascending lower-case order, each visible link once |
| `FileTree.PopUnfolds` | src/voxera_builtin_skills/files_list_tree.py:88-117 | popping an entry and pushing its children leaves the rest of the preorder on the stack |
| `BoundedWalk.ConsumeTakesFirstHits` | src/voxera_builtin_skills/files_find.py:105-127 | a capped consumer of a preorder gives the first hits, or fails exactly if a failing entry comes before the cap |
| `JsonRecovery.ExtractFirstBalancedObject` | src/voxera/brain/json_recovery.py:66-94 | the scanner returns the shortest non-empty balanced slice from the first brace, or nothing if there is none |
| `JsonRecovery.ExtractedIsShortest` | src/voxera/brain/json_recovery.py:66-94 | what is extracted starts at the first brace, is balanced outside strings, and has no balanced proper prefix |
| `JsonRecovery.ExtractIsIdempotent` | src/voxera/brain/json_recovery.py:66-94 | extracting from an extracted object returns it whole |
| `JsonRecovery.PrintedObjectIsShortest` | src/voxera/brain/json_recovery.py:66-94 | a JSON object printed with any escapes and white space is balanced and no proper prefix of it is |
| `JsonRecovery.PrintedObjectIsExtracted` | src/voxera/brain/json_recovery.py:66-94 | for any prefix without an opening brace and any suffix exactly the printed object is extracted |
| `JsonRecovery.PrintedObjectIsRecovered` | src/voxera/brain/json_recovery.py:8-43 | recovery of a text without a fence around a printed object parses exactly that object |
| `JsonRecovery.FencedObjectIsRecovered` | src/voxera/brain/json_recovery.py:8-43 | a fence around a printed object gives what it holds if that parses, and otherwise the object, whatever surrounds it in the fence |
| `Retention.SelectAgeThenCount` | src/voxera/core/queue_daemon.py:842-858 | age, then count keeps exactly the entries that are young enough and have fewer than the limit newer than them |
| `Retention.SelectUnion` | src/voxera/core/artifacts.py:117-134 | the union of too old and beyond the count is exactly the complement of the same set |
| `Retention.SelectBoth` | src/voxera/core/queue_daemon.py:814-870 | under one order and one cutoff the two policies keep the same entries |
| `Retention.TieBreakingMattersOnlyAtTheCount` | src/voxera/core/artifacts.py:109-134 | with their opposite tie-breaking the policies agree exactly when the count does not fall inside a group of one age |
| `Retention.KeptIsNewestPrefix` | src/voxera/core/queue_daemon.py:842-858 | everything newer than a kept entry is kept |
| `Retention.NothingKeptIsOlder` | src/voxera/core/queue_daemon.py:842-858 | no removed entry is newer than a kept one |
| `Retention.KeptCountIsExact` | src/voxera/core/queue_daemon.py:842-858 | of the entries that are not too old as many are kept as the count allows, or all without a count |
| `Retention.RulesMean` | src/voxera/core/queue_daemon.py:832-858 | from the clock, the limits and the files' own times: without a count, or with a negative one, exactly the units go of which every file is older than a positive maximal age; with a count, of the others that many stay |
| `Retention.PruneAgainKeepsAll` | src/voxera/core/artifacts.py:117-134 | pruning again with the same cutoff removes nothing |
| `Retention.FailedUnitsStable` | src/voxera/core/queue_daemon.py:814-870 | the same for the failed bucket, whose units are a job and its error sidecar |
| `Retention.FailedBucket.PruneFailedArtifacts` | src/voxera/core/queue_daemon.py:807-882 | a job and its sidecar are kept or removed together, by the age of the newer; the counts are what was removed; which ones, and how many stay, is stated in the files' own times |
| `Retention.ArtifactsRoot.PruneArtifacts` | src/voxera/core/artifacts.py:59-175 | pruning removes exactly the entries not kept, except those it may not or cannot delete; a dry run changes nothing; which ones, and how many stay, is stated in the entries' own times |
| `QueueBuckets.RunConservesDocuments` | src/voxera/core/queue_daemon.py:1086-1141 | over every run of submissions, gates, pauses, ends, cancels, retries, deletions and relocations each document is in one place with its content, and only deletion removes one |
| `QueueBuckets.StepConservesDocuments` | src/voxera/core/queue_daemon.py:332-369 | each operation keeps the documents, up to what it submits or deletes |
| `QueueBuckets.MoveConservesIffFree` | src/voxera/core/queue_paths.py:9-31 | a move keeps every document exactly when the name it moves to is free |
| `QueueBuckets.StateTravelsWithJob` | src/voxera/core/queue_paths.py:15-31 | the state sidecar moves with its job under the new stem, and nothing else moves |
| `QueueBuckets.JobsGoWhereTheyAreSent` | src/voxera/core/queue_daemon.py:1086-1141 | for every operation: which job it takes from where to where, under which name, and that it changes nothing without one |
| `QueueBuckets.SideFilesFollowTheJob` | src/voxera/core/queue_daemon.py:1086-1141 | for every operation: what becomes of pending, approval and error files |
| `QueueBuckets.ReferencesFindJobs` | src/voxera/core/queue_daemon.py:1069-1084 | a bare reference means the first job of that name, or of that name after "job-", in the order of the buckets searched |
| `QueueBuckets.RunKeepsSidecars` | src/voxera/core/queue_paths.py:15-31 | over every run a document keeps the state sidecar it had, wherever it is moved; one without stays without exactly if it is never moved to a place where a state file lies |
| `QueueBuckets.StepKeepsSidecars` | src/voxera/core/queue_paths.py:26-30 | the same for one operation: the exact condition under which a document takes over a state file |
| `QueueBuckets.StepStaysTidyIffNoOrphan` | src/voxera/core/queue_daemon.py:1132-1141 | an operation leaves a state file without a job exactly if it is a confirmed deletion of a job that has one |
| `QueueBuckets.NothingIsPickedUpInTidyRuns` | src/voxera/core/queue_daemon.py:1086-1141 | while no such deletion happens no document ever takes over another's state |
| `QueueBuckets.DeletedStateIsPickedUp` | src/voxera/core/queue_daemon.py:1132-1141 | delete, submit, cancel: the new job has the deleted job's state beside it |
| `QueueBuckets.StateIsWrittenBesideItsJobIff` | src/voxera/core/queue_state.py:25-43 | a job's state is written beside it exactly if no bucket before has a state file of its name and none after has one that it lacks; otherwise a namesake's state is overwritten |
| `QueueBuckets.CancelCleansUpIffNoCollision` | src/voxera/core/queue_daemon.py:1086-1104 | cancelling removes the resume state of a pending job exactly when canceled/ has no job of its name |
| `QueueBuckets.DeleteDropsResumeStateOfNamesake` | src/voxera/core/queue_daemon.py:1124-1141 | deleting a finished job drops the resume state of a waiting job exactly if they have the same name, which then goes back to inbox/ |
| `QueueBuckets.OthersKeepResumeState` | src/voxera/core/queue_daemon.py:351-369 | no other operation touches the resume state of a waiting job that it does not move |
| `QueueBuckets.Queue.AddInboxPayload` | src/voxera/core/inbox.py:112-116 | a taken id is refused and nothing changes |
| `QueueBuckets.Queue.MoveJobWithSidecar` | src/voxera/core/queue_paths.py:9-31 | the move and its collision renaming |
| `QueueBuckets.Queue.CancelJob` | src/voxera/core/queue_daemon.py:1086-1104 | cancel: the first match in inbox/, then pending/ |
| `QueueBuckets.Queue.RetryJob` | src/voxera/core/queue_daemon.py:1106-1122 | retry: the first match in failed/, then canceled/, without its error sidecar |
| `QueueBuckets.Queue.DeleteTerminalJob` | src/voxera/core/queue_daemon.py:1124-1141 | delete: only a finished job, only with its stem as confirmation |
| `QueueBuckets.Queue.AutoRelocateLegacyJobs` | src/voxera/core/queue_daemon.py:332-349 | the loop is a run of single relocations, one for each name listed, and leaves none of them in the queue root |
| `QueueBuckets.Queue.AutoRelocateMisplacedPendingJobs` | src/voxera/core/queue_daemon.py:351-369 | only jobs without a pending file are moved, one by one |
| `QueuePaths.DeterministicTargetPath` | src/voxera/core/queue_paths.py:34-50 | the search ends after at most as many indices as there are entries, with an absent name of the smallest free index |
| `QueuePaths.SuffixStartsAtLastDot` | src/voxera/core/queue_paths.py:40-50 | an index goes before the suffix, which starts at the last dot that is neither first nor last in the name |
| `QueuePaths.IndexedInjective` | src/voxera/core/queue_paths.py:40-50 | different indices give different names |
| `QueuePaths.FirstIndexedCount` | src/voxera/core/queue_paths.py:40-50 | a name and its first n variants are n + 1 names |
| `Lineage.GrownLineage` | src/voxera/core/queue_contracts.py:228-251 | in every forest grown from jobs without lineage a job descends from a root, its depth is the distance, and from the second generation on it names its root exactly when that id has no leading white space |
| `Lineage.LineageFollowsDescent` | src/voxera/core/queue_contracts.py:228-251 | for every line of descent: the depth, the parent's id, the root's id and the role in the last job's payload |
| `Lineage.ChildOfLineage` | src/voxera/core/queue_contracts.py:81-251 | the depth and sequence of a child from those its parent states, where negative and missing ones count as unsaid |
| `Lineage.EveryJobDescends` | src/voxera/core/queue_daemon.py:612-662 | every job of a forest is the end of a line of descent |
| `Lineage.LeadingSpaceLosesTheRoot` | src/voxera/core/queue_contracts.py:241-247 | the grandchild of any job whose name starts with white space names another root |
| `Lineage.ChildrenAreNumbered` | src/voxera/core/queue_daemon.py:598-662 | the children of a parent carry 1 to n in the order of its list, and no child is missing from the list |
| `Lineage.NextIndexCounts` | src/voxera/core/queue_daemon.py:598-610 | whatever is in the list file, each reference added raises the next index by one |
| `Lineage.StepKeeps` | src/voxera/core/queue_daemon.py:612-684 | submitting and enqueueing keep every child listed once, by its parent, with the lineage computed for it |
| `Lineage.ExtractIsIdempotent` | src/voxera/core/queue_contracts.py:90-125 | lineage extracted from extracted lineage, nested or not, is the same |
| `Lineage.MetadataSurvives` | src/voxera/core/queue_contracts.py:74-125 | clean metadata written as fields, nested or not, reads back as it was |
| `Lineage.ParentQueue.NextChildSequenceIndex` | src/voxera/core/queue_daemon.py:598-610 | the loop counts the references; a missing or broken file counts as none |
| `Lineage.ParentQueue.EnqueueChildJobFromParent` | src/voxera/core/queue_daemon.py:612-684 | enqueueing writes the child and its reference, and a blank goal changes nothing |
| `ExecutionResult.RefreshIsRebuild` | src/voxera/core/queue_contracts.py:809-841 | refreshing a built result against a later directory equals building it there, up to the time stamp |
| `ExecutionResult.LastRefreshCounts` | src/voxera/core/queue_contracts.py:809-841 | for any result, built or not, only the last refresh counts and repeating it changes nothing |
| `ExecutionResult.ObservationPartitions` | src/voxera/core/queue_contracts.py:706-753 | observed and missing partition the expected artifacts; the status says which part is empty |
| `ExecutionResult.AddingFilesNeverShrinksObserved` | src/voxera/core/queue_contracts.py:756-789 | with more files nothing observed is lost, nothing new is missing, and the status does not get worse |
| `ExecutionResult.EmptyDirectoryShowsBaseFamilies` | src/voxera/core/queue_contracts.py:756-789 | in an empty directory exactly the artifacts named like a base family are observed, and the minimum is missing |
| `ExecutionResult.NormalizeLaws` | src/voxera/core/queue_contracts.py:699-703 | the normalised list has exactly the stripped non-empty items, strictly ascending |
| `ExecutionResult.NormalizeIsIdempotent` | src/voxera/core/queue_contracts.py:699-703 | normalising again changes nothing |
| `ExecutionResult.ContractLaws` | src/voxera/core/queue_contracts.py:756-789 | families are the two base ones and those of the files there, references are the files there, both in order |
| `ExecutionResult.FamiliesAreNamedAfterFiles` | src/voxera/core/queue_contracts.py:756-789 | a family is named after its file, with one exception |
| `ExecutionResult.FirstDeclarationCounts` | src/voxera/core/queue_contracts.py:552-561 | of the capabilities, the run and the intent, the first that names an artifact decides what is expected |
| `ExecutionResult.MinimumMatchesDirectory` | src/voxera/core/queue_contracts.py:792-806 | the minimum is complete exactly when all required files are there |
| `ExecutionResult.CompareExpectedArtifacts` | src/voxera/core/queue_contracts.py:706-753 | the loop splits the expected list by what is seen, keeping its order |
| `ExecutionResult.BuildArtifactContract` | src/voxera/core/queue_contracts.py:756-789 | the loop over the file table computes the contract |
| `Health.SnapshotShowsTrace` | src/voxera/health.py:162-190 | after any run from an empty snapshot the failure count is the fallbacks since the last success or reset of the current state, degraded is three or more, and backoff, reason and time agree with that count |
| `Health.CountersShowTrace` | src/voxera/health.py:308-328 | after any run from an empty snapshot a counter holds what was added to it since the last reset of its group |
| `HealthTrace.FieldsShowLastWrite` | src/voxera/health.py:142-328 | after any run from an empty snapshot, the last error, the last back-off and the last shutdown are those that were recorded last and not reset since |
| `HealthTrace.ReadingIsWellFormed` | src/voxera/health.py:48-128 | whatever a file holds, each field that is read has the type and the form the daemon writes |
| `HealthTrace.WellFormedIsRead` | src/voxera/health.py:48-128 | a field of that form is read as it is |
| `HealthTrace.NumbersAreConverted` | src/voxera/health.py:20-128 | a count in any form is read as the integer it gives, or 0, and a time as a float |
| `Health.DegradedWithoutTimeIffForgotten` | src/voxera/health_reset.py:20-36 | a degraded daemon has no time since when exactly if the recent history was reset while it was degraded |
| `Health.NormalizeIsIdempotent` | src/voxera/health.py:48-128 | normalising is idempotent, so a snapshot reads back as it was written |
| `Health.BackoffGrows` | src/voxera/health.py:31-45 | the wait never shrinks as failures go on, stays below the cap, and is zero before the third |
| `Health.WaitsFollowSettings` | src/voxera/health.py:31-45 | once, four and fifteen times the base from the third, fifth and tenth failure on, under the cap; base and cap are the settings that are numbers, or two and sixty |
| `Values.PrintedIntIsParsed` | src/voxera/health.py:20-28 | the text of an integer parses as it, with a sign and with white space around it |
| `Values.UnderscoreIsSkipped` | src/voxera/health.py:20-28 | an underscore between two numerals is skipped |
| `Values.FloatsAreTruncated` | src/voxera/health.py:20-24 | a float is truncated toward zero, and booleans are 1 and 0 |
| `Health.ResetLeavesTheRest` | src/voxera/health_reset.py:105-141 | a reset changes only its fields, the derived wait, its counters and the time stamp |
| `Health.GroupsGoByName` | src/voxera/health_reset.py:38-59 | the counters of a group share a prefix that those of the other do not have |
| `Health.ChangesAreTheDifferences` | src/voxera/health_reset.py:109-116 | the report has exactly the fields that differed, with the values before and after |
| `Health.SecondResetReportsPhantoms` | src/voxera/health_reset.py:109-116 | a reset after a reset of the same scope reports exactly the numeric fields, which are 0 already |
| `Health.HealthFile.RecordBrainFallbackAttempt` | src/voxera/health.py:261-278 | read, degrade, stamp and write are one step of the run |
| `Health.HealthFile.RecordMissionSuccess` | src/voxera/health.py:281-289 | read, clear, stamp and write are one step of the run |
| `Health.HealthFile.DegradationAfter` | src/voxera/health.py:162-190 | the field-by-field update of the degradation state |
| `Health.HealthFile.IncrementHealthCounter` | src/voxera/health.py:308-328 | one counter grows, the last error is kept if there is one |
| `Health.HealthFile.ResetHealthSnapshot` | src/voxera/health_reset.py:86-154 | the loops clear the scope's fields and zero the group's counters, and report what they changed |
| `Policy.Decide` | src/voxera/policy.py:20-69 | the loop and the escalations after it compute the join of all contributions |
| `Policy.JoinIsLeastUpperBound` | src/voxera/policy.py:27-38 | the capabilities' part is the least decision at or above each of theirs |
| `Policy.DecisionMeans` | src/voxera/policy.py:23-65 | denied exactly when some capability is; allowed exactly when all are, none reaches the network and nothing else asks |
| `Policy.DecisionIsMonotone` | src/voxera/policy.py:23-65 | adding a capability or a demand, or tightening a policy field, never loosens the decision |
| `Policy.OrderDoesNotMatter` | src/voxera/policy.py:27-38 | order and repetition of capabilities do not matter |
| `Policy.DecisionInPolicyFields` | src/voxera/policy.py:20-69 | in terms of the policy's fields: denied exactly if a declared capability is denied by its own field; allowed exactly if all declared capabilities are known, none changes the network or installs, the fields of the others allow them, and nothing else asks |
| `Policy.ProjectionInCapabilities` | src/voxera/core/capability_semantics.py:17-153 | destructive exactly with file deletion, read-only exactly if no named capability mutates and the scope is not broader; each boundary exactly with the capabilities that touch it |
| `Policy.AllowingNetworkChangesStillAsks` | src/voxera/policy.py:40-48 | a skill with network changes or installs is never simply allowed |
| `Policy.EnforceRuntimeCapabilities` | src/voxera/skills/runner.py:89-193 | the checks before a step is run, in order, compute the enforced verdict |
| `Policy.VerdictsAgreeIff` | src/voxera/skills/runner.py:89-193 | the enforced verdict is never looser than the policy's, and equals it exactly if the policy denies or the manifest and its network argument pass every check |
| `Policy.ManifestCapabilitySemantics` | src/voxera/core/capability_semantics.py:132-153 | the loop computes the joined intent and boundaries |
| `Policy.MissionProjectsAsOneSkill` | src/voxera/core/missions.py:395-416 | a mission's intent and boundaries are those of one skill with all its steps' capabilities and demands |
| `Policy.DryRunMeans` | src/voxera/core/missions.py:418-424 | blocked exactly if a step is denied; ready without approval exactly if every step is allowed |
| `Policy.ApprovalsAreTheAskingSteps` | src/voxera/core/missions.py:423 | as many approvals as steps that ask |
| `Policy.Simulate` | src/voxera/core/missions.py:383-453 | the loop over the steps computes the dry run |
| `DryRuns.ApprovalsAreAnnounced` | src/voxera/core/missions.py:418-424 | in each attempt of any run a job takes at most as many approvals as the dry run of its mission announced, and one more for a hard gate |
| `DryRuns.ReadyMissionIsDeniedIffVerdictsDiffer` | src/voxera/core/missions.py:383-453 | a mission reported blocked has a step that the run denies; one not reported blocked has one exactly if some step's verdicts differ |
| `DryRuns.ReadyMissionRunsThrough` | src/voxera/core/missions.py:383-453 | a mission not reported blocked whose verdicts agree runs all its steps, if each is granted and succeeds |

## Left out

- Missions.World: what a skill does is a parameter: whether it is registered, the verdict on a step, and whether executing it in an attempt succeeds. `DryRuns.Enforces` ties the verdict to the policy; the arguments of a step enter only through its `network` argument.
- MissionQueue.Plans: how a payload becomes a mission, by planning or from its own steps, is a parameter; replanning after a failed attempt is not modelled, so a failed run ends its job.
- MissionDaemon.QueueDaemon.ProcessJobFile: promises nothing of replanning, invalid payloads, assistant requests, or a shutdown in the middle of a job; these paths of the source are not modelled.
- MissionQueue.Inv: a job keeps its stem on its way through the buckets; the collision renaming of a move, on cancelling and retrying too, is in QueueBuckets.
- MissionAttempts.EndedStaysForever: deleting a finished job is not among the operations here, and a job submitted later under its name counts as another one; what deletion does to files is in QueueBuckets, to a waiting namesake in `MissionAttempts.NamesakeDeletionIsHarmlessIffNothingRan`.
- QueueBuckets.RunConservesDocuments: assumes, as the code does, that the name with the time stamp appended after a collision is free; without that `QueueBuckets.MoveConservesIffFree` says exactly which moves lose a document.
- QueueBuckets.Resolve: job references are bare names; references that are existing file system paths are accepted by the code directly.
- QueueBuckets.Apply: operations move state sidecars but do not write them; where a write would go is `QueueBuckets.StatePath`. The text of state, approval and error files is opaque.
- QueueBuckets.SideFilesFollowTheJob: an error file that is archived counts as gone, and the artifact directory of a deleted job is not part of the files.
- RunnerPasses.Act: an unlocked fire, a switch and a removal are single steps; the file operations inside them are not interleaved.
- RunnerPasses.OneShotFiresOnce: definitions are filed under their id and their trigger is not edited; an id is not defined anew after it was removed.
- RunnerLock.LockFile: the kernel's exclusive lock is a field that names the descriptor holding it; the payload written into the lock file is not modelled.
- AutomationRunner.Process: hashes, the wall clock and the success of each write are parameters; the inbox's anchor check on a payload is a flag.
- AutomationModels.Validate: validation of the payload template as a queue request is a predicate; JSON parsing and the types of the other fields are given.
- FileTree.Tree: directories are a finite graph of names; reading fails or gives lines, and the text decoding, size limits and path resolution of the skills enter as the kind of a node.
- FilesFind.Filter: glob matching is a parameter.
- FilesGrepText.Query: lower-casing is ASCII.
- Text.IsSpace: white space is ASCII; `str.strip` also removes other Unicode white space.
- JsonRecovery.RecoverJsonObject: the JSON parser and the regular expression for code fences are parameters; exact recovery is stated for printed objects.
- Retention.ArtifactsRoot: sizes, reclaimed bytes and the listing of what was pruned are not modelled; an entry outside the root or that cannot be deleted is in a given set.
- Lineage.Step: jobs keep their names, and the new name of a child job is unused; title and goal of a child are not in its payload here.
- ExecutionResult.BuildExecutionResult: entries of the result, review summary and evidence bundle that do not depend on the artifact directory are opaque; `Path.stem` is a parameter.
- Health.Normalize: fields other than the ones listed, and the panel's own table, are not modelled; counters are integers; an unknown reset scope or counter group, which raises before anything is written, has no value in the model.
- Policy.Decide: the text of the reasons is not modelled.
- The daemon lock of the queue daemon: its stale and forced unlock remove the lock file, so it does not give mutual exclusion.
- Model adapters, HTTP, notifications, command line, panel, setup and the keyword heuristics of the planner: input and output, or rules that are their own specification.
- Log lines, messages and redaction: they would only add easy members.
