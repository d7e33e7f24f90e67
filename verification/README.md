# Ring Promoter: a verified model

Ring Promoter moves versions of applications through an ordered list of rings. This project models
the parts of it that have to be right under concurrency, crashes and unlucky outcomes, and proves
what they promise. `dafny verify dfyconfig.toml` checks everything.

**Multi-app pipelines** (`needs_graph`, `pipeline_config`, `pipeline_validation`, `schedule_pass`,
`scheduler`, `scheduler_invariant`, `scheduler_theorems`, `outcomes`, `confluence`, `approval_delivery`,
`termination`, `live_run`). `PipelineConfig` has the three-colour search for a needs cycle as a class
that changes its colour map, and as a function; `PipelineValidation` is the validation around it. `Scheduler` is a run as a transition system: one step is one critical
section, one channel operation or one nudge of the scheduler loop, a stage goroutine, Decide or
Cancel, so every interleaving is a sequence of steps; goroutines carry program counters. `LiveRun` is
the run's own fields with the critical sections that change them in place, each proved to be its step.
`Outcomes` reads from the steps of a run how each stage was told to end, and shows that it ended so.
The number of stages, the graph and the length of a chain of reruns are not bounded. The results need
both files of the source: the scheduler stops at the right moment because the needs are acyclic.

**Promotion, journal and recovery** (`rings`, `promoter_world`, `promoter_effects`, `promoter_ops`,
`promoter_talk`, `promoter`, `promoter_crash`, `promoter_chain`, `promoter_lives`, `promoter_shared`, `promoter_runs`,
`promoter_startup`). A `World` is one moment: the stored ring states,
the history, the journal, and what each ring really runs. `Promoter` holds the operations as methods
over a store and a cluster; each atomic step appends one effect to a ghost log, and a crash is a cut
anywhere in that log. What the outside world answers is arbitrary; it keeps every answer, and each
operation's contract says which questions were asked in which order and that the answers decide how it
ended (`promoter_talk`). The gates are asked through the model of the gates. `Safe` says what holds at every
cut; it is proved of every prefix of every operation, so of every crash point. A ring is in doubt when
a crash cut a deploy off on it, until what it runs has been stored or found stored and the deploy has
ended: such a deploy is adrift, and may land at any time, once or more often, as long as it has not
ended. `promoter_lives` follows any number of processes, each of which starts on what the one before it
left. `promoter_shared` interleaves the operations of several applications over one store, and crashes
with a deploy of each under way; `promoter_startup` resolves the rows that such a crash leaves.

**Security policy** (`security_scans`, `scan_store`, `security_verdict`, `security_theorems`, `security_laws`): the stable
severity sort and its cap, recording, the store with its joined keys and its limit, waivers, the verdict.

**Gates** (`gates`, `gate_theorems`, `gate_laws`): the ordered list of gates with its one override, and the ledger
entries they leave; `texts` is the trimming of reasons, codes and names. **Windows** (`windows`): weekly windows across midnight and across the week's end.
**Ledgers** (`audit_ledger`, `failure_logs`): paging an append-only ledger while it grows, and which
entries keep their logs.

What is assumed: a failed deploy leaves its ring as it was; writes to the store succeed, except the
journal write, whose failure is modelled; operations on one application are serialised by its lock.
How long an operation's context lasts is counted in the waits between its checks.
Nothing is assumed of when a deploy that a crash cut off lands, or whether recovery still waits for it.
Texts (versions,
scan kinds, finding ids) are taken as trimmed and lower-cased where the source does so first. Times are
whole numbers.

Where the code says less than one might expect of it, the model follows the code:

- `pipelineCycle` uses the empty text for "no cycle", and a stage may be named by it. When the empty
  text is on a cycle, that answer is wrong (`EmptyNameHidesCycle`), and a stage that is named instead is
  right that there is a cycle but need not be on it (`NamedNeedNotBeOnCycle`): it may be one that was
  given up at its need for the empty text. The answer "" is right exactly when the empty text is on no
  cycle, and then every other answer is on one (`PipelineCycle`). Validation refuses such names first
  (`NamedIsNotMisled`).
- The store's key of a security scan joins four texts with NUL characters; it stands for them alone
  exactly when none of them has one (`UnambiguousMeans`). Two accepted reports can have one key
  (`NulMakesReportsCollide`), so "no other scan changes" holds for texts without NUL (`OtherScansStay`).
- A seed served before recovery has run can be overtaken by the deploy that recovery waits for; the ring
  is then still in doubt. What is stored stays true exactly when nothing else may land (`SparedMeans`).
- Decide answers success once it has removed the entry, and the stage may still take its deadline or
  have taken it already (`AcceptedApprovalCanBeLost`); an accepted decision takes effect exactly when
  the stage does not give up by its deadline or a cancel (`DecisionsOfARunTakeEffect`).
- An automatic rollback runs under its promotion's journal row. Cut off after landing and before its
  state is stored, it leaves a stored version that recovery cannot correct, and that is the only such
  cut (`OnlyLandedAutoRollbackIsBeyondRecovery`, `AutoRollbackCutIsBeyondRecovery`).
- Recovery keeps its row through the auto-promote chain, while a seed clears its row before the chain
  (`last` in `ResumePendingOp`, `mid` in `SeedAndChain`).

## Model

| member | source | states |
|---|---|---|
| NeedsGraph.TrappedMeansCycle | internal/config/pipeline.go:185-222 | a nonempty finite set of stages in which each needs another of the set holds a cycle |
| NeedsGraph.AcyclicHasRank | internal/config/pipeline.go:185-222 | an acyclic needs relation can be numbered bottom-up |
| NeedsGraph.RankImpliesAcyclic | internal/config/pipeline.go:185-222 | a needs relation that can be numbered bottom-up has no cycle |
| PipelineConfig.CycleSearch.Visit | internal/config/pipeline.go:199-213 | from a white node the search ends, with the colours and the answer of the cited lines; a named stage is on a cycle or was given up at the empty text; the answer "" leaves the node black with every black node needing only black nodes that turned black before it, unless the empty text is on a cycle |
| PipelineConfig.CycleSearch.FollowNeeds | internal/config/pipeline.go:201-210 | the needs of a grey node are followed in order and no further than the first that is grey or gives an answer; if none is, all of them are black, unless the empty text is on a cycle |
| PipelineConfig.CycleSearch.Follow | internal/config/pipeline.go:202-209 | a grey need is the answer and ends the search of its node, whatever its name is; a white one is visited, a black one is passed over |
| PipelineConfig.BuildGraph | internal/config/pipeline.go:188-191 | each stage's needs by its name |
| PipelineConfig.PipelineCycle | internal/config/pipeline.go:187-222 | any answer but the empty text means that there is a cycle, and names a stage on one unless the empty text is on a cycle; the empty text is right exactly when it is on no cycle itself |
| PipelineConfig.NamedIsNotMisled | internal/config/pipeline.go:131-177 | when the names and needs have been checked, the empty text is on no cycle |
| PipelineValidation.CheckStage | internal/config/pipeline.go:138-166 | the first thing wrong with a stage by itself: its timeout, what its type asks for, its applications |
| PipelineValidation.CheckApps | internal/config/pipeline.go:157-166 | refused at the first application that is unknown or listed before |
| PipelineValidation.CheckGraph | internal/config/pipeline.go:168-180 | named, distinct stages pass exactly when their needs exist, are not themselves and form no cycle; a stage named for a cycle is on one |
| PipelineValidation.ValidateStages | internal/config/pipeline.go:125-180 | accepts exactly when every stage is fine by itself and the list is nonempty, with named, distinct stages whose needs exist, are not themselves and form no cycle |
| PipelineValidation.ValidatePipelines | internal/config/pipeline.go:111-183 | a configuration's pipelines are accepted exactly when each is named and fine and no two share a name |
| PipelineConfig.CheckNeeds | internal/config/pipeline.go:168-177 | accepts exactly when every need names a stage other than its own |
| PipelineConfig.EmptyNameHidesCycle | internal/config/pipeline.go:199-221 | on a nameless stage that needs itself the search answers that there is no cycle |
| PipelineConfig.NamedNeedNotBeOnCycle | internal/config/pipeline.go:201-221 | on three stages, one of them nameless and needing itself, the search names a stage that is on no cycle |
| SchedulePass.PassIsRight | internal/pipeline/pipeline.go:444-490 | a pass changes queued stages only: started with all needs done, skipped behind a bad one with the wake slot filled, cancelled in a cancelled run; no started stage twice in the ready list |
| SchedulePass.PassDecides | internal/pipeline/pipeline.go:448-489 | a queued stage is cancelled in a cancelled run, started when all its needs are done, skipped when one went wrong |
| SchedulePass.IdlePassSettlesAll | internal/pipeline/pipeline.go:444-498 | on an acyclic pipeline a pass that ends with no active stage and an empty wake slot leaves no stage queued |
| SchedulerInvariant.InitRight | internal/pipeline/pipeline.go:212-256 | a run that reuses a needs-closed set of stages starts in the invariant |
| SchedulerInvariant.StepKeeps | internal/pipeline/pipeline.go:352-551 | every step of every thread keeps the invariant |
| SchedulerInvariant.ReachableRight | internal/pipeline/pipeline.go:212-551 | every state of every interleaving in every chain of reruns satisfies the invariant |
| SchedulerInvariant.DoneIsClosed | internal/pipeline/pipeline.go:238-249 | at every moment what a run has done is closed under needs, so a rerun reuses a closed set |
| SchedulerTheorems.FinishedRunIsSettled | internal/pipeline/pipeline.go:492-551 | when FinishedAt is set no stage is queued, running or waiting, and the status is success exactly when the run was not cancelled and every stage is done or reused |
| SchedulerTheorems.FinishedIsFinal | internal/pipeline/pipeline.go:387-397 | after FinishedAt no step of any thread changes a stage or the outcome |
| SchedulerTheorems.NoLostWakeup | internal/pipeline/pipeline.go:407-437 | parked on an empty slot with no nudge on its way: some active stage has a live goroutine and no queued stage could be started, skipped or cancelled |
| SchedulerTheorems.NeverDeadlocked | internal/pipeline/pipeline.go:441-508 | a run that has not returned can always take a step of one of its own threads |
| SchedulerTheorems.StartedStagesHaveTheirNeeds | internal/pipeline/pipeline.go:463-486 | in every reachable state each started or reused stage has all its needs done or reused |
| Outcomes.WorkDecides | internal/pipeline/pipeline.go:612-745 | a deploy or gate that finished its work well ends success and otherwise failed; a gate whose deadline fired ends failed and one that saw the cancel ends cancelled: at once and for good |
| Outcomes.StagesEndAsTold | internal/pipeline/pipeline.go:554-561 | at every moment a stage that succeeded or failed was told so by a step of the run, and what a stage was told is its status, for an approval once it has left |
| Outcomes.EndingIsFinal | internal/pipeline/pipeline.go:554-561 | a stage is told once how to end |
| Outcomes.CancelledWhenAsked | internal/pipeline/pipeline.go:387-397 | a run is cancelled exactly when a cancel was accepted |
| Confluence.RunComputesEval | internal/pipeline/pipeline.go:448-489 | an uncancelled finished run gives each stage the status of the recursive evaluation over the graph, with the outcomes that the steps of the run told |
| Confluence.SameOutcomesSameResult | internal/pipeline/pipeline.go:448-489 | two such runs whose steps tell the same to the stages both executed end alike in every stage |
| Confluence.SkippedExactlyBehindFailure | internal/pipeline/pipeline.go:473-479 | a stage was skipped exactly when something it needs, directly or not, was told to fail |
| ApprovalDelivery.DecisionsAreDelivered | internal/pipeline/pipeline.go:352-382 | at most one decision is accepted per approval, an entry exists only while the stage waits undecided, the send never blocks, success exactly after an accepted approve that the stage took |
| ApprovalDelivery.WaitingApprovalCanBeDecided | internal/pipeline/pipeline.go:750-793 | an approval blocked in its select can still be decided or its decision is on its way |
| ApprovalDelivery.AcceptedDecisionTakesEffect | internal/pipeline/pipeline.go:762-786 | from any moment at which an approval has not given up: once it has ended, its accepted decision took effect if no deadline or cancel made it give up, and an approve in no other case |
| ApprovalDelivery.DecisionsOfARunTakeEffect | internal/pipeline/pipeline.go:352-382 | the same for every decision ever accepted in a run, those accepted between the giving up and the withdrawing of the entry included |
| ApprovalDelivery.AcceptedApprovalCanBeLost | internal/pipeline/pipeline.go:369-381 | a reachable run in which an accepted approve ends as a failed stage |
| Termination.StepSpends | internal/pipeline/pipeline.go:441-551 | every step but a poll, an item report or a cancel call spends part of a budget |
| Termination.RunsAreBounded | internal/pipeline/pipeline.go:441-551 | a run takes at most 40 steps per stage and 3, and 11 for each poll, item report and cancel call |
| Termination.EveryRunCanReturn | internal/pipeline/pipeline.go:441-551 | from every reachable state the run's own threads can bring it to its end |
| LiveRun.Run.constructor | internal/pipeline/pipeline.go:225-256 | a new run has every stage queued, or reused where its source run has it done |
| LiveRun.Rerun | internal/api/pipelines.go:230-239 | a rerun has its source run's pipeline and starts with what was done there |
| LiveRun.Run.ReadNeeds | internal/pipeline/pipeline.go:463-472 | blocked exactly when a need went bad, pending exactly when one is not settled |
| LiveRun.Run.SetStatus | internal/pipeline/pipeline.go:430-437 | one stage's status changes and a nudge is owed |
| LiveRun.Run.WakeScheduler | internal/pipeline/pipeline.go:407-412 | the slot is full afterwards, as it may have been before |
| LiveRun.Run.SchedulePass | internal/pipeline/pipeline.go:444-502 | the locked part of the loop does in place what the Scan step says, and returns the stages to launch |
| LiveRun.Run.RunStatus | internal/pipeline/pipeline.go:513-551 | the derived status is that of the state, found in one pass over the stages |
| LiveRun.Run.AcceptDecision | internal/pipeline/pipeline.go:357-370 | accepts for a waiting stage with an entry and removes the entry; otherwise the error and no change |
| LiveRun.Run.RequestCancel | internal/pipeline/pipeline.go:390-398 | refused once FinishedAt is set, without a change; otherwise the run is marked cancelled |
| LiveRun.Run.OpenDecision | internal/pipeline/pipeline.go:751-759 | the approval's entry and its waiting status appear together |
| LiveRun.Run.ForgetDecision | internal/pipeline/pipeline.go:789-793 | the entry is withdrawn and nothing else |
| LiveRun.Run.FinishDeploy | internal/pipeline/pipeline.go:612-623 | a deploy stage ends success exactly when every application's deploy succeeded, failed otherwise |
| LiveRun.Run.PollGate | internal/pipeline/pipeline.go:696-735 | a no-go fails the gate, nothing but go passes it, anything else makes it wait for the next poll |
| Rings.Index | internal/ring/ring.go:43-50 | the first position of a ring's name, or -1 |
| Rings.NextAndPrevAreInverse | internal/ring/ring.go:67-83 | next and previous undo each other and join neighbours only |
| PromoterWorld.EffectKeepsSafe | internal/promoter/promoter.go:484-536 | an effect whose conditions hold keeps what must hold at every crash point |
| PromoterWorld.DoubtOnlyFalls | internal/promoter/promoter.go:488-536 | no effect of an operation puts a ring in doubt |
| PromoterEffects.SeedSafe | internal/promoter/promoter.go:480-536 | a seed can be cut anywhere, and what it leaves when it is not |
| PromoterEffects.HopSafe | internal/promoter/promoter.go:719-828 | the same for a hop in each of its five endings, automatic rollback included |
| PromoterEffects.RollbackSafe | internal/promoter/promoter.go:854-880 | the same for a rollback |
| PromoterEffects.RecoverySafe | internal/promoter/recovery.go:112-157 | the same for the outcome recovery writes |
| PromoterOps.OpSafe | internal/promoter/promoter.go:438-1065 | each whole operation, for every ending, can be cut anywhere and leaves nothing outstanding |
| PromoterOps.RunIsSafe | internal/promoter/promoter.go:438-1065 | so can any sequence of operations |
| Promoter.Memory.UpsertRingState | internal/store/memory.go:98-107 | the row is replaced and no auto-promote setting changes |
| Promoter.Memory.SetAutoPromote | internal/store/memory.go:110-120 | one setting changes and no version |
| Promoter.Memory.CreatePendingOp | internal/store/memory.go:430-440 | a row under a fresh id |
| Promoter.Memory.DeletePendingOp | internal/store/memory.go:454-459 | that row is gone, if it was there |
| Promoter.Promoter.Deploy | internal/promoter/promoter.go:489-492 | the deploy is issued, and on success the ring runs what it brought: the version itself on an unpinned ring |
| Promoter.Promoter.SaveState | internal/promoter/promoter.go:1144-1157 | the ring's row is stored |
| Promoter.Promoter.Record | internal/promoter/promoter.go:1162-1183 | the outcome goes to the end of the history |
| Promoter.Promoter.JournalStart | internal/promoter/recovery.go:34-45 | a row with a fresh id, or id 0 and no change when the write fails |
| Promoter.Promoter.JournalEnd | internal/promoter/recovery.go:51-61 | the row is gone, other rows stay; id 0 changes nothing |
| Promoter.Promoter.CheckWithRetries | internal/promoter/promoter.go:1069-1103 | checks and waits take turns until a check is good, the context ends or retry count + 1 checks were made; the answer is that of the last check; success on a version-reporting ring proves the version; no health URL counts as healthy |
| Promoter.Promoter.Confirm | internal/promoter/promoter.go:506-518 | after a landed deploy: the checks, for no version on a pinned ring, and on a healthy pinned ring the version it reports |
| Promoter.Promoter.EvaluateGates | internal/promoter/gates.go:127-163 | the ring's gates are asked once, about the version given, and their first error is the answer |
| PromoterTalk.HealthyMeans | internal/promoter/promoter.go:1069-1103 | a ring with a health URL counts as healthy exactly when a check was good, and is given up only after all the checks or at the end of the context |
| PromoterTalk.GivenUpMeans | internal/promoter/recovery.go:167-183 | recovery gives a ring up only at the end of its context, after nothing but failed polls |
| PromoterTalk.AnswersDecideHop | internal/promoter/promoter.go:751-828 | the answers decide how a hop ends: shipped exactly when its checks end good, taken back only when they do not |
| PromoterTalk.AnswersDecideSeed | internal/promoter/promoter.go:489-536 | the same for a seed |
| PromoterTalk.AnswersDecideRollback | internal/promoter/promoter.go:1031-1065 | the same for a rollback |
| PromoterChain.HopRefusals | internal/promoter/promoter.go:682-702 | a hop's own refusals, in their order |
| PromoterChain.SwitchRefusals | internal/promoter/promoter.go:593-612 | the switch's refusals, in their order |
| Promoter.Promoter.SeedRing | internal/promoter/promoter.go:438-536 | refused in order and without a change, by itself, for an unknown version or by the ring's gates, and deployed only when all of them let it; then the new state, history entry and result for its ending, as the answers say, its row cleared |
| Promoter.Promoter.SeedJournaled | internal/promoter/promoter.go:484-487 | the row is written before the deploy and dropped after the outcome is recorded |
| Promoter.Promoter.SeedUnderRow | internal/promoter/promoter.go:489-536 | the effects of a seed for its ending, with its result |
| Promoter.Promoter.SeedAndChain | internal/promoter/promoter.go:520-531 | a healthy seed goes on through the chain, which stops only at a failure, a refusal or where it should |
| Promoter.Promoter.PromoteHop | internal/promoter/promoter.go:682-829 | refused in order and without a change, by itself or by the target's gates, and deployed only when both let it; then the current version of a source that was checked goes to the next ring, with the new state, history and result for its ending, as the answers say |
| Promoter.Promoter.CheckedHop | internal/promoter/promoter.go:719-829 | from the source's live check on: the hop is done, or aborted |
| Promoter.Promoter.AbortHop | internal/promoter/promoter.go:727-734 | an unhealthy source is marked so and the failure recorded; nothing is deployed |
| Promoter.Promoter.ShipHop | internal/promoter/promoter.go:746-755 | the hop's row around its effects |
| Promoter.Promoter.ShipUnderRow | internal/promoter/promoter.go:759-799 | the landed version is stored before its health is known |
| Promoter.Promoter.CheckHop | internal/promoter/promoter.go:784-803 | healthy, after a good last check: stored and recorded so; unhealthy, after the checks or the context ran out: recorded, and taken back |
| Promoter.Promoter.GoBack | internal/promoter/promoter.go:804-828 | an automatic rollback exactly when there is a version to go back to |
| Promoter.Promoter.AutoChain | internal/promoter/promoter.go:626-653 | hops chained by success and auto-promote, each let in by its target's gates and decided by its answers; it ends at a failure, at a ring that does not go on, or at a refusal |
| Promoter.Promoter.PromoteRing | internal/promoter/promoter.go:660-678 | one hop, then the chain |
| Promoter.Promoter.RollbackTo | internal/promoter/promoter.go:1031-1065 | the effects of a rollback for its ending, under the row of its caller |
| Promoter.Promoter.RollbackJournaled | internal/promoter/promoter.go:854-864 | the rollback's row around its effects |
| Promoter.Promoter.RollbackRing | internal/promoter/promoter.go:832-881 | refused exactly when the ring is unknown or has no previous version; otherwise the versions exchange places for its ending |
| Promoter.Promoter.RestartRing | internal/promoter/promoter.go:942-1012 | refused by itself or by the deployer; versions and what runs stay; the health flag is that of the checks that follow the restart, and only it and the history change |
| Promoter.Promoter.SetAutoPromote | internal/promoter/promoter.go:593-617 | refused where the configuration owns the setting and where the chain could not go on to a configured ring; otherwise stored |
| Promoter.Promoter.StoreToggle | internal/store/memory.go:110-120 | that ring's setting is stored, no version changes |
| PromoterLives.ToggleAnywhere | internal/promoter/promoter.go:593-617 | the switch takes no lock: wherever a toggle falls inside other operations, every crash point stays safe |
| PromoterLives.LateLandingAnywhere | internal/promoter/recovery.go:3-10 | a deploy that outlived its process may land in the middle of any operation: every crash point stays safe |
| PromoterLives.SparedMeans | internal/promoter/recovery.go:161-166 | whatever lands late, a ring keeps showing what it runs exactly when it does now and nothing but that version may still land |
| PromoterLives.RecoveredIsSpared | internal/promoter/recovery.go:136-147 | what a proven recovery stores stays true even if the deploy it waited for lands again |
| Promoter.Promoter.LandLate | internal/promoter/recovery.go:3-10 | a deploy cut off by an earlier crash lands between operations |
| Promoter.Promoter.EndLate | internal/promoter/recovery.go:161-166 | once the last such deploy of a ring has ended, the doubt is settled if the ring shows what it runs |
| Promoter.Promoter.AwaitVersion | internal/promoter/recovery.go:167-183 | polls until one is good or the context ends, whichever is first; success on a version-reporting ring proves that the ring runs the version |
| Promoter.Promoter.ClearRow | internal/promoter/recovery.go:87-89 | that row is dropped and nothing else changes |
| Promoter.Promoter.RecoverOutcome | internal/promoter/recovery.go:112-157 | where the ring can prove it, it is polled until it does or the context ends; a proven deploy stores previous, current and healthy, otherwise the states stay and a failure is recorded |
| Promoter.Promoter.ResumePendingOp | internal/promoter/recovery.go:77-160 | an unknown ring drops the row and nothing else; a cleared row changes nothing; otherwise the outcome, the chain for a proven seed or promotion, and then the row is dropped |
| PromoterCrash.CutDeployIsJournaled | internal/promoter/recovery.go:34-61 | at any crash point a deploy issued and not yet in the history has its row, if the row was written: with its version and the one before, for an automatic rollback exchanged |
| PromoterCrash.CrashIsSafe | internal/promoter/recovery.go:1-19 | after a crash every ring without a deploy under way still shows what it runs |
| PromoterCrash.RecoveryRestoresAgreement | internal/promoter/recovery.go:117-148 | after a cut seed, promotion or rollback a ring that was in no doubt shows what it runs or runs what recovery waits for; on any ring the two agree after recovery exactly when they did before or recovery proved the deploy |
| PromoterCrash.OnlyLandedAutoRollbackIsBeyondRecovery | internal/promoter/promoter.go:811-828 | recovery can make stored and running version agree exactly when they do or the ring runs what its row names; on a ring in no doubt, unless the cut fell between an automatic rollback's landing and its store |
| PromoterCrash.AutoRollbackCutIsReached | internal/promoter/promoter.go:1031-1056 | every promotion that goes back passes through that cut |
| PromoterCrash.AutoRollbackCutIsBeyondRecovery | internal/promoter/recovery.go:112-148 | and there no answer of recovery makes stored and running version agree |
| PromoterCrash.RecoveryFinishesSeed | internal/promoter/recovery.go:136-147 | wherever a seed was cut, proven recovery stores and records what the seed would have on success |
| PromoterCrash.RecoveryFinishesHop | internal/promoter/recovery.go:136-147 | the same for a promotion |
| PromoterCrash.RecoveryFinishesRollback | internal/promoter/recovery.go:136-150 | the same for a rollback |
| PromoterChain.ChainNeverSkips | internal/promoter/promoter.go:626-653 | the chain enters consecutive rings, each only after a healthy hop onto the ring before with auto-promote on |
| PromoterChain.ChainTouchesOnlyItsRings | internal/promoter/promoter.go:626-653 | no other ring changes its stored version or what it runs; journal rows stay and the history only grows |
| PromoterChain.ChainCarriesOneVersion | internal/promoter/promoter.go:660-678 | over unpinned rings every ring reached healthy ends on the version the chain started from |
| PromoterRuns.Serve | internal/promoter/promoter.go:438-1012 | each request is carried out as its operation says, with its answers, and puts no ring in doubt |
| PromoterRuns.HandledKeeps | internal/promoter/promoter.go:438-1012 | no request touches the leftover rows, and only a late landing makes a ring run what it does not show |
| PromoterRuns.ServeAll | internal/promoter/promoter.go:438-1012 | after any sequence of requests with any outcomes every request has been carried out, and after each of them every unpinned ring that was in no doubt, or is in none any more, shows the version it runs |
| PromoterRuns.ServeFromFirst | internal/promoter/promoter.go:438-1012 | without a crash every unpinned ring shows the version it runs, after any sequence of requests |
| PromoterLives.LivesAreSafe | internal/promoter/recovery.go:1-19 | after any number of processes, each cut off anywhere, the next starts on a safe world; only rings on which a crash cut a deploy off can be in doubt |
| PromoterLives.AnyMomentOfAnyLife | internal/promoter/recovery.go:1-19 | the same for every moment of the process that follows, with its journal row for every deploy outstanding |
| PromoterRuns.FirstWorldIsSafe | internal/store/memory.go:46-66 | the empty store over empty rings is safe |
| PromoterRuns.CutAnywhere | internal/promoter/recovery.go:63-69 | what a promoter has served is such a life wherever it is cut, and the next promoter can start on what it leaves |
| PromoterChain.ChainAdvances | internal/promoter/promoter.go:626-653 | a chain leaves the journal alone, and a ring that showed what it runs still does, in doubt or not |
| PromoterStartup.RecoveryAdvances | internal/promoter/recovery.go:117-159 | a resolved row has its outcome in the history, and a ring that proved its version shows what it runs, chain and all |
| PromoterStartup.ResumeRow | internal/promoter/recovery.go:77-160 | one leftover row is gone and no other, its outcome is in the history, and a proven ring shows what it runs |
| PromoterStartup.ResumePendingOps | internal/api/api.go:69-87 | all leftover rows are resolved, in any order and with any requests in between: the journal is empty, every operation is in the history, as a success only where the ring reported it and as a failure only where it cannot or had not by the end of the context, and those rings show what they run unless something landed late |
| PromoterStartup.StartAgain | internal/api/api.go:69-87 | the same for a start after a crash with deploys of several applications under way; every unpinned ring that no crash had cut a deploy off on shows what it runs, too |
| PromoterShared.ViewsArePlayed | internal/promoter/promoter.go:470-474 | however operations of several applications are interleaved, each application sees what its own effects alone lead to |
| PromoterShared.InterleavedIsSafe | internal/promoter/promoter.go:667-671 | so every moment of any interleaving is safe for every application |
| PromoterShared.RunsAreSafe | internal/promoter/promoter.go:841-845 | whole operations of each application, the last ones cut off, are such an interleaving |
| PromoterShared.CrashSeen | internal/promoter/recovery.go:3-10 | a crash cuts every application off as it would alone |
| PromoterShared.SharedCrashIsSafe | internal/promoter/recovery.go:3-19 | a crash at any moment, with a deploy of each application under way, leaves every application safe and at rest; only the rings of these deploys fall into doubt, and each has its row if it was written |
| PromoterShared.WholeIsRested | internal/promoter/recovery.go:63-69 | and the next process can start on all of it |
| SecurityScans.SortKeepsEachSeverity | internal/promoter/security.go:236-241 | sorting keeps each severity's findings, as often and in the order reported |
| SecurityScans.StableSortIsUnique | internal/promoter/security.go:237-239 | every ordered, stable arrangement of the findings is the one modelled |
| SecurityScans.CapKeepsTheMostSevere | internal/promoter/security.go:236-241 | exactly 500 are kept, kept and dropped make up the report, and nothing dropped is more severe than anything kept |
| SecurityScans.StoredAtMostReported | internal/store/security.go:12-14 | stored findings never count for more than was reported |
| ScanStores.ScanStore.CountFindings | internal/promoter/security.go:214-230 | counts every severity, or names the first finding without id or with an unknown severity |
| ScanStores.ScanStore.RecordSecurityScan | internal/promoter/security.go:187-258 | accepted exactly when app, version, kind, scanner and findings or counts are valid; stored under its key, in place of what was there, and the application's oldest scan goes when there are more than 500 |
| ScanStores.ScanStore.UpsertSecurityScan | internal/store/security.go:82-110 | stored under its key with the time of storing; the limit is kept for every application |
| ScanStores.ScanStore.Prune | internal/store/security.go:92-108 | the application's newest 500 stay, and all of the others' |
| ScanStores.UnambiguousMeans | internal/store/security.go:78-80 | a key stands for its four texts alone exactly when none of them has a NUL |
| ScanStores.KeyIsRead | internal/store/security.go:78-80 | two keys without a NUL before the scanner's name are equal only for the same texts |
| ScanStores.NulMakesReportsCollide | internal/store/security.go:78-80 | two reports of valid kinds and of different versions can have one key |
| ScanStores.OtherScansStay | internal/promoter/security.go:185-187 | no other scan changes below the limit, if no NUL is in a version or an application's name |
| ScanStores.NewReportIsKept | internal/store/security.go:99-108 | a report stored later than all others of its application is there afterwards |
| ScanStores.AtMostOneDropped | internal/store/security.go:99-108 | one report makes room by at most one older scan |
| ScanStores.ScanStore.ListSecurityScans | internal/store/security.go:112-129 | every stored scan of the application and version, once, the newest first and equal times by falling ids |
| SecurityVerdict.KindBreachIsTotalBreach | internal/promoter/security.go:110-119 | a kind over a limit puts the version over it, medium and low together included |
| SecurityVerdict.KindsAddUp | internal/promoter/security.go:384-405 | summing kind by kind loses no scan and counts none twice |
| SecurityVerdict.ActiveWaivers | internal/promoter/security.go:287-300 | exactly the waivers that have not expired, in order |
| SecurityVerdict.Breaches | internal/promoter/security.go:110-119 | exactly the limits exceeded |
| SecurityVerdict.TakeOffWaived | internal/promoter/security.go:355-366 | each finding that a waiver covers is taken off once, however many cover it |
| SecurityVerdict.ClampAtZero | internal/promoter/security.go:367-371 | negative counts become zero, others stay |
| SecurityVerdict.CountUnwaived | internal/promoter/security.go:355-371 | what a scan still counts for and how many of its findings are waived |
| SecurityVerdict.TallyByKind | internal/promoter/security.go:329-377 | one tally for each required or reported kind, of exactly its scans |
| SecurityVerdict.TallySumsItsKind | internal/promoter/security.go:352-377 | a kind's tally is the sum over the scans of that kind, and names their scanners in order |
| SecurityVerdict.TallyKeepsTheNewest | internal/promoter/security.go:373-376 | a tally's time is that of the kind's newest scan |
| SecurityVerdict.CheckKind | internal/promoter/security.go:384-402 | missing, stale or failing, each exactly when it should be |
| SecurityVerdict.EvaluateSecurity | internal/promoter/security.go:314-425 | verdict, totals, waived count and one right check per kind |
| SecurityVerdict.EvaluateVersion | internal/promoter/security.go:314-328 | the same over the scans the store holds for the version |
| SecurityTheorems.RecordedScanConserves | internal/promoter/security.go:354-371 | for a recorded scan un-waived plus waived is reported, so the clamp never fires |
| SecurityTheorems.ClampFiresOnlyOnMiscounts | internal/promoter/security.go:367-371 | the clamp fires exactly when more of a severity is waived than was reported |
| SecurityTheorems.EvaluationConserves | internal/promoter/security.go:354-405 | over any list of recorded scans, severity by severity, un-waived plus waived is reported, and the waived are as many as counted |
| SecurityTheorems.StoredScansConserve | internal/promoter/security.go:354-405 | the same for every list of scans read from the store |
| SecurityTheorems.VerdictIgnoresOrder | internal/promoter/security.go:345-350 | verdict and counts do not depend on the order of the scans |
| SecurityTheorems.WaivingNeverHurts | internal/store/security.go:67-76 | more waivers never make a verdict worse and change at most a no-go |
| SecurityTheorems.EvidenceOnlyAges | internal/promoter/security.go:287-300 | with nothing new reported a verdict never gets better as time passes |
| SecurityTheorems.NoGoMeans | internal/promoter/security.go:406-418 | no-go exactly for a stale required kind, a total or a kind over a limit |
| SecurityLaws.VerdictSpelledOut | internal/promoter/security.go:384-418 | the verdict in the policy's own numbers and defaults: no-go for a required kind with only old reports or for what is left over a limit, pending for a required kind without a report |
| SecurityLaws.TotalsAreWhatIsLeft | internal/promoter/security.go:352-377 | each severity's total is what the scans reported less the waived findings, and of no scan less than nothing |
| SecurityLaws.WaivedAreNamed | internal/store/security.go:71-76 | taken off are exactly the findings that a waiver names for this ring or for all rings |
| SecurityLaws.RinglessWaiverIsForEveryRing | internal/store/security.go:71-76 | a waiver without a ring gives on every ring what one made out for that ring gives |
| SecurityLaws.OtherRingsWaiverIsIdle | internal/store/security.go:71-76 | a waiver for one ring changes nothing on another, nor where no ring is asked for |
| SecurityLaws.OtherFindingsWaiverIsIdle | internal/store/security.go:71-76 | a waiver for a finding that is not reported changes nothing |
| SecurityLaws.WaiverCountsUntilItExpires | internal/store/security.go:67-69 | a waiver counts at every moment before it expires and at none from then on |
| Gates.GateKeeper.MaintenanceOpenAt | internal/promoter/gates.go:196-213 | open exactly when a weekly or a covering ad-hoc window is; unreadable only when no weekly window is open |
| Gates.GateKeeper.EvaluateCustom | internal/promoter/custom_gate.go:22-44 | refused by the first refusing gate that guards the ring, skipped when none applies |
| Gates.GateKeeper.Evaluate | internal/promoter/gate.go:85-192 | one gate's verdict, and an accepted override in the ledger unless this is a pre-check |
| Gates.JudgeCustom | internal/promoter/custom_gate.go:22-44 | fails exactly when a guarding custom gate refuses, is skipped exactly when none applies, never counts as overridden |
| Gates.GateKeeper.WalkGates | internal/promoter/gates.go:141-161 | for any list of gates: the first error, and the entries up to it |
| Gates.GateKeeper.EvaluateGates | internal/promoter/gates.go:127-163 | the first error in order and the ledger entries up to it; none in a pre-check; nothing at all without any policy |
| GateTheorems.FirstFailureWins | internal/promoter/gate.go:54-65 | the error is that of a failing gate whose predecessors all let the version through |
| GateTheorems.PassesWhenAllAreOpen | internal/promoter/gates.go:141-162 | no error exactly when no gate fails |
| GateLaws.FirstRefusalWins | internal/promoter/gates.go:141-162 | a caller gets an error exactly when its own condition holds and that of no gate before it |
| GateLaws.FailsWhenItRefuses | internal/promoter/gate.go:85-192 | each gate fails with exactly the errors whose conditions hold, which are told by the policy, the request and the outside world |
| GateLaws.SkippedOrOverridden | internal/promoter/gate.go:85-192 | a gate leaves no trace exactly when it does not guard the ring, and is overridden exactly when it is the blocking dashboard's and a reason is given |
| GateLaws.DemoCodeIsTest | internal/promoter/gate.go:134-141 | the code that is accepted without asking is "test" in any case |
| Texts.TrimCutsBlanks | internal/promoter/gate.go:133-134 | trimming takes blanks only, from both ends, and all that are there |
| Texts.NothingLeft | internal/promoter/gate.go:163-166 | nothing is left exactly of a blank text |
| Texts.BlanksAre | internal/promoter/gate.go:133 | the blanks are those of Unicode |
| GateTheorems.WhatAPassMeans | internal/promoter/gate.go:58-192 | passing means exactly: for each guarding gate its own condition |
| GateTheorems.OverrideIsolation | internal/promoter/gates.go:66-73 | the override fields change no verdict but the Grafana gate's |
| GateTheorems.OverriddenRunPasses | internal/promoter/gate.go:157-186 | an explained override passes exactly when every other gate does without it |
| GateTheorems.OverrideLiftsOnlyTheNoGo | internal/promoter/gate.go:163-191 | the only refusal an override lifts is the dashboard's no-go, and only with a reason |
| GateTheorems.IdleOverride | internal/promoter/gate.go:161-164 | where the dashboard does not block, an override changes neither the answer nor the ledger |
| GateTheorems.LedgerShowsWhatWasReached | internal/promoter/gates.go:141-160 | one entry for each gate reached that did not skip, in order, ending with the failure |
| GateTheorems.OverridesAreAttributed | internal/promoter/gate.go:165-186 | each override entry has the trimmed reason and stands right before its verdict, and no overridden verdict stands without one |
| GateTheorems.CheckThenRun | internal/promoter/gates.go:85-94 | pre-check and evaluation agree and together leave one set of entries |
| GateTheorems.SecurityAlone | internal/promoter/gates.go:128-136 | an app without a policy is held to the security policy and nothing else |
| Windows.ActiveIsWeekly | internal/config/promotion.go:194-242 | active exactly on the half-open stretches from the start time of each allowed day, modulo a week |
| Windows.OpensOnceAWeek | internal/config/promotion.go:194-242 | a one-day window is open for its length and closed until the same minute a week later |
| Windows.OpenAt | internal/config/promotion.go:166-176 | open exactly when one of the windows is |
| AuditLedger.ClampLimit | internal/store/store.go:296-304 | between 1 and 500, and the request itself where it is in that range |
| AuditLedger.NewestDescend | internal/store/memory.go:487-506 | newest first and no event twice |
| AuditLedger.NewestAreWanted | internal/store/memory.go:487-506 | the list holds exactly the events below the id that fit every field of the filter that is not empty |
| AuditLedger.RestIsBelow | internal/api/audit.go:53-57 | what follows an event in the list is what a query below its id finds |
| AuditLedger.Ledger.AppendAudit | internal/store/memory.go:474-484 | appended under a new highest id, earlier entries untouched |
| AuditLedger.Ledger.ListAudit | internal/store/memory.go:487-506 | the newest matching events below the bound, as many as the limit allows |
| AuditLedger.Ledger.HandleAudit | internal/api/audit.go:22-62 | malformed numbers refused; the cursor is zero exactly on the last page and otherwise continues right after the page |
| AuditLedger.Ledger.ReadAll | internal/api/audit.go:15-21 | following the cursor ends and yields the matching ledger of the first request, whatever is appended meanwhile |
| FailureLogs.History.AddHistory | internal/store/memory.go:123-136 | the history is always what was added, with logs cleared by retention alone |
| FailureLogs.History.TrimFailureLogs | internal/store/memory.go:140-152 | clears the logs of the app's entries behind its third newest and touches nothing else |
| FailureLogs.NewestThreeKeepTheirLogs | internal/store/store.go:101-103 | an app's entries with logs are the newest three ever added with logs, each with its own text |

## Left out

- Promoter.Promoter.SetAutoPromote: as a method it falls between operations; what a toggle made while a chain is running does to the chain's route is not modelled (ToggleAnywhere has its safety).
- Promoter.Promoter.PromoteHop: as a method it meets no late landing between its own steps (LateLandingAnywhere has the safety of that); the same goes for the other operations.
- PromoterRuns.ServeAll: rings pinned to a ref record what their endpoint reports and are outside the agreement; a ring that a crash left in doubt comes back once the deploy cut off there has ended and the ring shows what it runs.
- SecurityVerdict.EvaluateSecurity: the order of the checks in a report and its texts are not modelled.
- The goroutine bodies of deploy and gate stages are steps of the transition system, not methods: which app failed, polling intervals and item statuses are not in it.
- Store writes that fail and are only logged, other than the journal write.
- The limit of 100 retained pipeline runs.
- The ticket, metric and replica backends of the custom gates, the Grafana cache, JIRA and OPSAPI: each is an arbitrary answer.
- SARIF parsing, time zones with daylight saving, the parsing of clock times and weekday names, Postgres, HTTP, authentication, metrics, notifications, step reports and messages.
- Start-up reconciliation of auto-promote settings, groups, topology, scorecards and QA reports.
