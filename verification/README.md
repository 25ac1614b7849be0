# Verified model of the agent workflow service

A Dafny model of the durable protocols of the agent workflow service: what a
Temporal Workflow, its Activities and the ports they call may do in every order
of crashes, retries, lost answers and concurrent requests, and what nevertheless
always holds.

The modules follow the program.

- **Launch and cleanup.** `ApiServer` is the Kubernetes API server under one
  launch key as a state machine: an optional Job, Pods, requests that may still
  commit, deletes on their way, a history and a clock. `LaunchObservation` and
  `Launcher` are the launcher's reads and writes against it, with the environment
  between any two of them. `CreateLedger` is the Workflow's account of its create
  requests and what it guarantees about the server; `LaunchRun` issues requests,
  runs cleanup rounds and reconciles.
- **LocalCheck and the waits on Control.** `Waits` paces a durable command over a
  chain of runs; `LocalCheck` joins launch, cleanup and close over that chain.
- **Recovery.** `LaunchSettlement` settles another run's launch, evidence first;
  `RecoveryFindings` is the paging and the Activity that advances a page;
  `RecoveryRounds` is the loop and the chain of one-round runs.
- **Guarded effects and release.** `Effects` is Control's effect service with a
  port; `GuardedEffects` the three copies of the permit protocol;
  `ReleaseWorkflow` the release state machine on top of them; `ApprovalWait` the
  split approval wait; `Stylesheets` the matching of certified stylesheets.
- **Generation.** `GenerationState` is the state the main loop, the Update handlers
  and the lease supervisor share, with the events each may take; `Generation` is
  the coroutines.
- **Pagix double and Preparation.** `PagixLeases`, `PagixSources`, `PagixCatalog`
  are the double's records; `Preparation` the bounded clarification.

Three patterns recur. The world is a state machine whose runs (`Allowed`, `After`,
`Reaches`) stand for every interleaving; a client's method lets it run before and
after each call. What a chain of runs did is a log, and safety over the chain is a
predicate (`Right`) every event must keep; lemmas then read consequences off any
right log. The ports of effects, recovery, release and preparation keep what they
were sent or asked, and the chain's contract says that its log holds exactly that. A method of a class keeps the source's loop and
fields and is proved against these.

Results that correct an expectation, each with the exact condition:

- A renewal of the Pagix double that shortens a lease (only possible with varying
  TTLs) lets another owner in while an answer still says "held":
  `PagixLeases.ShorteningLetsAnotherIn`.
- A close kept after NOT_FOUND restarts its backoff from the carried interval, so a
  rollover shows exactly where a command was kept by a run that carried another
  interval than the initial one and was waited on again:
  `Waits.RolloversShowExactlyWhen`, with a chain in `Waits.RolloverMayShow`.
- The poll bound of a run is a bound for each submission of its command; a run that
  keeps its command can wait longer: `Waits.RunWaitsAreBounded`,
  `Waits.KeptRunMayWaitLonger`.
- A release whose runs may poll only once never waits and never ends:
  `ApprovalWait.SplitEndsExactlyWhen`. The configuration asks for at least ten.
- A hold can be answered "applied" before an attempt launches, namely while its
  open is pending: `GenerationState.HeldStartWasOpening` and
  `GenerationState.HoldMayPrecedeLaunch`.
- Recovery proves that a key was observed empty, not that nothing can land later:
  `LaunchSettlement.EmptyKeyMayFillAgain`.
- A publication's result is not stable over queries, exactly when its receipt binds
  and the destination serves the bytes to one query only: `GuardedEffects.AskedTwice`.

Check the project with `dafny verify dfyconfig.toml` (Dafny 4.11).

## Model

| member | source | states |
|---|---|---|
| ApiServer.RunKeeps | internal/adapters/kubernetes/launcher.go:121-160 | over every run of the environment (commits, rejections, Pods, deletes, ticks) each request makes at most one Job, objects carry the marker of the request that made them, and objects of protected requests stay untouched |
| ApiServer.StoppedForever | internal/workflows/localcheck.go:444-475 | once no Job and no Pod is under the key and no open request can commit, that holds after every further run, and nothing is ever made again |
| ApiServer.AbsenceIsFinal | internal/adapters/kubernetes/launcher.go:737-793 | a Job absent in one read and Pods absent in a later, separate read show a stopped launch when no request could commit from the first read on |
| LaunchObservation.OwnerOrderIsStableSort | internal/adapters/kubernetes/launcher.go:591-603 | the owner order is a permutation, sorted by ownership then creation, and stable |
| LaunchObservation.OwnPodComesFirst | internal/adapters/kubernetes/launcher.go:591-603 | a Pod of the Job itself is reported first whenever there is one |
| LaunchObservation.ObserveExact | internal/adapters/kubernetes/launcher.go:604-639 | an observation's markers are ascending, distinct and exactly the positive markers of the Job and the Pods; it is empty exactly when the key shows nothing |
| LaunchObservation.GoneJobIsNamedByItsEarliestPod | internal/adapters/kubernetes/launcher.go:604-639 | a Job that is gone is named by the controller of the earliest Pod that has one |
| Launcher.Client.CreateJob | internal/adapters/kubernetes/launcher.go:312-373 | a refusal or NotCreated means the request made nothing and never will, a Job reference names a request that made an object, and only an unanswered request may still be open |
| Launcher.Client.DeleteJob | internal/adapters/kubernetes/launcher.go:737-793 | in both modes the launcher asks to delete only Jobs whose marker it need not hold back, and every object held back stays untouched at the server, whatever takes the name between read and delete; a Job it read and did not report it asked to delete; it reports empty only after reads of no Job and then no Pod, and otherwise an object held back |
| Launcher.Client.ObserveLaunch | internal/adapters/kubernetes/launcher.go:684-736 | an observation is never empty: absence for the window is an error |
| CreateLedger.ExpiredExact | internal/workflows/localcheck.go:317-325 | the expired requests are exactly the unaccounted ones whose recorded end lies a lifetime back |
| CreateLedger.StruckExact | internal/workflows/localcheck.go:328-333 | striking removes exactly the named requests and keeps the order |
| CreateLedger.AgreementIsStable | internal/workflows/localcheck.go:303-335 | the agreement of ledger and server holds in every interleaving that protects the unaccounted requests |
| CreateLedger.RecordKeeps | internal/workflows/localcheck.go:520-541 | recording what the key showed keeps the agreement |
| CreateLedger.LapseKeeps | internal/workflows/localcheck.go:466-469 | striking by lifetime is justified when the key was read empty after the request could no longer commit |
| CreateLedger.EvidenceBeforeRemoval | internal/workflows/localcheck.go:458-465 | the object of an unanswered request is removed, or asked to be, only after an observation showed it or a create answer named it |
| CreateLedger.LapsedNeverCommits | internal/workflows/localcheck.go:481-493 | a request struck by the lifetime rule never made an object and never does in any later run |
| CreateLedger.ExpiredCannotCommit | internal/workflows/localcheck.go:481-493 | a request whose lifetime is over is out of the server's hands |
| CreateLedger.Ledger.Expired | internal/workflows/localcheck.go:317-325 | the loop computes the expired requests |
| LaunchRun.BackoffClosedForm | internal/workflows/localcheck.go:575-579 | the n-th wait is the initial interval doubled n times, capped |
| LaunchRun.UnansweredExact | internal/workflows/localcheck.go:380-392 | the unanswered requests are ascending and exactly the ordinals whose create ended without an answer |
| LaunchRun.Run.CreateJob | internal/workflows/localcheck.go:359-404 | requests are numbered one by one up to the cap; only NotCreated and unanswered ones are followed by another; the ledger holds exactly the unanswered ones with an end for each, minus the one the last answer named |
| LaunchRun.RequestEnds | internal/workflows/localcheck.go:376-395 | a request that ended is out of the server's hands or in the ledger with its end |
| LaunchRun.Run.ObserveLaunch | internal/workflows/localcheck.go:499-512 | an observation with lost receipts and retries keeps the agreement and only strikes what it showed |
| LaunchRun.Run.DeleteJob | internal/workflows/localcheck.go:548-553 | every attempt with the same input leaves every unaccounted object in place, so a lost receipt loses no evidence |
| LaunchRun.Run.Pass | internal/workflows/localcheck.go:446-474 | one pass confirms only a stopped launch, and with every lifetime over it confirms or strikes at least one request |
| LaunchRun.Run.CleanupRound | internal/workflows/localcheck.go:444-475 | true means that no Job and no Pod exists under the key and no issued request can ever commit; at most two passes more than unaccounted requests; it gives up only on a failed Activity or while a request is within its lifetime |
| LaunchRun.Run.ReconcileCleanup | internal/workflows/localcheck.go:560-580 | its waits are the capped doubling, none due after the bound; it confirms only a stopped launch and gives up only when the next wait would be due too late |
| Waits.SplitWaitsAreWhole | internal/workflows/lifecycle.go:233-273 | the waits of a chain of runs, however it is split, are the capped doubling of one unbounded run |
| Waits.PollsCountPauses | internal/workflows/lifecycle.go:180-203 | polls are as many as waits, rollovers and resubmissions together, plus one at the end: a rollover costs exactly one poll without a wait |
| Waits.RunWaitsAreBounded | internal/workflows/lifecycle.go:269-273 | a run that never kept its command waits at most as often as its poll bound, and any run at most that often for each of its submissions |
| Waits.KeptRunMayWaitLonger | internal/workflows/localcheck.go:716-744 | and a run that kept its command does exceed the bound: two waits in one run of bound one |
| Waits.PaceInClosedForm | internal/workflows/lifecycle.go:233-273 | in every history the next wait is the capped doubling of the interval carried when the command was kept last, and of the initial one in one unbounded run |
| Waits.RolloversShowExactlyWhen | internal/workflows/localcheck.go:716-744 | the waits of a chain are those of one unbounded run exactly when every command that was kept and waited on again was kept by a run that carried the initial interval |
| Waits.RolloverMayShow | internal/workflows/localcheck.go:716-744 | a chain of two runs in which a rollover, then a NOT_FOUND and a later wait show it: 10 and 20 where one run waits 10 and 10 |
| Waits.SettleWith | internal/workflows/lifecycle.go:180-203 | one run polls one unchanged command, ends when Control settled or refused, and otherwise hands on the command and the exact next interval |
| Waits.Settlement | internal/workflows/lifecycle.go:205-215 | a whole settlement chain: one command, unbounded-run waits, an end only on Control's answer |
| LocalCheck.Closer.CloseAttemptFrom | internal/workflows/localcheck.go:649-675 | a close is delivered by an accepted answer, and after a definite cleanup only by one that is not reconciling; at the bound it rolls over with the next interval |
| LocalCheck.Closer.CloseLaunchAttemptFrom | internal/workflows/localcheck.go:716-744 | only a launch's close is kept while Control does not know the attempt; its timers are the capped doubling within the bound, and the refusal is returned only when the next would be due too late |
| LocalCheck.Closer.CloseOrContinue | internal/workflows/localcheck.go:690-699 | command, outcome, cleanup and launch flag never change across a rollover; only definite closes roll over |
| LocalCheck.LocalCheck.Start | internal/workflows/localcheck.go:157-201 | the first run ends without an error only after an accepted close that is the evidence; an unknown cleanup is settled by a second close under the same outcome or fails |
| LocalCheck.LocalCheck.CloseOnly | internal/workflows/localcheck.go:678-686 | a continued run delivers the carried close and fails only when Control refused it |
| LocalCheck.LocalCheck.Chain | internal/workflows/localcheck.go:128-201 | the chain ends without an error only after Control settled a close with cleanup complete and the launch stopped for good, or not required without a launch |
| LaunchSettlement.AppendedExact | internal/workflows/recovery.go:268-274 | recording keeps the markers distinct, appends, and holds exactly old and new ones |
| LaunchSettlement.Site.RecordLaunch | internal/workflows/recovery.go:355-364 | the observation goes to Control, and its markers enter the ledger only when Control acknowledged it; Control received exactly what the log says |
| LaunchSettlement.Site.DeleteJob | internal/workflows/recovery.go:313-320 | with retries and lost receipts, every marked Job whose marker is not acknowledged evidence stays untouched at the server; an empty answer means that every acknowledged Job is gone, and any other shows a marker not recorded yet |
| LaunchSettlement.Site.ConfirmStop | internal/workflows/recovery.go:342-351 | one confirmation for the stopped Job, and the pending flag is cleared exactly when Control settled the finding on it |
| RecoveryRounds.Recovery.SettleFinding | internal/workflows/recovery.go:229-242 | an unsettled launch finding gets a ledger and its launch's log grows; no log, recorded marker or pending stop of any launch is lost |
| LaunchSettlement.Site.SettleLaunch | internal/workflows/recovery.go:296-335 | the log and the recorded markers only grow; a pending stop is confirmed without touching the backend and stays pending until it was settled; the deletes are at most one more than the markers that may exist and are not recorded; the server stays spared of every unacknowledged delete |
| LaunchSettlement.Site.StopLaunch | internal/workflows/recovery.go:313-335 | deletes only after something was acknowledged, recording what turns up before it deletes again, and owes the stop exactly once the key was observed empty |
| LaunchSettlement.HoldsMove | internal/workflows/recovery.go:296-335 | evidence, spared Jobs and an owed stop survive every run of the environment that asks to delete nothing unacknowledged |
| LaunchSettlement.DeletedWasAcknowledged | internal/workflows/recovery.go:296-329 | at the server, in every state of a chain: a marked Job that is named by a delete, being deleted or gone carries a marker from an observation Control acknowledged, unless it was touched before the chain began |
| LaunchSettlement.AskedWasAcknowledged | internal/workflows/recovery.go:296-329 | and what the chain itself asked to delete was acknowledged before it asked |
| LaunchSettlement.ConfirmedAfterEmpty | internal/workflows/recovery.go:330-351 | every confirmation follows a delete that observed the key empty, with only unsettled confirmations in between |
| LaunchSettlement.OwedStopIsConfirmedNext | internal/workflows/recovery.go:259-266 | a stop stays owed: until Control settles the finding the next event is a confirmation |
| LaunchSettlement.OwedAcrossRounds | internal/workflows/recovery.go:259-266 | a stop owed at some moment is owed at every later one or was settled in between, and until then nothing happens but confirmations of it |
| LaunchSettlement.EmptyKeyMayFillAgain | internal/workflows/recovery.go:330-334 | an empty key can show a Job again exactly when some request can still commit |
| LaunchSettlement.EmptyKeyIsFinal | internal/workflows/recovery.go:330-334 | with no request able to commit when the Job was read, the empty key is final |
| RecoveryFindings.ReconcileFindings | internal/activities/recovery.go:144-168 | the Activity submits its ids once, reconciles every id once in order and fails only when canceled or when nothing advanced and the last failure was transient |
| RecoveryFindings.PageIsSplit | internal/activities/recovery.go:144-168 | a completed page of distinct findings is split exactly into advanced and failed |
| RecoveryFindings.CallsNameEveryUnsettled | internal/workflows/recovery.go:195-214 | the calls of a batched round name every listed unsettled finding, as often as it was listed, and nothing else |
| RecoveryFindings.ExactlyOneCall | internal/workflows/recovery.go:195-214 | with distinct findings every listed unsettled one stands in exactly one call of a batched round, once |
| RecoveryRounds.RestoreLedgers | internal/workflows/recovery.go:54-68 | a ledger survives the continuation: fresh, distinct objects with exactly the carried values |
| RecoveryRounds.Recovery.Reconcile | internal/workflows/recovery.go:181-248 | over everything Control was asked: when every listing was answered all findings were listed; the submitted calls name every unsettled one listed, one call a page when batched, whatever failed; every launch finding Control advanced without settling it was attended, and without a failure that is all of them |
| RecoveryRounds.Recovery.Round | internal/workflows/recovery.go:118-136 | a round advances findings only after a complete enumeration, then lists all and submits every unsettled one unless a listing failed, and evaluates the gate once |
| RecoveryRounds.Recovery.Run | internal/workflows/recovery.go:95-155 | a run's rounds are those of the single loop from its carry; a batched run makes one and hands on the next state; the gate is evaluated once a round; every round keeps the logs, the recorded markers and the pending stops it started with |
| RecoveryRounds.Recovery.Chain | internal/workflows/recovery.go:109-153 | the chain of batched runs makes rounds of the single loop, each from the ledgers the one before left; no recorded marker is lost from the first round to the last, and a pending stop stays until it is settled; it ends without an error exactly when the evaluation Control made last said reopened |
| RecoveryRounds.EvidenceSurvives | internal/workflows/recovery.go:54-76 | over any rounds and however they were split into runs: markers recorded before the first are recorded after the last, logs only grew, and a pending stop is still pending for the same Job or was settled |
| RecoveryRounds.RoundsArePaced | internal/workflows/recovery.go:136-145 | intervals are the capped doubling, the start never moves, and no wait is due after the bound |
| Effects.EachEffectIsSentAtMostOnce | internal/activities/release.go:355-395 | under any crashes, overlaps and lost answers an effect is sent at most once, never when denied, and succeeded only if the port recorded it |
| Effects.LostPermitIsNeverSent | internal/activities/release.go:365-384 | an effect whose permit was lost before its send is never sent by anyone |
| Effects.RunKeeps | internal/activities/lifecycle.go:458-495 | every run of overlapping attempts keeps permits and sends exclusive and Control's records true |
| GuardedEffects.Guarded | internal/activities/release.go:355-395 | sends exactly when this call was answered a permit, for a command that is new, and the port got nothing else; unknown means the port answered nothing, any other result is what the port's record of the effect settles |
| GuardedEffects.RegisterCandidate | internal/activities/lifecycle.go:458-495 | the same for the candidate registration |
| GuardedEffects.SaveSource | internal/activities/preview.go:103-147 | the same for the source save, whose refusal is a conflict the port recorded |
| GuardedEffects.Retried | internal/activities/release.go:355-395 | any number of calls of one command send at most once, none if it was prepared before, and every success is recorded at the port |
| GuardedEffects.AskedTwice | internal/activities/release.go:528-546 | two calls of one command that settle, with anything in between, report different states exactly when the effect is a publication that took place under a binding receipt and its destination served the bytes to one of them only |
| ReleaseWorkflow.Release.StillApproved | internal/workflows/release.go:491-501 | true only after a fresh read of an approval of exactly the subject |
| ReleaseWorkflow.Release.Effect | internal/workflows/release.go:394-451 | a mutation reaches its port at most once and only if it was never sent or answered before, the log holds exactly what the port got, and success is recorded at the port |
| ReleaseWorkflow.Release.AwaitApproval | internal/workflows/release.go:456-487 | one run of the wait decides as the specification against the decisions over time |
| ReleaseWorkflow.Release.Publish | internal/workflows/release.go:251-288 | a target is sent only on a fresh approval, and its port gets nothing the log does not hold; the next target goes on only after npm succeeded |
| ReleaseWorkflow.Release.RunOnce | internal/workflows/release.go:84-351 | a run extends the log, which stays right and holds exactly what ports, Control and review port were sent and asked; it settles last, or hands on revision, subject and the unmoved deadline of a wait that goes on as one |
| ReleaseWorkflow.Release.Chain | internal/workflows/release.go:84-351 | over the chain the log is right and holds every command the ports got and everything Control and the review port were asked, in order; success means both targets and the activation are recorded at the ports after an approval of the subject, and the approval wait decides as the unsplit one under its deadline |
| ReleaseWorkflow.EverySendIsApproved | internal/workflows/release.go:244-262 | every send follows a read of an approval of exactly the subject with no mutation between, is the mutation's first, and comes after npm (browser) or both targets (activation) succeeded |
| ReleaseWorkflow.EveryPortSendIsApproved | internal/workflows/release.go:244-262 | the same of every command the ports got: it is the first of its kind, follows a read of an approval of exactly the subject with no mutation between, and comes after what it builds on succeeded |
| ReleaseWorkflow.SuccessIsDelivered | internal/workflows/release.go:300-342 | succeeded means that the ports recorded both targets and the activation with receipts that bind |
| ReleaseWorkflow.Push | internal/workflows/release.go:124-138 | what keeps a log right: each record expects the revision answered last and records only what happened, and the outcome is succeeded exactly when the last answered record is the activation |
| ApprovalWait.RunIsPrefix | internal/workflows/release.go:456-487 | a run that ends decides as the unsplit wait, and one that continues stopped at one of its polls before the deadline |
| ApprovalWait.ChainIsUnsplit | internal/workflows/release.go:206-220 | the split wait decides as the unsplit one, under one absolute deadline |
| ApprovalWait.OnePollNeverWaits | internal/workflows/release.go:476-478 | with a poll bound of one or less an undecided wait stays where it is for ever |
| ApprovalWait.SplitEndsExactlyWhen | internal/workflows/release.go:476-485 | the split wait ends exactly when runs may poll twice or there is nothing to wait for |
| GenerationState.RunKeeps | internal/workflows/generation.go:26-41 | every interleaving of main loop, handlers and supervisor keeps the shared state's invariants |
| GenerationState.FenceIsFinal | internal/workflows/generation.go:503-514 | the fence is permanent: after it no launch, create, registration, renewal, resume or new expiry |
| GenerationState.LaterOccurrenceIsHigher | internal/workflows/generation.go:530-532 | renewals and the release use strictly increasing occurrences |
| GenerationState.ExpiryIsConfirmed | internal/workflows/generation.go:545-555 | the known expiry moves only to one the port confirmed held and Control recorded under the same occurrence |
| GenerationState.RegisteredIsCertified | internal/workflows/generation.go:288-293 | what is registered is the source of an accepted codegen stage that was the only input of the validator attempt whose accepted stage is the certification |
| GenerationState.RepairsAreBounded | internal/workflows/generation.go:298-305 | the counter counts the repairs and never exceeds the largest bound in force |
| GenerationState.AttemptsAreDistinct | internal/workflows/generation.go:43-50 | a rerun opens another attempt under another ordinal |
| GenerationState.HeldStartWasOpening | internal/workflows/generation.go:86-96 | work starts under a hold only in the attempt whose open was asked for before the hold was applied and answered after it, with no other open or close since |
| GenerationState.HoldMayPrecedeLaunch | internal/workflows/generation.go:658-663 | and it does, from the start of a run: a hold applied while the open is pending precedes the launch |
| Generation.Run.SuperviseLease | internal/workflows/generation.go:503-571 | with a lead of at least two instants the supervisor ends, fenced or stopped, unless renewals are confirmed: endless unknown answers reach the fence |
| Generation.Run.AcquireLease | internal/workflows/generation.go:469-495 | the main loop goes on only right after a lease was confirmed and recorded, or found in Control's record |
| GenerationState.NothingOpensBeforeTheLease | internal/workflows/generation.go:203-216 | no attempt is opened before the lease was confirmed held and recorded |
| Generation.Run.OneRound | internal/workflows/generation.go:226-310 | a round reruns only under a hold, and is certified only with the verdict on the source at hand |
| Generation.Run.RunJobStep | internal/workflows/generation.go:654-811 | a step's accepted stage belongs to the attempt it opened with the given inputs; the step leaves nothing in flight |
| Generation.Run.MaxRepairs | internal/workflows/lifecycle.go:100-117 | the last registered definition of the id that sets a bound decides |
| Generation.Run.Generate | internal/workflows/generation.go:66-377 | every event of a run is one the shared state allows, and success means that a registration was started and answered as succeeded and that nothing was fenced up to the end |
| PagixLeases.WindowsAreDisjoint | internal/adapters/pagix/double.go:134-239 | over any calls that shorten no live lease, leases have disjoint windows unless released, under growing fences |
| PagixLeases.OneTtlExtends | internal/adapters/pagix/double.go:168-204 | with one TTL and a monotone clock no call shortens a lease |
| PagixLeases.OwnersNeverOverlap | internal/adapters/pagix/double.go:134-163 | from nothing, held answers to different owners never overlap |
| PagixLeases.ShorteningLetsAnotherIn | internal/adapters/pagix/double.go:195-203 | a renewal lets another owner in while a held answer still stands exactly when it makes the lease end earlier than it said |
| PagixLeases.Double.Acquire | internal/adapters/pagix/double.go:134-163 | the method is the specification and touches one subject |
| PagixLeases.Double.Renew | internal/adapters/pagix/double.go:168-204 | the method is the specification and touches one subject |
| PagixLeases.Double.Query | internal/adapters/pagix/double.go:207-221 | the query answers the specification without a change |
| PagixLeases.Double.Release | internal/adapters/pagix/double.go:224-239 | the method is the specification and touches one subject |
| PagixSources.Sources.SaveRevision | internal/adapters/pagix/double.go:371-403 | the method is the specification and touches one lineage |
| PagixSources.RevisionsAreConsecutive | internal/adapters/pagix/double.go:371-403 | saved results name consecutive revisions once each, and no answer and no digest changes |
| PagixSources.RepeatedSaveAnswersTheSame | internal/adapters/pagix/double.go:379-381 | an effect answers its first result whatever happens in between |
| PagixCatalog.KeepOthers | internal/adapters/pagix/release.go:412-417 | the filter in place keeps the other components' entries in order |
| PagixCatalog.Origin.Activate | internal/adapters/pagix/release.go:375-442 | the method is the specification of the conditional write |
| PagixCatalog.CatalogMovesByOne | internal/adapters/pagix/release.go:375-442 | at most one entry per component, and one revision per activation |
| PagixCatalog.ActivationIsConditional | internal/adapters/pagix/release.go:401-418 | an activation replaces exactly its component's entry in the catalog the caller read |
| PagixCatalog.StaleReadConflicts | internal/adapters/pagix/release.go:401-403 | a new activation conflicts exactly when another one came after the caller's read |
| Stylesheets.SegmentsExact | internal/activities/release.go:298-306 | the segments are the path cut at its slashes |
| Stylesheets.ValidReleasePath | internal/activities/release.go:294-309 | the loop accepts exactly the publishable paths |
| Stylesheets.MatchStylesheets | internal/activities/release.go:259-286 | accepts exactly when both sides hold the same digests and sizes equally often and every path is publishable, and then uses every stage artifact once, in certification order |
| Preparation.ParseQuestions | internal/activities/lifecycle.go:173-185 | accepts exactly the bounded questions with distinct ids |
| Preparation.Classify | internal/activities/lifecycle.go:237-262 | the first known tool call decides; a must-conclude analysis never asks |
| Preparation.Preparation.ApplyAnswer | internal/workflows/preparation.go:68-82 | an answer applies exactly when it is the answer Control returned for the question set and revision open when its read came back; whether it was applied before was asked earlier |
| Preparation.Preparation.HandleAnswer | internal/workflows/preparation.go:68-82 | an answer that was applied is answered as applied again and changes nothing; otherwise, with handlers and the run going on during the read, it is applied only to the question set open then, with the body Control returned for that set and revision |
| Preparation.Preparation.AnalyzeRequirements | internal/activities/lifecycle.go:200-262 | one call to the Model Proxy under its identity; a must-conclude analysis never asks, and questions are bounded |
| Preparation.Preparation.AnalyzeRound | internal/workflows/preparation.go:240-308 | the Model Proxy got one call and one more per repair, within the allowance, under growing identities; a must-conclude round never asks |
| Preparation.Preparation.Clarify | internal/workflows/preparation.go:154-197 | a round goes on only with an answer to its own question set and revision |
| Preparation.Preparation.Run | internal/workflows/preparation.go:137-224 | at most one round more than the bound, the Model Proxy got distinct calls, at most rounds plus allowance, and a brief holds exactly one answer for each round that asked: the one Control returned for its question set and revision |

## Left out

Assumptions the model rests on:

- One HTTP request per ordinal; NotCreated, AlreadyExists and refusals are truthful; an unanswered request is unknown.
- The server handles a request for at most `maxHandling` after its client side ended, and the configured create request lifetime covers that; a request whose time is over at an instant does not commit at it.
- Pods start only under a Job that is not being deleted and carry its marker; Jobs end only after a delete; no other program creates marked objects under the key.
- A launch key is used by one run of creates; recovery meets whatever that run left.
- While recovery settles a launch, nobody else asks to delete its Jobs whose markers Control did not acknowledge; Jobs that were deleted, or named by a delete, when the settlement began are excepted.
- Control keeps one effect per command, a settled effect's outcome, and one answer per question set it was asked about; ports are idempotent by effect id.
- Workflow time moves only forward; a timer wakes no earlier than due.
- Waits and reconciliation intervals are positive, as the configuration demands.

Weaker or narrower than the source:

- Launcher.Client.DeleteJob: the call's context is a number of polls; the launch secret's removal is one step that may fail.
- Launcher.Client.CreateJob: profile, template and secret checks are given facts (`LaunchSpec`); how a secret create is classified is not modelled.
- LaunchRun.Run.ObserveLaunch: registering the observed Pods with Control is left out; the source continues when it fails.
- LaunchRun.Run.DeleteJob: Activity attempts follow one another; an overlapping attempt is the environment's deletes of unprotected Jobs.
- LocalCheck.LocalCheck.Start: observing the Job, registering Pods and accepting the result are one arbitrary outcome.
- Waits.SettleWith: histories recorded before the capped backoff (fixed interval, no bound) are not modelled.
- LaunchSettlement.Site.SettleLaunch: Control's own check of a confirmation is an arbitrary answer.
- RecoveryRounds.Recovery.Round: enumerating the classes is one step that is complete or not.
- RecoveryRounds.Recovery.Reconcile: Activity retries are set aside; a lost result counts as a failed call.
- GuardedEffects.Guarded: the receipt checks are one fact of the port's answer (`binds`), the availability read at the call is another (`served`).
- ReleaseWorkflow.Release.Prepare: binding, certification job and subject are one step that may fail; the digest is given.
- ReleaseWorkflow.Release.Effect: an attempt's open and close are not modelled beyond a failed open.
- ReleaseWorkflow.Release.AwaitApproval: a poll takes no time; only the timers do.
- Generation.Run.SuperviseLease: a supervisor whose context is over takes no further step; a query canceled at that moment could still fence in the source. A recorded loss that reuses the command id of a renewal is not modelled at the port.
- Generation.Run.RunJobStep: launch, creates and cleanup are events; their protocol is `LaunchRun`. The inputs of a repair round are not constrained.
- Generation.Run.Generate: permit, scope and funding are one arbitrary admission.
- Preparation.Preparation.ApplyAnswer: two handlers of one answer may both apply it, as in the source, where the check comes before the read that blocks.
- Preparation.Preparation.AnalyzeRequirements: reading the prompt and the answers is part of the call; a call whose artifacts cannot be read counts as made.
- Preparation.Preparation.Clarify: Control's question set carries the round it was recorded for.
- PagixLeases.Double.Renew: lease identities are fences; their hashes are taken as injective.

Not modelled:

- The double's injected faults, its file layout, `SetRevision` and processes sharing a directory; review decisions, registrations and the publication's files at the double.
- The bytes of subjects, manifests, receipts and briefs, canonical JSON and digests, beyond equality.
- gRPC, HTTP, TLS, SSE, Temporal's replay and history; marker versions take the current branch except the lifetime rule and batched rounds.
- Job templates, envelopes, configuration checks, redaction, telemetry, health, queues.
- `ObserveJob`, `AwaitOwner`, the preview workflow apart from its source save, and the model proxy.
- The answers to Updates other than the applied answer: definition validators and duplicate hold requests.
