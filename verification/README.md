# Verified model of the video generation proxy

The proxy accepts generation requests, stores them as tasks in SQLite and drives them on
upstream services that may be slow, unreachable or repeat themselves. Its processors may crash,
lose a lease or run late. This project models the durable protocols behind that as step
systems over tables and proves what they keep, in Dafny 4.11.
`dafny verify dfyconfig.toml` checks everything.

How it is built:

- A store method is one transaction. Its effect is a function on the rows of one task (`None`
  is a conflict after rollback); beside it a class method makes the same change in place,
  statement by statement, and is proved to agree with the function.
- A processor is an agent with a program counter and the local copy of the rows that the code
  carries around. Runs are sequences of steps; clock, upstream answers, crashes and the
  interleaving are data in the steps, so a statement about all sequences covers all runs.
- Lease tokens are fresh, hashes are collision free (artifact ids of distinct stages differ by
  assumption), JSON encoding is the identity on records.
- Loops of the source are loops here, proved against declarative functions.
- A lemma named `...Exactly` says in both directions when a step takes effect in a reachable state,
  and what can happen next.

| files | component |
|---|---|
| `RemoteRun`, `RemoteAgents`, `RemoteSafety`, `RemoteTheorems`, `RemoteOutcomes`, `RemoteLeases`, `RemoteProgress`, `RemoteLiveness`, `RemoteRequests`, `RemoteAdmission`, `RemoteCounterexamples`, `RemoteStore` | tk2sd remote runs |
| `StageRun`, `StageAgents`, `StageSafety`, `StageTheorems`, `StageLeases`, `StageProgress`, `StageUnique`, `StageLiveness`, `StageBarriers`, `StageCounterexamples`, `StageStore` | H3 stage pipeline |
| `Routing`, `RouteTheorems`, `CatalogTheorems`, `Resolver`, `ResolverTheorems`, `CatalogStore`, `ModelRouting` | optimistic routing |
| `Delivery`, `DeliveryTheorems`, `DeliveryStore` | result delivery |
| `Normalizer`, `Acceptance` | request normalisation, replay, structural checks |
| `Deletion`, `DeletionTheorems`, `DeletionStore` | deletion accounting |
| `Official`, `OfficialTheorems`, `NodeSlots`, `NodeEdits` | minimax-v2 submission, slot bounds, node edits |
| `Scans`, `ActiveTasks` | cursor scans, page loop |

Where a natural reading of the code's promises is too strong, the code is kept, a concrete run
shows the failure, and the exact condition is proved:

- An administrator's cancel reads the slot outside its transaction (`CouplingStep`,
  `AdminCancelMissesTheRun`); the same cancel pulls a tk2sd task out from under its pending
  upload (`Delivery.CouplingStep`, `CancelOrphansTheUpload`).
- A stored reconciliation mark stops leases, not a call whose intent was stored before
  (`ParkedSubmitsExactly`, `ParkedRunStillSubmits`).
- Barrier row versions start again at one with each new barrier of a node
  (`VersionsIdentifyWithinOneBarrier`, `OldReaderLiftsNewBarrier`); this needs two processors
  of one node at work at the same time.
- A failed attempt is final when the count read at the claim leaves one try, which counts a
  resumed attempt twice (`ResumedLosesATry`, `SilenceCostsATry`).
- Saving a submission baseline does not look at an earlier one, so submit-once fails exactly when
  an agent decides to submit while another one lists or saves (`SubmittedAtMostOnce`,
  `CollisionIsExact`, `OverlapSubmitsTwice`).
- Nothing keeps two tasks from binding one job (`SharesExactly`, `TwoTasksOneJob`).
- The slot bound holds for minimax-v2 nodes always and for tk2sd nodes up to key rotation
  (`SlotsStayBounded`, `RotationIsTheOnlyLeak`, `AllStayBounded`, `KeyRotationOvercommits`).

## Model

| member | source | states |
|---|---|---|
| `RemoteTheorems.OneJobPerTask` | internal/remote/processor.go:167-213 | in every run, any two Submits of a task carry the same node, key and body, and at most one of them makes a job at an upstream that deduplicates by key |
| `RemoteTheorems.IntentPrecedesSubmit` | internal/store/sqlite/remote_task_store.go:221-224 | a Submit goes out only while the run durably says submit_intent or later, and repeats the stored body and the key derived from instance and task |
| `RemoteTheorems.KeysAreDistinct` | internal/store/sqlite/remote_task_store.go:136-143 | distinct tasks have distinct idempotency keys |
| `RemoteTheorems.BoundIdsAreDistinct` | internal/store/sqlite/remote_task_store.go:226-242 | no two tasks of one node are ever bound to the same upstream id |
| `RemoteTheorems.EveryRowSteps` | internal/store/sqlite/remote_task_store.go:181-264 | whatever step the system takes, each task row makes an allowed step: invariant kept, run only moves forward, a lease holder who did not act finds its run unchanged |
| `RemoteTheorems.RunsEvolve` | internal/store/sqlite/remote_task_store.go:181-264 | over every run: phase rank never falls, terminal runs stand still, body and upstream id are written once, attempts and cancel state only advance, reconciliation is final |
| `RemoteTheorems.SlotMatchesRun` | internal/store/sqlite/remote_task_store.go:325-348 | the task slot is active exactly while the run exists and is not terminal |
| `RemoteTheorems.SupersededTokenIsPowerless` | internal/store/sqlite/remote_task_store.go:198-224 | a step or heartbeat of an agent whose token is no longer on the run changes no row |
| `RemoteTheorems.EarlyCancelPreventsSubmit` | internal/remote/processor.go:146-148 | a cancel recorded while the run is preparing or prepared means that no Submit is ever logged for the task, whatever follows |
| `RemoteTheorems.RequestIsNeverLost` | internal/remote/processor.go:224-261 | a recorded request stays until the run is terminal or the upstream was seen running and the request was marked rejected |
| `RemoteTheorems.CouplingStep` | internal/store/sqlite/store.go:564-619 | `requested` and `cancelling` stay in step over one transition if and only if it is not an administrator's cancel that meets a taken slot in dispatching or running |
| `RemoteTheorems.CouplingHolds` | internal/store/sqlite/remote_task_store.go:244-291 | over whole runs without such a cancel the two always go together |
| `RemoteCounterexamples.AdminCancelMissesTheRun` | internal/store/sqlite/store.go:564-619 | a concrete run: the slot was read as free, the task was claimed, the cancel was written; the task shows cancelling, the run has no request, and a Submit follows |
| `RemoteTheorems.RejectedMeansOneAttempt` | internal/remote/processor.go:177-202 | a task that ended as tk2sd_submit_rejected has a terminal run with exactly one attempt and no upstream id |
| `RemoteTheorems.RefusedReplayNeverTerminates` | internal/remote/processor.go:190-199 | in every run: after a Submit answered 409, or a replay answered 4xx, that agent never moves any run to another phase, whatever anyone does in between |
| `RemoteTheorems.ReconciliationIsFinal` | internal/store/sqlite/remote_task_store.go:181-192 | once reconciliation_required is stored the run never carries a lease again and its attempts stop counting |
| `RemoteTheorems.AttemptsCoverSubmits` | internal/store/sqlite/remote_task_store.go:221-224 | in every reachable state the stored attempts of a task are at least the Submits made plus the agents that may still make one |
| `RemoteTheorems.ParkedSubmitsAreBounded` | internal/store/sqlite/remote_task_store.go:207-224 | after a run is parked or terminal, later Submits are at most the agents that had stored their intent before |
| `RemoteTheorems.ParkedSubmitsExactly` | internal/store/sqlite/remote_task_store.go:207-224 | no continuation submits again if and only if no such agent was pending |
| `RemoteCounterexamples.ParkedRunStillSubmits` | internal/remote/processor.go:177-202 | a concrete run in which a late agent still submits after reconciliation was stored |
| `RemoteTheorems.EvidenceAlwaysChecks` | internal/remote/processor.go:177-184 | the hash and model check before a Submit never fails in any run |
| `RemoteOutcomes.OutcomeIsWhatWasSaid` | internal/store/sqlite/remote_task_store.go:312-358 | in every run: an ended run and its task agree (failed, cancelled, or succeeded, reconciling or being cancelled), the result address is stored exactly with a success and public exactly without a delivery, and a success, a failed generation or a cancel after a Submit was said by the upstream |
| `RemoteOutcomes.LastWordDecides` | internal/remote/processor.go:229-303 | a poll leads to a completion exactly on a final answer, an accepted cancel or a final answer after a 409, and a success only with a usable address |
| `RemoteOutcomes.LastWordIsStored` | internal/remote/processor.go:229-311 | in every run that word is what the agent's next step stores if and only if it still holds the lease |
| `RemoteOutcomes.LiveWordIsObserved` | internal/remote/processor.go:229-257 | a poll that is not final is observed as it was heard, and a request to cancel something running is refused |
| `RemoteLeases.LeaseExcludes` | internal/store/sqlite/remote_task_store.go:181-210 | while a lease runs, steps of others leave the run as it is but for a request to cancel |
| `RemoteLeases.GrantedExactly` | internal/store/sqlite/remote_task_store.go:181-196 | in every reachable state a lease is granted exactly on a live run of the node whose lease is free or has run out |
| `RemoteProgress.HolderActs` | internal/store/sqlite/remote_task_store.go:207-264 | in every reachable state each transaction of an agent does to run and task what it is for if and only if the lease is held and no cancel came first |
| `RemoteLeases.RenewsExactly` | internal/store/sqlite/remote_task_store.go:198-205 | in every reachable state a heartbeat extends the lease exactly in time and changes nothing else |
| `RemoteLiveness.LeftAloneItEnds` | internal/remote/processor.go:141-311 | from every reachable state a live and free run, whatever earlier agents left, is ended by thirteen steps of one agent with what the upstream says, or as cancelled if that was asked before the intent |
| `RemoteRequests.ClaimsExactly` | internal/store/sqlite/remote_task_store.go:98-156 | in every reachable state a task is claimed exactly if it waits, its key is usable and the node admits it; the run is then untouched and free |
| `RemoteRequests.CancelsExactly` | internal/store/sqlite/remote_task_store.go:266-291 | in every reachable state a cancel is recorded exactly until the upstream was seen running or refused; an ended task counts as cancelled exactly if it was |
| `RemoteRequests.AdminCancelsExactly` | internal/store/sqlite/store.go:564-619 | in every reachable state the administrator's cancel ends what waits, marks what is at work and leaves what has ended |
| `RemoteSafety.ExecKeeps` | internal/remote/processor.go:92-266 | the whole invariant (rows, agents' local copies, submission log, upstream jobs) holds after every sequence of steps |
| `RemoteAdmission.ClaimRespectsLimits` | internal/store/sqlite/remote_task_store.go:48-52 | a successful claim leaves the node within both the argument and the configured capacity |
| `RemoteAdmission.AdmitsExactly` | internal/store/sqlite/remote_task_store.go:48-97 | admission in both directions: one more slot fits argument and configuration and, under a usable report, one more fits beside occupied, cooling and the slots of ours that the report does not count |
| `RemoteAdmission.ClaimEstablishes` | internal/store/sqlite/remote_task_store.go:57-97 | a successful claim under a snapshot leaves own slots not among the leased ids + occupied + cooling within capacity |
| `RemoteAdmission.AdmissionAfterFirstClaim` | internal/store/sqlite/remote_task_store.go:48-97 | from the first claim on, any number of claims under the same snapshot, interleaved with anything else, stay within it |
| `RemoteStore.Store.CountOverlap` | internal/store/sqlite/remote_task_store.go:62-91 | the two loops count exactly the active slots of the node whose upstream id is among the non-empty leased ids |
| `RemoteStore.Store.FirstEligible` | internal/store/sqlite/remote_task_store.go:98-131 | the loop with `continue` picks the first queued task whose snapshot decodes, matches and is accepted by the node's capability, and none if there is none |
| `RemoteStore.Store.ClaimNext` | internal/store/sqlite/remote_task_store.go:30-156 | busy exactly when admission refuses; otherwise claims the first eligible task, changing its two rows and no other |
| `RemoteStore.Store.Acquire` | internal/store/sqlite/remote_task_store.go:181-196 | a lease is granted exactly under the guard, to one row |
| `RemoteStore.Store.Renew` | internal/store/sqlite/remote_task_store.go:198-205 | only the holder of an unexpired lease on a live run extends it |
| `RemoteStore.Store.Release` | internal/store/sqlite/remote_task_store.go:207-210 | only such a holder gives it back, with or without the reconciliation mark |
| `RemoteStore.Store.Prepare` | internal/store/sqlite/remote_task_store.go:212-219 | body and hash are frozen together, once, and not after a cancel |
| `RemoteStore.Store.Begin` | internal/store/sqlite/remote_task_store.go:221-224 | the intent is stored and the attempt counted under the same guard |
| `RemoteStore.Store.Bind` | internal/store/sqlite/remote_task_store.go:226-242 | run and task are bound together or, when the task does not match, not at all |
| `RemoteStore.Store.Observe` | internal/store/sqlite/remote_task_store.go:244-264 | an observation keeps a concurrent request unless it rejects it |
| `RemoteStore.Store.RequestCancel` | internal/store/sqlite/remote_task_store.go:266-291 | each of the five outcomes, and the two rows of the recorded one |
| `RemoteStore.Store.Complete` | internal/store/sqlite/remote_task_store.go:312-358 | run and task become terminal together or not at all; a delivery leaves the task reconciling |
| `StageTheorems.OneLiveAttempt` | internal/store/sqlite/stage_store.go:170-219 | in every reachable state at most one attempt of a task is live; it is the last of its stage and its number is the attempt count, within max_attempts |
| `StageTheorems.OnlyItsNodeReclaims` | internal/store/sqlite/stage_store.go:59-59 | while an attempt is live the only claim the task admits is of that stage by that attempt's node |
| `StageTheorems.TriesAreLeft` | internal/orchestrator/orchestrator.go:516-527 | attempts equal the count within max_attempts, and a pending stage always has a try left |
| `StageTheorems.SupersededTokenIsHarmless` | internal/store/sqlite/stage_store.go:221-246 | an agent whose stage carries another token can at most note an execution id on a live attempt |
| `StageLeases.LeaseExcludes` | internal/store/sqlite/stage_store.go:59-104 | while a stage lease runs, steps of others except a cancel change nothing of the stage but notes on its attempts |
| `StageLeases.ClaimedExactly` | internal/store/sqlite/stage_store.go:59-104 | in every reachable state a stage is claimed exactly if no barrier closes the node, it is the next of a running task, it is free, and it suits: the node of the live attempt, or else any eligible node |
| `StageProgress.HolderActs` | internal/store/sqlite/stage_store.go:170-337 | in every reachable state the holder's transactions (attempt, bind, completion, failure) achieve what they are for if and only if not hindered in the way stated |
| `StageProgress.ResumesExactly` | internal/orchestrator/orchestrator.go:153-203 | a holder takes up exactly the live attempt, with its execution if known, and starts a new one exactly if there is none |
| `StageLiveness.LeftAloneItSucceeds` | internal/orchestrator/orchestrator.go:69-203 | from every reachable state a stage that is next, free and suits the node has succeeded after a claim and eight steps of one agent whose node does its work, whatever earlier agents left of it |
| `StageUnique.ExecutionsAreUnique` | migrations/005_profiles_and_stages.sql:107-109 | in every run no two attempts on a node have the same execution |
| `StageProgress.RefusalIsCharged` | internal/orchestrator/orchestrator.go:137-143 | in every reachable state a refused submission of a new attempt, once noted, leaves the stage free and without a live attempt: failed exactly if no try is left or the failure is final, else waiting for the next |
| `StageProgress.RefusedAgainIsFree` | internal/orchestrator/orchestrator.go:188-194 | a refused submission of an attempt taken up again writes nothing |
| `StageProgress.RenewsExactly` | internal/store/sqlite/stage_store.go:164-168 | a polling holder keeps its lease exactly if it comes in time |
| `StageTheorems.StagesInOrder` | internal/store/sqlite/stage_store.go:268-304 | a stage that was claimed or tried stands after succeeded stages only, and each of them handed its own artifact to the next |
| `StageTheorems.SucceedsWithItsLastStage` | internal/store/sqlite/stage_store.go:288-296 | a task has succeeded exactly when its last stage has; the result is that stage's artifact, of kind final_video, and no earlier one is final |
| `StageTheorems.ResumedLosesATry` | internal/orchestrator/orchestrator.go:516-527 | in every reachable state a failure the node does not call final ends the task with a try left if and only if the attempt was there at the claim and only one try is left |
| `StageCounterexamples.SilenceCostsATry` | internal/orchestrator/orchestrator.go:516-527 | a concrete run from the empty system: the first processor goes silent, the second takes its attempt up, and the task fails after one of two tries |
| `StageRun.CompleteStep` | internal/store/sqlite/artifact_store.go:69-149 | completing with output keeps the pipeline invariant and hands the output on |
| `StageRun.BindStep` | internal/store/sqlite/stage_store.go:221-246 | binding keeps the invariant although its earlier updates survive a later conflict |
| `StageRun.CancelStep` | internal/store/sqlite/store.go:594-645 | an accepted cancel always ends the task as cancelled with no live attempt; `cancelling` is unreachable for this protocol |
| `StageSafety.ExecKeeps` | internal/orchestrator/orchestrator.go:69-203 | pipelines and agents keep their invariant over every interleaving, crash and late agent |
| `StageBarriers.CancelMissesNothing` | internal/store/sqlite/dispatch_barrier.go:64-82 | a cancel ends every live attempt, and the barrier found with LIMIT 1 names exactly the one that was live |
| `StageBarriers.CancelsExactly` | internal/store/sqlite/store.go:594-645 | in every reachable state a cancel takes effect exactly if the task has not ended and no barrier stands in the way; a queued task is marked, any other lets go of its node and of every open stage |
| `StageBarriers.IdleCancelSetsNoBarrier` | internal/store/sqlite/dispatch_barrier.go:64-82 | without a live attempt no barrier is set |
| `StageBarriers.OpenedOnlyKnowing` | internal/orchestrator/orchestrator.go:205-245 | whatever step removes a barrier, its reader knew an execution to ask about and held the stored version |
| `StageBarriers.BarrierCanGo` | internal/orchestrator/orchestrator.go:205-237 | reading a barrier, naming its execution if unknown and lifting it opens the node, with nothing else changed |
| `StageBarriers.DeferringOutdates` | internal/store/sqlite/dispatch_barrier.go:48-51 | a deferral puts every other reader of that barrier out of date |
| `StageBarriers.VersionsIdentifyWithinOneBarrier` | internal/store/sqlite/dispatch_barrier.go:42-56 | when the row version matches, the stored barrier is what the reader holds if and only if it is about the same attempt |
| `StageCounterexamples.OldReaderLiftsNewBarrier` | internal/store/sqlite/dispatch_barrier.go:53-56 | a concrete run from the empty system, with distinct attempts and executions: versions start again with each barrier, so a reader of a lifted one removes the barrier of another task |
| `StageStore.Store.Claimable` | internal/store/sqlite/stage_store.go:59-59 | the loops over earlier stages and attempts decide the claim condition |
| `StageStore.Store.Claim` | internal/store/sqlite/stage_store.go:80-104 | nothing is claimed behind a barrier; otherwise exactly the guarded stage changes |
| `StageStore.Store.Create` | internal/store/sqlite/stage_store.go:170-219 | attempt, counter and task ownership change together under the guard, and never for an attempt id that any task has used |
| `StageStore.Store.Bind` | internal/store/sqlite/stage_store.go:221-246 | three updates in a row, without rollback; nothing at all for an execution that another attempt on the node has |
| `StageStore.Store.RegisterOutput` | internal/store/sqlite/artifact_store.go:93-149 | insert-or-compare: a different artifact under the stage's id is a conflict that leaves nothing behind |
| `StageStore.Store.CompleteStage` | internal/store/sqlite/stage_store.go:268-304 | attempt, stage, next stage's input and task settle together |
| `StageStore.Store.Complete` | internal/store/sqlite/artifact_store.go:69-91 | output and completion commit together or not at all |
| `StageStore.Store.Remaining` | internal/store/sqlite/stage_store.go:288-291 | zero remain exactly when all stages are succeeded or skipped |
| `StageStore.Store.Fail` | internal/store/sqlite/stage_store.go:306-337 | only the token holder fails a stage; terminal failure ends the task |
| `StageStore.Store.Cancel` | internal/store/sqlite/store.go:594-645 | a node that already has a barrier makes the whole cancel fail |
| `Routing.RevisionVersionsContent` | internal/store/sqlite/model_catalog_store.go:55-130 | every writer either leaves nodes, protocols, models and routes as they were or strictly raises the revision |
| `Routing.ChangedIsExact` | internal/store/sqlite/model_catalog_store.go:213-236 | the program's change test is true if and only if the stored models differ after the refresh |
| `Routing.SameRevisionSameContent` | internal/store/sqlite/model_catalog_store.go:163-166 | between two moments of a run with equal revision all routing content is equal |
| `RouteTheorems.RouteStep` | internal/store/sqlite/model_catalog_store.go:167-172 | a route changes only by a binding of its model to a protocol that offers it, which raises its version by one; a new route is automatic exactly if one protocol offers the model |
| `RouteTheorems.RoutesStay` | internal/store/sqlite/model_route_store.go:117-148 | over every run routes are never lost, are the same while their version stands, and are replaced only by hand |
| `RouteTheorems.OffersAreRouted` | internal/store/sqlite/model_catalog_store.go:167-172 | in every run from no nodes whatever is offered has a route |
| `CatalogTheorems.WritesExactly` | internal/store/sqlite/model_catalog_store.go:55-153 | a node's catalogue is stored exactly if an enabled node can serve something, the given revision is the stored one and the items are valid |
| `CatalogTheorems.WritesMerge` | internal/store/sqlite/model_catalog_store.go:55-130 | listed models are stored as given, known ones not listed stay but not present, and a later success of the same connection is kept |
| `CatalogTheorems.NodesExactly` | internal/store/sqlite/model_node.go:40-137 | a node is created once and edited only at its current version, each exactly if its catalogue can be stored |
| `CatalogTheorems.RemovesExactly` | internal/store/sqlite/model_node.go:139-180 | a node is removed exactly while disabled, and then offers nothing |
| `CatalogTheorems.RefreshesExactly` | internal/store/sqlite/model_catalog_store.go:174-265 | a discovered list is stored exactly if it is for the current version, connection and revision, valid, and no error; revisions move exactly if the stored models change |
| `CatalogTheorems.DiscoversExactly` | internal/store/sqlite/model_catalog_store.go:174-265 | it serves for 1800 seconds, and exactly the listed models an administrator enabled are offered |
| `CatalogTheorems.BindsExactly` | internal/store/sqlite/model_route_store.go:117-148 | a route is bound exactly at its current version and revision and to a protocol over which a node offers the model |
| `CatalogStore.Store.Compare` | internal/store/sqlite/model_catalog_store.go:213-236 | the loops over the list and over the stored models compute that test and the merged models |
| `CatalogStore.Store.Refresh` | internal/store/sqlite/model_catalog_store.go:174-265 | a refresh commits the catalogue; revision and routes move only with the flag |
| `Resolver.Scan` | internal/routing/service.go:45-85 | stops at the first healthy entry that normalises, in node and model order; without one, bad input exactly when something was rejected and nothing capable was seen |
| `Resolver.Resolve` | internal/routing/service.go:26-86 | unsupported, ambiguous, a failed read, decided, bad input, unavailable: each exactly under its condition |
| `Resolver.ScanIsDetermined` | internal/routing/service.go:45-85 | those conditions exclude each other, so what was read fixes the answer |
| `ResolverTheorems.SameWords` | internal/routing/service.go:45-85 | which entries may be chosen, are refused or fail, spelled out over what was read: enabled node, route protocol, fresh catalogue, enabled and present model, needs met, node healthy |
| `ResolverTheorems.DecidedIsFirst` | internal/routing/service.go:45-85 | a decision is the first entry that may be chosen in node and model order, with no failed read before it |
| `ResolverTheorems.AmbiguousMeans` | internal/store/sqlite/model_route_store.go:52-68 | a route is usable exactly if it names a protocol that was bound by hand or that nobody disputes |
| `ResolverTheorems.NeedsExactly` | internal/protocol/registry.go:50-80 | a tk2sd task has needs exactly if its request is ordinary and the capability accepts them |
| `Resolver.DecisionIsCurrent` | internal/routing/service.go:26-86 | route, node list, and header and rows of each considered catalogue may be read at different moments; an equal revision at the end makes the decision describe the end state: route, enabled node, protocol, model and capability |
| `Resolver.Recheck` | internal/store/sqlite/task_routing_store.go:62-105 | the storing transaction answers changed, no model, no route or stored, each exactly under its condition |
| `ResolverTheorems.StoresExactly` | internal/store/sqlite/task_routing_store.go:62-105 | changed, stored and no route, each spelled out over the nodes and catalogues as stored |
| `Resolver.ResolvedIsStored` | internal/store/sqlite/task_routing_store.go:62-105 | from scattered reads to the stored task: the recheck stores the decision if and only if the revision is unchanged, as long as a discovered catalogue has not run out |
| `Delivery.CouplingStep` | internal/store/sqlite/result_delivery_store.go:189-270 | one step keeps job and task telling the same story if and only if it is not a cancel of a pending delivery on a node other than minimax-v2 |
| `Delivery.StoriesAgree` | internal/store/sqlite/result_delivery_store.go:118-270 | over whole runs without such a cancel: open job iff task reconciling, undelivered iff failed with result_upload_failed, delivered iff succeeded with the job's URL |
| `Delivery.OfficialStoriesAgree` | internal/store/sqlite/official_task_store.go:106-130 | for deliveries of minimax-v2 nodes this needs no condition |
| `Delivery.CancelOrphansTheUpload` | internal/store/sqlite/store.go:582-614 | a concrete run: the cancel turns a reconciling task to cancelling under its pending job |
| `Delivery.OrphansAreNeverDelivered` | internal/store/sqlite/result_delivery_store.go:248-270 | after such a cancel, whatever follows, the task stays cancelling and the job never becomes delivered |
| `Delivery.ClaimsAreBounded` | internal/store/sqlite/result_delivery_store.go:118-140 | within a round the claims are exactly the growth of the attempt number, over all rounds at most three each; attempt numbers stay in bounds |
| `Delivery.NeverStuck` | internal/store/sqlite/result_delivery_store.go:143-187 | an open job whose times are over is either claimable or exhausted, and recovery ends the exhausted ones |
| `Delivery.LostLeaseIsPowerless` | internal/store/sqlite/result_delivery_store.go:201-228 | a worker whose token is gone can neither fail nor complete the job |
| `Delivery.LeaseExcludes` | internal/store/sqlite/result_delivery_store.go:118-187 | while an upload lease runs nobody but its holder changes the job |
| `Delivery.ClaimableExactly` | internal/store/sqlite/result_delivery_store.go:118-140 | a job is claimable exactly if open with attempts left, due, and under no running lease |
| `DeliveryTheorems.ClaimsExactly` | internal/store/sqlite/result_delivery_store.go:118-140 | a claim takes effect exactly then; the job can be claimed again from the end of the lease on, or is exhausted from then on |
| `DeliveryTheorems.CompletesExactly` | internal/store/sqlite/result_delivery_store.go:248-270 | the lease holder and nobody else delivers, and the address goes to job and task |
| `DeliveryTheorems.FailsExactly` | internal/store/sqlite/result_delivery_store.go:201-228 | the lease holder and nobody else reports a failure: due again exactly at its time with attempts left and worth retrying, otherwise over with the task |
| `DeliveryTheorems.RecoversExactly` | internal/store/sqlite/result_delivery_store.go:143-187 | recovery ends exactly the exhausted jobs, each with its task |
| `DeliveryTheorems.RetriesExactly` | internal/store/sqlite/result_delivery_store.go:230-246 | a retry reopens exactly the deliveries that failed, due at once in a new round |
| `DeliveryTheorems.DeliversExactly` | internal/store/sqlite/official_task_store.go:106-130 | a delivery starts exactly once per task, with the origin that was stored first except for minimax-v2 |
| `DeliveryStore.Queue.Recover` | internal/store/sqlite/result_delivery_store.go:143-187 | one batch of up to 100 exhausted jobs ends, each with its task; afterwards none is left or the batch was full |
| `DeliveryStore.Queue.ClaimNext` | internal/store/sqlite/result_delivery_store.go:118-140 | recovery stays committed when the queue is empty; otherwise the first due job with attempts left is taken |
| `DeliveryStore.Queue.ClaimFirst` | internal/store/sqlite/result_delivery_store.go:118-140 | the loop takes the first claimable job in queue order and changes no task |
| `DeliveryStore.Queue.Fail` | internal/store/sqlite/result_delivery_store.go:201-228 | over the separate job and task tables: retry wait of the job alone, or final failure of both |
| `DeliveryStore.Queue.Complete` | internal/store/sqlite/result_delivery_store.go:248-270 | job and task succeed together or not at all |
| `DeliveryStore.Queue.Retry` | internal/store/sqlite/result_delivery_store.go:230-246 | a new round starts for job and task together or not at all |
| `Normalizer.Normalize` | internal/protocol/tk2sd.go:10-108 | the loops compute exactly the declarative normalisation, with its two kinds of refusal |
| `Normalizer.Scan` | internal/protocol/tk2sd.go:35-93 | roles filled in place and five counters, against counting functions on the filled list |
| `Normalizer.Collect` | internal/protocol/registry.go:66-80 | roles, sources and media count gathered in one pass |
| `Acceptance.AnswersExactly` | internal/protocol/tk2sd.go:10-108 | every request is invalid exactly if it is not an ordinary one (one text, up to nine images, three videos, three audios, each well formed), refused by the model exactly if the capability does not accept its needs, and otherwise accepted |
| `Acceptance.AcceptsExactly` | internal/domain/model_routing.go:45-100 | a capability accepts exactly if the first mode that fits allows the roles, and sources, resolution and media count are allowed |
| `Acceptance.AcceptedMeans` | internal/protocol/tk2sd.go:35-108 | an accepted request is the one sent with missing roles and duration filled in; its scenario, prompt and counts follow from its elements |
| `Acceptance.NeedsMean` | internal/protocol/registry.go:66-80 | its needs name exactly the roles and source schemes of its media |
| `Acceptance.ForeignMeans` | internal/protocol/tk2sd.go:49-51 | references bound to a node are recognised by their scheme |
| `Normalizer.ReplayAgrees` | internal/httpapi/v2/create.go:56-66 | any request that normalises to the stored digest under whatever capability is accepted by replay under the synthetic one, with the identical result |
| `Normalizer.ReplaySucceeds` | internal/httpapi/v2/create.go:56-66 | the same request sent again replays to itself however the catalogue has changed |
| `Normalizer.ReplayIsFaithful` | internal/httpapi/v2/create.go:23-34 | an accepted replay with the stored digest is the stored request but for resolution, ratio and watermark |
| `Normalizer.Check` | internal/remote/inputs.go:56-91 | the materialiser's loop with its map of counts decides well-formedness |
| `Normalizer.AcceptedIsWellFormed` | internal/remote/inputs.go:56-91 | a request accepted by normalisation passes the materialiser's structural checks if and only if its duration is 4 to 15 |
| `Normalizer.DiscoveredDurationsSuffice` | internal/routing/inventory.go:104-110 | so under discovered capabilities execution never finds a malformed task |
| `Deletion.BooksBalance` | internal/store/sqlite/deletion_store.go:132-292 | in every reachable state counters equal the item counts, bytes equal the sum, a job is final iff no item is open, and its final status follows from the counts |
| `Deletion.FailBalances` | internal/store/sqlite/deletion_store.go:166-219 | kept by a failure, transient or final |
| `Deletion.CompleteBalances` | internal/store/sqlite/deletion_store.go:221-292 | kept by a completion |
| `Deletion.RetryBalances` | internal/store/sqlite/cleanup_store.go:213-247 | kept by an administrator's retry |
| `Deletion.ConfirmBalances` | internal/store/sqlite/cleanup_store.go:131-157 | kept by confirming a preview |
| `Deletion.ShownIsDeleted` | internal/store/sqlite/cleanup_store.go:123-135 | for every job of every run: no items before the confirmation, afterwards exactly the candidates the preview showed |
| `Deletion.DoneStaysDone` | internal/store/sqlite/deletion_store.go:132-158 | a finished item never changes again, so no bytes are counted twice |
| `Deletion.LeaseExcludes` | internal/store/sqlite/deletion_store.go:132-158 | while a lease on an item runs nobody but its holder changes the item |
| `DeletionTheorems.TakesExactly` | internal/store/sqlite/deletion_store.go:132-158 | an item is taken exactly when it may be; it can be taken again exactly from the end of the lease on |
| `DeletionTheorems.FinishesExactly` | internal/store/sqlite/deletion_store.go:221-292 | the holder and nobody else reports an item gone; bytes are added and the job status follows from the counts |
| `DeletionTheorems.BreaksExactly` | internal/store/sqlite/deletion_store.go:166-219 | the holder and nobody else reports a failure: final, or due again exactly at its time |
| `DeletionTheorems.RetriesExactly` | internal/store/sqlite/cleanup_store.go:213-247 | a retry reopens exactly the failed items of the named nodes, and takes effect exactly if there are any |
| `DeletionTheorems.ConfirmsExactly` | internal/store/sqlite/cleanup_store.go:96-157 | a preview is confirmed exactly if the candidates are those it showed, and then everything shown is due |
| `DeletionStore.Recount` | internal/store/sqlite/deletion_store.go:194-208 | the recount loop gives the three group counts |
| `DeletionStore.Store.Claim` | internal/store/sqlite/deletion_store.go:132-158 | the oldest due item of the node, and its job leaves pending |
| `DeletionStore.Store.Fail` | internal/store/sqlite/deletion_store.go:166-219 | item, counters and job status change together |
| `DeletionStore.Store.Complete` | internal/store/sqlite/deletion_store.go:221-292 | item, counters, bytes and job status change together |
| `DeletionStore.Store.Retry` | internal/store/sqlite/cleanup_store.go:213-247 | the failed items of the chosen nodes are reopened, or nothing changes |
| `DeletionStore.Summarise` | internal/store/sqlite/cleanup_store.go:287-306 | per-node counts and bytes are exact and add up to the totals |
| `Official.Reconcile` | internal/official/processor.go:170-195 | the filtering loop finds nothing, one id or several, as the list says |
| `Official.UniqueIsTheOnlyMatch` | internal/official/processor.go:170-224 | a unique find is exactly the one listed entry outside the baseline that matches the task |
| `Official.MatchesExactly` | internal/official/processor.go:176-192 | an entry matches exactly if it is new and could be showing, field by field or left out, a job this task's call made |
| `Official.OwnJobIsFound` | internal/official/processor.go:170-224 | a listed job of the task that was not there before is the find, or there are several |
| `OfficialTheorems.EndsExactly` | internal/official/processor.go:126-168 | in every run a step ends the task exactly on the upstream's final answer about the bound job or on giving up, and it succeeds exactly if the upstream says so |
| `OfficialTheorems.BindsOnce` | internal/store/sqlite/official_task_store.go:99-102 | in every run an id is bound exactly while the task waits for one, and never changes |
| `OfficialTheorems.ResumesWhereItWas` | internal/official/processor.go:59-98 | a run polls the bound job, else searches if a baseline was saved, else goes on to submit |
| `OfficialTheorems.SearchesThrice` | internal/official/processor.go:197-214 | a search gives up after exactly three lists without a match |
| `Official.OneSubmitPerTask` | internal/official/processor.go:52-120 | so a claimed task worked on by runs that do not overlap is submitted at most once |
| `Official.SubmittedAtMostOnce` | internal/official/processor.go:52-120 | over every run in which nobody decides to submit while another agent lists or saves its baseline, with crashes and any overlap besides: at most one Submit, and a bound id is its answer or the only match outside the saved baseline |
| `Official.CollisionIsExact` | internal/official/processor.go:93-104 | a step opens the way to two Submits if and only if it is such a decision |
| `Official.OverlapSubmitsTwice` | internal/store/sqlite/official_task_store.go:13-20 | a concrete continuation of every claimed task in which two overlapping agents both submit |
| `Official.SearchBindsExactly` | internal/official/processor.go:170-224 | a searching agent binds an id if and only if it is the only new listed entry that matches its task |
| `Official.SharesExactly` | internal/official/processor.go:170-224 | so it ends on another task's job if and only if that job is this entry |
| `Official.TwoTasksOneJob` | internal/official/processor.go:170-224 | a concrete run of two claimed tasks, one Submit answered and one not, that end on one job |
| `NodeSlots.SlotsStayBounded` | internal/store/sqlite/official_task_store.go:47-97 | in every reachable state a minimax-v2 node holds at most its stored max_concurrency slots |
| `NodeSlots.SlotsAreBusy` | internal/store/sqlite/model_node.go:233-239 | every slot belongs to a task that counts as active, so an idle node has none taken |
| `NodeSlots.KeyRotationOvercommits` | internal/store/sqlite/model_node.go:101-103 | a concrete run from empty tables: a key rotation on a busy tk2sd node stores less than the slots taken |
| `NodeSlots.RotationIsTheOnlyLeak` | internal/store/sqlite/model_node.go:93-109 | one step keeps minimax-v2 and tk2sd nodes within their bound if and only if it is not a permitted key rotation, at the current version and the same address, with a maximum below the slots taken |
| `NodeSlots.AllStayBounded` | internal/store/sqlite/model_node.go:68-136 | over whole runs without such an edit tk2sd nodes stay within their bound too |
| `NodeEdits.IdleEditsExactly` | internal/store/sqlite/model_node.go:68-137 | an edit of an idle node is stored exactly if it is of the current version and does not gain the compatibility mark |
| `NodeEdits.RoutineEditsPass` | internal/store/sqlite/model_node.go:93-109 | no change, disabling, raising the concurrency and rotating a tk2sd key pass on a busy node |
| `NodeEdits.BusyEditsKeep` | internal/store/sqlite/model_node.go:93-131 | whatever passes on a busy node keeps address, protocol, mark, key and settings, never enables it and never lowers its concurrency, but for the rotation of a tk2sd key |
| `NodeEdits.RemovesExactly` | internal/store/sqlite/model_node.go:139-180 | a node is removed exactly while disabled and idle |
| `NodeEdits.MaxesStay` | internal/store/sqlite/model_node.go:299-322 | every stored concurrency is at least one, and one unless the node is driven directly |
| `NodeEdits.RemovedStays` | internal/store/sqlite/model_node.go:139-180 | a removed node never changes, and no slot is taken on it |
| `NodeSlots.Store.CountSlots` | internal/store/sqlite/official_task_store.go:66-71 | the pass over the task rows counts exactly the slots of the node |
| `NodeSlots.Store.ClaimNextOfficial` | internal/store/sqlite/official_task_store.go:47-97 | stale, full, empty or the first eligible queued task, each exactly under its condition, below the smaller of argument and stored concurrency |
| `NodeSlots.Store.UpdateNode` | internal/store/sqlite/model_node.go:68-136 | which edits of a busy node pass, in the order they are asked |
| `Scans.FirstIsLeast` | internal/store/sqlite/task_routing_store.go:262-330 | the plain scan yields the eligible row with the least key, and nothing iff none is eligible |
| `Scans.NextTask` | internal/store/sqlite/task_routing_store.go:262-330 | the batched cursor scan over tasks equals the plain scan, for any queue length, and ends |
| `Scans.NextStage` | internal/store/sqlite/stage_store.go:106-162 | the batched scan with the two-part cursor equals the plain scan |
| `Scans.PageIsSlice` | internal/store/sqlite/stage_store.go:106-128 | a page after the cursor is the next stretch of the queue |
| `ActiveTasks.ActiveTaskIds` | internal/upstream/tk2sd/active_tasks.go:11-63 | success gives exactly the announced number of distinct ids with no page more than needed; failure means a page was refused, never that pages ran out |
| `ActiveTasks.AddPage` | internal/upstream/tk2sd/active_tasks.go:51-57 | a page is taken in exactly when all its ids are valid, running and new |

## Left out

- HTTP handlers, manager pages, callbacks, logging, configuration, migrations: plumbing without protocol state.
- Network clients: their answers are arbitrary data in the steps.
- Media: downloading, probing, uploading of inputs, the byte stream reader, size and ratio checks; only the structural checks of a stored request are modelled.
- Timestamps and retry delays beyond lease expiry and due times; the clock is arbitrary at each step, also running backwards.
- Error texts and codes, except where a property speaks of them.
- The legacy Gradio worker and the binding of legacy tasks to routes.
- Physical purging of tasks by an administrator; deletion here marks a task.
- Artifact locations and migration between nodes; registering an output may fail on its location, which is a flag in the step.
- Renewing the lease of a deletion item.
- The deletion state shown on a task (pending, partial, failed, deleted) beside the job's own status.
- Sorting of the per-node cleanup summary by node id.
- Database errors other than conflicts; a transaction either commits or is rolled back, except `BindStageExecution`, whose earlier updates survive as in the code.
- Idempotent execution on an H3 node: what the node does with a repeated operation id is not modelled.
- Scans.NextTask, Scans.NextStage: eligibility of a row is a parameter; the database is represented by its rows in queue order.
- Resolver.Resolve: the tk2sd normaliser is the one modelled here; those of the other protocols are a parameter, cut down to what the capability accepts.
- NodeSlots.Store.UpdateNode: guards on retained results and on the catalogue are one flag.
- Normalizer.Normalize: address syntax, blankness and model id syntax are parameters.
