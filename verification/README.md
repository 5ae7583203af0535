# The durable incident pipeline: model and proofs

This project models the incident pipeline under `replacement/kaims_next` as a small distributed
protocol over a transactional store, and proves what holds over every run of it. Beside it stand the
two repair executors, the message flow through the broker, and four algorithms of the repository whose
correctness does not show in one body.

## How the model is built

- `Model.dfy`: the tables, the envelopes of the outbox and the stored artifacts. A SHA-256 reference is
  the content it is the digest of, an event id is the position of its row in the append-only outbox, an
  instant is a number of microseconds that every step chooses freely (so a proof holds for any clocks,
  also ones that disagree), and the policies do not change during a run. `Invalid` stands for
  `ValueError`, `KeyError` and `TypeError`, `Unavailable` for every other exception.
- `Transactions.dfy`: each `with write_transaction` block as a function from the database to the database
  it leaves and its answer. `Store.dfy`: the same transactions as methods of a class that updates its
  tables in place, each proved equal to its function; the loops over references, outbox rows, waiting
  incidents and earlier runs are loops there too.
- `Pipeline.dfy`: runs. A handler's read phase with its connector's answer is one step, its commit a
  later one, so any other step may come between, an event may be delivered any number of times in any
  order, and a crash is a task that is never committed. A repair request and its delivery to an executor
  are steps of their own, and executors are disturbed from outside at will.
- `Invariants.dfy`, `Moves.dfy`, `IncidentSteps.dfy`, `OperatorSteps.dfy`, `AppSteps.dfy`,
  `ReleaseStep.dfy`, `Reachable.dfy`: the invariant and why every step keeps it.
- `Handlers.dfy`, `Operators.dfy`, `Requests.dfy`: each transaction of a run spelled out, without its function: what a
  handler's commit, a release or an operator's step accepts in any database a run reaches, and what it writes; when a
  repair is requested, what the request carries and how it is answered. `Provenance.dfy`: which earlier steps of a run
  the facts of a resolution come from.
- `Safety.dfy`, `Repairs.dfy`, `Integrity.dfy`, `History.dfy`, `Stranding.dfy`, `Sequential.dfy`,
  `EvidenceKept.dfy`, `Entries.dfy`, `Bounds.dfy`, `Mandates.dfy`, `Wakeup.dfy`, `Expiry.dfy`: what follows for
  every run. `Headway.dfy`: the runs that get through.
  `Deliveries.dfy`, `Unaffected.dfy`: which steps record an event, and which are news to an incident.
- `Broker.dfy`: the queues and the consumer. `Conservation.dfy`: queues and runs together, where a worker's
  delivery ends by what the store answered it.
- `Executor.dfy`, `HostConnector.dfy`: the two executors. `Sampling.dfy`: the verification stage's loop.
- `Lineage.dfy`, `TraceScope.dfy`, `Retention.dfy`, `TableOrder.dfy`, `Embeddings.dfy`: the algorithms.

## What the proofs found

- A document refresh can strand an application. `refresh_documents` looks at unpublished rows only, and a
  context notification that is published but not consumed, as one is while the consumers are stopped for the
  refresh, becomes stale by it. It is never applied, but it is never recorded either, so `revise` refuses for
  ever after. `Stranding.RefreshStrandsIff` gives the exact condition (no baseline recorded at the moment of
  the refresh, or stranded before), `Stranding.RefreshCanStrand` a run of five steps. The maintenance note in
  `replacement/REPOSITORY_DOCUMENTS.md` asks to stop the consumers first and does not mention it.
- A plan that waits for an operator and expires blocks its application for good. `approve` refuses it from then
  on, `reinvestigate` refuses the state, and `revise` and `refresh_documents` count the wait as active
  (`Expiry.ExpiredPlanParks`). Every policy without a mandate has a run that gets there
  (`Headway.ParkingReachable`). A mandate is the one way out (`Expiry.LeavesIff`): it means a live authorization
  event (`Mandates.OneLiveAuthorization`), whose failure ends the wait.
- The scope of a trace is the full closure for a hundred spans or fewer; beyond, a long chain of calls is cut
  after a hundred hops (`TraceScope.LongChainIsCut`, `TraceScope.CompleteIff`), also in traces that the decoder
  accepts (`TraceScope.DecodedChainIsCut`).
- The retention script keeps every parent of a protected snapshot exactly for tables whose parent ids are
  spelled canonically (`Retention.ParentsKeptIff`), where strings are compared exactly.
- The host connector's diagnostic names an acknowledged action only while no action recorded later is
  acknowledged too (`HostConnector.NamedWhileLatest`).

## Model

| member | source | states |
|---|---|---|
| Reachable.RunInv | replacement/kaims_next/incidents.py:59-253 | every world any run reaches satisfies the invariant: events, rows, baselines, approvals, tasks in flight, repair requests and executors' tables agree |
| Safety.OneLiveEvent | replacement/kaims_next/incidents.py:176-196 | an incident has a live stage event if and only if it is in a queued state; there is one, of the matching topic, carrying what the row expects |
| Mandates.OneLiveAuthorization | replacement/kaims_next/resolution.py:137-139 | while an incident waits for a decision exactly one authorization event of it is live, naming its result, if the policy of its plan gives a mandate, and none if it does not |
| Safety.OnePendingOutcome | replacement/kaims_next/handoff.py:94-127 | an application lacks a baseline if and only if an event of its present version is pending; there is one, its topic fits the state, and a baseline agrees with the state |
| Safety.NoLostWakeup | replacement/kaims_next/incidents.py:66-82 | while an incident waits for context, its application has no baseline and an event that leads to its release is pending |
| Safety.ReleaseWakesAll | replacement/kaims_next/incidents.py:149-174 | an applied release meets no earlier baseline, records its own, leaves no incident of the application waiting, and each one released to collection has a live request |
| Wakeup.WaitCanEnd | replacement/kaims_next/incidents.py:149-174 | from every world of a run in which an incident waits for context, at most three steps of workers alone release it |
| Wakeup.WaitCanSucceed | replacement/kaims_next/workers.py:16-43 | where the pending event is the discovery's, a ready notification, or names a manifest with a source, a document and every required source collected, at most five steps of workers bring the waiting incident to collection |
| Wakeup.WaitSucceedsIff | replacement/kaims_next/incidents.py:149-174 | without another round started by an operator a waiting incident comes to collection in some continuation exactly if the pending event is the discovery's, a ready notification, or carries a manifest with a source, a document and every required source collected |
| Safety.StageNeverWedged | replacement/kaims_next/incidents.py:207-244 | in any reachable state the checks of a handler pass for exactly the live events of queued incidents, and what it computes from such an event fails only for its connector's answer: exactly if that is not of the stage's kind, not fresh or not the recovery asked for |
| Safety.CommitNeverWedged | replacement/kaims_next/incidents.py:176-196 | the commit of such an event is applied for every answer that fits, refused as unavailable for every other, and its failure is always applied |
| Safety.OnboardingNeverWedged | replacement/kaims_next/workers.py:16-43 | the pending discovery or context event passes its reads; for every answer the commit is applied exactly if the answer is of the topic's kind, and its failure always is |
| Safety.AdmissionAcceptedIffCurrent | replacement/kaims_next/incidents.py:149-165 | a context notification is accepted exactly while it is live and of the present version; a stale one is refused as invalid |
| Safety.DecisionAcceptedIff | replacement/kaims_next/resolution.py:77-106 | a decision is accepted exactly on the plan the incident awaits one for, before the plan expires |
| Safety.AuthorizationAcceptedIff | replacement/kaims_next/resolution.py:108-145 | the authorization handler, its own checks and `approve` together, answers: nothing to do for a recorded event, invalid if the incident no longer waits, applied if neither the plan nor the policy's mandate has expired, and unavailable otherwise |
| Repairs.AtMostOneRepair | replacement/kaims_next/resolution.py:146-163 | over every run, with any redelivery, interleaving and crash, all executors together record at most one repair for one incident |
| Repairs.RequestsAgree | replacement/kaims_next/resolution.py:151-156 | every repair request for one incident carries the same key, body and address; what these are is `Requests.DiagnosedIsAnswered` |
| Repairs.NeverConflicts | replacement/kaims_next/validation_target.py:43-45 | no executor ever answers a request of the pipeline with an idempotency conflict |
| Repairs.OneExecutionEvent | replacement/kaims_next/resolution.py:77-106 | at most one execution event exists per incident |
| Repairs.ApprovalAwaitedOnce | replacement/kaims_next/resolution.py:77-106 | the wait for approval is entered once; the plan never changes after it and a final state is final |
| Repairs.EffectsNeverDisowned | replacement/kaims_next/resolution.py:151-183 | once an executor acted for an incident, the incident is in execution or past it for ever after, and a failure is marked uncertain or names the action |
| Repairs.RejectedHasNoEffect | replacement/kaims_next/resolution.py:103-105 | no executor ever acts for a rejected incident |
| Provenance.RecoveryJustified | replacement/kaims_next/resolution.py:164-175 | a recovered incident has an approval bound to its plan, a plan made on a fresh failing diagnostic under the configured policy, a record of exactly its action at the executor, a delivery of its request that was answered with a receipt, and two healthy samples told to the handler in order, each recent when taken, that name the action and are not from before that receipt |
| Provenance.AcknowledgedByReceipt | replacement/kaims_next/resolution.py:157-163 | the time of acknowledgement a row holds is that of a delivery of exactly its action's request that the executor answered with a receipt |
| Provenance.PlanFromDiagnostic | replacement/kaims_next/resolution.py:122-130 | the diagnostic and the time in a plan are those a step of the run told the planning handler |
| Requests.RequestedIffTimely | replacement/kaims_next/resolution.py:146-158 | the execution handler of a live event makes a request exactly while the plan, and the mandate if the approval rests on it, have not expired; it carries the plan's key, the policy's address and action, and the revision the diagnostic showed |
| Requests.RequestIsTimely | replacement/kaims_next/resolution.py:146-158 | a request that is new after a step was made for a live execution event of an approved plan, before plan and mandate expired |
| Requests.EveryRequestWasTimely | replacement/kaims_next/resolution.py:151-158 | every request of a run was made by a step at which plan and mandate were in force |
| Requests.DiagnosedIsAnswered | replacement/kaims_next/resolution.py:122-161 | from a diagnostic to its receipt: an incident planned on a sample asks the policy's executor for the policy's action at the revision the sample showed, and an executor of that service and action gives a receipt exactly if it is still faulty at that revision or carried the action out before |
| Requests.DeliverExactly | replacement/kaims_next/resolution.py:157-163 | delivering a request repairs exactly on the expected fault, repeats a recorded action's receipt, and leaves an acknowledgement with its time exactly for a receipt |
| Handlers.CollectionStores | replacement/kaims_next/incidents.py:217-235 | everything gathered is stored under the incident and its baseline, and analysed next; only when nothing was found is the evidence before kept |
| Handlers.AnalysisStores | replacement/kaims_next/incidents.py:236-244 | the assessment rests on the evidence of the row, and planning follows exactly where a policy is configured |
| Handlers.PlanningDecides | replacement/kaims_next/resolution.py:122-139 | for every diagnostic: a stale one plans nothing, a failing one of the policy's code makes a plan on exactly that diagnostic for ten minutes, any other is stored as the reason for none |
| Handlers.ExecutionStores | replacement/kaims_next/resolution.py:156-163 | a receipt is stored with the action it acknowledges and the time it came |
| Handlers.VerificationDecides | replacement/kaims_next/resolution.py:164-175 | two samples recover the incident exactly if both are recent, healthy, name the action, are not from before the acknowledgement and are in order; others are refused |
| Handlers.FailureStores | replacement/kaims_next/resolution.py:177-183 | the failure of a stage ends the investigation: with its reason early on, with the resolution kept, the stage named and only an execution uncertain later |
| Handlers.AuthorizationFailureStores | replacement/kaims_next/resolution.py:177-183 | an authorization that fails ends the wait it was asked for, and nothing else |
| Handlers.RepeatedCommit | replacement/kaims_next/handoff.py:103-106 | a commit for an event handled before writes nothing and is no fault |
| Handlers.ReadLeavesTask | replacement/kaims_next/incidents.py:207-244 | a handler gets as far as its commit exactly if that would be applied at once |
| Handlers.AuthorizationReadLeaves | replacement/kaims_next/resolution.py:108-144 | authorization is asked for exactly while its event is live and its incident waits |
| Handlers.DiscoveryStores | replacement/kaims_next/workers.py:25-28 | a discovery stores its manifest and asks for the context at the next version; a failed one blocks the context |
| Handlers.ContextDecides | replacement/kaims_next/discovery.py:96-104 | a context is announced as ready exactly if its manifest names a source and a document and every required source was collected, and as blocked otherwise or when its worker fails |
| Handlers.ReadyIsFullyCollected | replacement/kaims_next/discovery.py:96-104 | every ready context stored in a run, and so every ready baseline, was made from such a manifest, which is stored too |
| Handlers.ReleaseStores | replacement/kaims_next/incidents.py:159-173 | the pending notification is accepted, records its baseline, and moves exactly the waiting incidents of its application, with one collection request each on a ready context |
| Operators.OnboardExactly | replacement/kaims_next/handoff.py:61-75 | when an onboarding is applied, a repetition or refused, and what it writes |
| Operators.AdmitExactly | replacement/kaims_next/incidents.py:59-82 | an admission is applied exactly for a sound request of a registered service under a new key, a repetition for the same request, and refused otherwise, as missing only without the application; the incident waits without a baseline, is collected on a ready one, is blocked on a blocked one |
| Operators.AdmittedIsDue | replacement/kaims_next/incidents.py:81 | what an admission on a ready context sends is the live event of its incident, naming the baseline |
| Operators.ReinvestigateExactly | replacement/kaims_next/incidents.py:84-125 | an investigation is taken up again exactly when it is over as the caller saw it, its service is registered and its context ready; the round before is logged and the next one starts from the baseline or from stored evidence |
| Operators.FallsBackWhenSparse | replacement/kaims_next/incidents.py:97-119 | a reanalysis rests on the assessment's own evidence unless that has no trace and a source without matches, and then on the evidence of the latest earlier round with records, if any |
| Operators.ReviseExactly | replacement/kaims_next/registration.py:16-55 | a revision is applied exactly to the version it names, with another registration, while no incident is under way and every event of the application is handled; it starts the next version without a baseline and logs both registrations |
| Operators.RefreshExactly | replacement/kaims_next/maintenance.py:8-31 | a refresh is applied exactly while nothing but waits is under way and every event of the application and its incidents is published |
| Operators.DecideExactly | replacement/kaims_next/resolution.py:77-106 | an operator's decision is applied exactly on the plan awaited and in time, stored as the operator's, and an approval requests the execution; the same decision again changes nothing |
| Operators.AuthorizationExactly | replacement/kaims_next/resolution.py:77-106 | an approval under a mandate is applied exactly on a live event of a waiting incident before plan and mandate expire, is stored as the policy's and consumes the event |
| Headway.ExecutionOn | replacement/kaims_next/resolution.py:151-163 | from any reachable approved incident whose executor has not acted yet four steps lead to verification |
| Headway.VerificationOn | replacement/kaims_next/resolution.py:164-175 | from any reachable incident in verification two steps lead to recovery |
| Headway.RecoveryReachable | replacement/kaims_next/resolution.py:108-175 | for every incident name, service and configured policy some run from the empty store recovers the incident |
| Repairs.RepairNeedsApproval | replacement/kaims_next/resolution.py:140-150 | a repair request exists only for an incident whose plan is approved; when it may be made is `Requests.RequestedIffTimely` |
| Repairs.RunLater | replacement/kaims_next/incidents.py:84-125 | from any world of a run to any later one tables only grow, and a proposed plan stays and only moves forward |
| Entries.RunEntries | replacement/kaims_next/incidents.py:59-65 | every registration, request and approval found in any store passed the checks of its entry: names, window of at most a day, and a mandate behind a decision by policy |
| Sequential.RunIsSequential | replacement/kaims_next/handoff.py:94-127 | the database of any run is that of the sequential run of its effective steps, where each handler reads and commits at once; every other step is a stutter |
| Sequential.HandledOnce | replacement/kaims_next/incidents.py:176-196 | no event is handled by two effective steps, whatever two handlers computed from it |
| Sequential.InboxIsHandled | replacement/kaims_next/handoff.py:83-86 | every inbox entry was put there by an effective step |
| EvidenceKept.EvidenceNotErased | replacement/kaims_next/incidents.py:222-235 | from an assessment on records on, every later assessment rests on records too, however empty later collections are, unless a stage fails before it |
| EvidenceKept.RunKeepsRecords | replacement/kaims_next/incidents.py:48-57 | why: in every state of the rounds the records are in the row, in its evidence, or in the result the collection request names |
| OperatorSteps.PriorEvidenceIsLatest | replacement/kaims_next/incidents.py:106-118 | the evidence a reanalysis falls back to is that of the latest earlier round with records |
| OperatorSteps.NoPriorEvidence | replacement/kaims_next/incidents.py:106-118 | it falls back to none only if no earlier round had records |
| Integrity.EventsResolve | replacement/kaims_next/handoff.py:34-46 | what an event names stays stored in its application, and the event itself never changes |
| Integrity.ResultsResolve | replacement/kaims_next/incidents.py:187-195 | what an incident's row ever named stays stored |
| Integrity.BaselinesResolve | replacement/kaims_next/incidents.py:163-167 | what a baseline ever named stays stored, and is a context that is ready exactly if the baseline says so |
| Integrity.RerunsResolve | replacement/kaims_next/incidents.py:121-123 | what the history of reinvestigations names is stored, and its assessments were the incident's own |
| Integrity.AssessmentChainStored | replacement/kaims_next/incidents.py:234-241 | from every assessment ever stored, evidence, ready context and manifest are stored in the same application |
| Integrity.AssessedOnOwnEvidence | replacement/kaims_next/incidents.py:236-241 | an assessed incident is assessed on evidence collected for it |
| History.LogReconstructsHistory | replacement/kaims_next/registration.py:44-50 | the revision log gives back the configuration of every version the application ever had, and a version number never stands for two registrations |
| History.RevisionRecordsBoth | replacement/kaims_next/registration.py:47-50 | an applied revision never finds one of its two entries present |
| History.ActiveServiceRegistered | replacement/kaims_next/registration.py:25-29 | while an incident is active its service stays registered |
| Stranding.RefreshStrandsIff | replacement/kaims_next/maintenance.py:14-31 | a refresh strands its application exactly when no baseline is recorded, or it was stranded before |
| Stranding.RefreshCanStrand | replacement/kaims_next/maintenance.py:26-31 | five steps from an empty store are enough |
| Stranding.StrandedForever | replacement/kaims_next/registration.py:30-41 | a stranded application stays so, and no later revision of it is applied |
| Stranding.StaleIsRefused | replacement/kaims_next/incidents.py:160-162 | a stale notification is refused as invalid whenever it is delivered |
| Stranding.RevisableIff | replacement/kaims_next/registration.py:21-41 | a settled application without active incidents takes a different registration exactly when its baseline is recorded and it is not stranded |
| Expiry.ExpiredPlanParks | replacement/kaims_next/resolution.py:88-94 | while decisions on an awaited plan come after its expiry and its policy gives no mandate, nothing moves the incident, and no revision or refresh of its application is applied |
| Expiry.AuthorizationFrees | replacement/kaims_next/resolution.py:177-183 | a live authorization event ends such a wait once its handler gives up |
| Expiry.LeavesIff | replacement/kaims_next/incidents.py:84-90 | without a timely decision an incident leaves its wait in some continuation of the run exactly if the policy of its plan gives a mandate |
| Headway.ParkingReachable | replacement/kaims_next/resolution.py:125-139 | under any configured policy without a mandate some run from the empty store comes to such a wait |
| Bounds.WorkIsBounded | replacement/kaims_next/handoff.py:94-127 | over every run no more events are consumed than sent, and no more are sent than three for each onboarding, revision and refresh and six for each admission and reinvestigation |
| Bounds.DeliveriesEnd | replacement/kaims_next/incidents.py:176-196 | every delivery that takes effect strictly lowers what is left to do, which is never negative |
| Conservation.EventsConserved | replacement/kaims_next/consumer.py:12-35 | at any moment every event is unpublished, or on a copy in some queue or hand that no acknowledgement is about to remove, or recorded, or about a plan decided already; the workers' verdicts are the store's answers |
| Conservation.AttemptsBounded | replacement/kaims_next/consumer.py:26-33 | attempt counts never exceed the maximum, and what is put aside after the last attempt is recorded in the inbox |
| Conservation.ReturnMeansHandled | replacement/kaims_next/consumer.py:21 | a worker that ends without an exception leaves its event recorded, or it asked for a plan decided before; a commit, a release or a stored failure always leaves it recorded |
| Broker.StageConsumer.Handle | replacement/kaims_next/consumer.py:12-35 | one delivery: retry, quarantine after the failure is stored, acknowledgement last, or handed back when storing or passing on fails |
| Broker.TreatmentExactly | replacement/kaims_next/consumer.py:12-35 | for every ending of a delivery: whether it is gone or back as it was, whether a copy went to retry with the next attempt or was buried as invalid or exhausted, and that no other message changed |
| Broker.StageConsumer.Relay | replacement/kaims_next/rabbitmq.py:44-50 | a retried message goes back to its queue as a copy before it is acknowledged |
| Broker.RelayExactly | replacement/kaims_next/rabbitmq.py:44-50 | a replayed message is back for the same event and attempt, in both queues until its acknowledgement, and no other message changed |
| Broker.StageConsumer.Send | replacement/kaims_next/rabbitmq.py:52-58 | a transfer adds a copy under a fresh tag and leaves every other message |
| Conservation.SystemRunOk | replacement/kaims_next/runtime.py:106-133 | the queues' invariant over every run of dispatchers, workers, consumers, relays and crashes around the store |
| Conservation.DeliveryIsTreatment | replacement/kaims_next/consumer.py:12-35 | a delivery nothing interferes with leaves the queues as `StageConsumer.Handle` does for the verdict that the store's answer gives, storing the failure exactly if the store accepts it |
| Store.Store.Onboard | replacement/kaims_next/handoff.py:61-75 | the tables and the answer are those of the transaction's function, which `Operators.OnboardExactly` spells out |
| Store.Store.CompleteApp | replacement/kaims_next/handoff.py:94-127 | the tables and the answer are those of the transaction's function, which `Handlers.dfy` spells out stage by stage |
| Store.Store.Dispatch | replacement/kaims_next/handoff.py:129-137 | the batch is the oldest unpublished rows, and exactly the rows confirmed before the first refusal are marked |
| Store.ConfirmedPrefix | replacement/kaims_next/handoff.py:129-137 | a dispatch ends exactly before the first row the broker refuses |
| Store.UnpublishedRows | replacement/kaims_next/handoff.py:131-132 | a batch holds at most the limit, unpublished rows only, oldest first |
| Store.Store.Revise | replacement/kaims_next/registration.py:16-55 | the tables and the answer are those of the transaction's function, which `Operators.ReviseExactly` spells out |
| Store.Store.Refresh | replacement/kaims_next/maintenance.py:8-31 | the tables and the answer are those of the transaction's function, which `Operators.RefreshExactly` spells out |
| Store.Store.Admit | replacement/kaims_next/incidents.py:59-82 | the tables and the answer are those of the transaction's function, which `Operators.AdmitExactly` spells out |
| Store.Store.Reinvestigate | replacement/kaims_next/incidents.py:84-125 | the tables and the answer are those of the transaction's function, which `Operators.ReinvestigateExactly` spells out |
| Store.Store.LatestUsable | replacement/kaims_next/incidents.py:106-118 | the loop over earlier runs finds what the function describes |
| Store.Store.Complete | replacement/kaims_next/incidents.py:176-196 | the tables and the answer are those of the transaction's function, which `Handlers.dfy` spells out stage by stage |
| Store.Store.MoveWaiting | replacement/kaims_next/incidents.py:168-172 | the loop releases every waiting incident of the application once, in some order, with one request each |
| Store.Store.CheckRelease | replacement/kaims_next/incidents.py:149-165 | the checks of a release, one by one, give the answer of the transaction's function |
| Store.Store.Release | replacement/kaims_next/incidents.py:149-174 | the tables and the answer are those of the transaction's function for the order the loop took, which `Handlers.ReleaseStores` spells out |
| Store.Store.Decide | replacement/kaims_next/resolution.py:77-106 | the tables and the answer are those of the transaction's function, which `Operators.DecideExactly` spells out |
| Sampling.Sample | replacement/kaims_next/resolution.py:164-172 | sampling succeeds exactly if both answers are fresh, healthy, name the action and are in order of time, and gives these two |
| Sampling.Verify | replacement/kaims_next/resolution.py:164-175 | the verification stage commits what its result function describes |
| Executor.ValidationTarget.DoPost | replacement/kaims_next/validation_target.py:30-51 | the target and the answer are those of the repair function |
| Executor.RepairExactly | replacement/kaims_next/validation_target.py:30-51 | which of its four answers a request gets, by the table and the fault alone, and that only a new one on the expected fault changes anything |
| Sampling.DiagnosticConfirmsRepair | replacement/kaims_next/resolution.py:167-169 | after any requests and faults, a sample of the validation target passes as the recovery of an action exactly if the target was repaired under that action's key and no fault has come since |
| Executor.HealthyIffRepaired | replacement/kaims_next/validation_target.py:46-50 | a target that was faulty shows health and a key as its last action exactly if it was repaired under that key and no fault has come since |
| Executor.ValidationTarget.Diagnostic | replacement/kaims_next/validation_target.py:22-23 | after any requests and faults the diagnostic is healthy and names a key exactly if the target was repaired under that key and no fault has come since |
| Executor.TargetKeepsBooks | replacement/kaims_next/validation_target.py:39-50 | after any requests and faults each key is recorded once, each record is one revision made at the revision it expected, and the last one is the last action |
| Executor.ReceiptRepeats | replacement/kaims_next/validation_target.py:42-45 | a receipt is the answer to its request for ever after, and repeating the request changes nothing |
| HostConnector.Connector.DoPost | replacement/host_recovery_connector.py:44-73 | one request is the sequence of its steps cut where it fails; each refusal is given exactly for its reason and changes nothing, a receipt only for a recorded action with that body and a running container, and the container is started once at most |
| HostConnector.HostForgetsNothing | replacement/host_recovery_connector.py:55-72 | over any requests, crashes and interference no key is recorded twice or under two bodies, no receipt is taken back, and no start follows a receipt |
| HostConnector.StartsAreCounted | replacement/host_recovery_connector.py:67-69 | a row never shows fewer start calls than starts were made for it, whatever the crashes |
| HostConnector.StartsBalance | replacement/host_recovery_connector.py:67-69 | starts by the connector and by others balance with the stops |
| HostConnector.OneStartWithoutStops | replacement/host_recovery_connector.py:60-69 | while nobody stops the container the connector starts it at most once for all keys together |
| HostConnector.StartedOncePerDeath | replacement/host_recovery_connector.py:60-72 | however often the container is stopped, a key is started at most once more than the connector died between a start for it and its receipt, and never again after the receipt |
| HostConnector.ReceiptMeansRunning | replacement/host_recovery_connector.py:67-72 | unless somebody stopped it, the container runs once a receipt was written |
| HostConnector.NamedWhileLatest | replacement/host_recovery_connector.py:29-32 | a diagnostic names an acknowledged action exactly while none recorded after it is acknowledged |
| Lineage.Ancestry.ValidLineage | replacement/kaims_next/telemetry.py:176-188 | the memoised check is exact whatever was asked before, and leaves a cache that is |
| Lineage.Relate | replacement/kaims_next/telemetry.py:190-200 | for one span its relationship if it is related, else none |
| Lineage.Relationships | replacement/kaims_next/telemetry.py:173-200 | the relationships emitted are those of the valid, unambiguous, time-ordered pairs, in the order of the spans |
| Lineage.EmittedExactly | replacement/kaims_next/telemetry.py:189-200 | exactly as many relationships as there are related spans, each naming its parent's and its child's evidence and failed exactly if both spans did, and none else |
| Lineage.RelationshipsFormForest | replacement/kaims_next/telemetry.py:189-200 | relationships have one parent per child, no way back, and never run backwards in time |
| Lineage.SelfParentNeverFires | replacement/kaims_next/telemetry.py:195 | the self-parent check never fires after a valid lineage |
| TraceScope.Reachable | replacement/kaims_next/jaeger.py:47-52 | the loop yields exactly the ids within min(n, 100) child references of the service, and the least closed set for a hundred spans or fewer |
| TraceScope.WithinIsReach | replacement/kaims_next/jaeger.py:48-52 | growing in rounds finds exactly the ends of descents of that length |
| TraceScope.CompleteIff | replacement/kaims_next/jaeger.py:49-52 | the scope is the whole closure exactly if nothing lies beyond the hundredth hop |
| TraceScope.LongChainIsCut | replacement/kaims_next/jaeger.py:48-52 | in every trace that is one chain of calls from the service through dependencies all spans descend from the service, and the scope holds exactly those up to the hundredth hop |
| TraceScope.DecodedChainIsCut | replacement/kaims_next/jaeger.py:18-21 | under every valid trace id and at every length from a hundred and two spans to two thousand there is such a trace with valid identities throughout, whose last span is left out |
| Retention.ProtectedSnapshots | scripts/retain_recent_incidents.py:128-137 | the loop ends with the closure of its seeds |
| Retention.ClosureIsClosed | scripts/retain_recent_incidents.py:128-137 | every parent found for a protected snapshot is protected, under some spelling |
| Retention.ClosureIsLeast | scripts/retain_recent_incidents.py:128-137 | any set with the seeds and all parents found for it holds the closure |
| Retention.ParentsKeptIff | scripts/retain_recent_incidents.py:138-140 | whatever the seeds, no parent of a protected snapshot is deletable: exactly for tables whose parent ids are spelled canonically |
| Retention.MisspelledParentIsLost | scripts/retain_recent_incidents.py:134-140 | for any parent spelled otherwise, two seeds with which it is lost |
| TableOrder.DeleteOrder | scripts/retain_recent_incidents.py:191-200 | an order with each table once and before the tables it refers to, or an error exactly if two or more tables refer to each other in a circle |
| TableOrder.WalkBack | scripts/retain_recent_incidents.py:194-198 | tables that all block each other contain a circle |
| Embeddings.CachedEmbedder.Embed | ai-workbench/src/ai_workbench_common/embeddings.py:325-356 | one fitting vector for each text in order, cached ones as they were, the cache extended by exactly the texts, each missing position asked for once, in order, in batches within the limit; an error only if an embedder returns the wrong number |
| Embeddings.CachedEmbedder.Keep | ai-workbench/src/ai_workbench_common/embeddings.py:352-354 | a batch's vectors go to their own positions and texts |
| Embeddings.CachedEmbedder.EmbedMapped | ai-workbench/src/ai_workbench_common/embeddings.py:325-356 | over pointwise embedders, from any cache of their vectors, the answer is the plain map and the cache stays one of their vectors |
| Embeddings.CachedEmbedder.EmbedEither | ai-workbench/src/ai_workbench_common/embeddings.py:346-351 | when batches may fail, each position is its own text's cached vector, whatever that is, or its remote or fallback one, and the cache keeps what it had |

## Left out

- HTTP, RabbitMQ, SQL and Docker calls, routes and authentication: only their effect is modelled, as an atomic transaction, a confirmed transfer, or an answer that may be anything or fail.
- JSON, SHA-256, UUID and timestamp parsing, `schema_version`, `created_at`, correlation ids and the 16 KiB limit: references are contents, ids are positions, instants are numbers; digests are taken as injective, and so is the digest of the container's run state (a counter), which the connector truncates to 48 bits.
- Policy reloads and code upgrades during a run; a policy key is the triple it is joined from (the constructor admits only keys of three parts).
- The handlers rebuild their result in place; here what they compute is a function of the event and the answer, and only the verification loop is a method (`Sampling.Sample`).
- The text an assessment holds (summaries, next checks, impact), and `latency.py`, `overview.py`, `alert_inbox.py`, `feedback.py`, `governance.py`: presentation or plain inserts.
- The collector, the diagnostic and the document walk return anything in their types; whether `collected` means every eligible file was read is not claimed.
- The authorization handler reads in one step and calls `approve` in a later one, as the other handlers read and commit; between its reads of the row, the application and the policy nothing comes, as in every read phase here.
- A document refresh may happen at any step of a run here, although its documentation asks to stop the consumers first; the proofs do not rest on that.
- The collection handler loads the last result only when it found no records; here its presence is required in every case, which decides nothing because a named result is always stored.
- The authorization worker's event may stay unrecorded when its plan is decided otherwise; `Safety.OneLiveEvent` speaks of the other five topics, and `Mandates.OneLiveAuthorization` of this one while the plan is awaited.
- The order of reinvestigations is the order they were logged in; the source sorts by `requested_at`, which agrees while the clock does not run backwards.
- The order of a dispatch batch is the order rows were written; the source sorts by `created_at` and event id.
- Store.Store.Release: takes the waiting rows in an unspecified order and returns it, because the query has none.
- Repairs.AtMostOneRepair: speaks of executors that record an action in the transaction that carries it out, like the validation target; the host connector's weaker guarantees are stated on their own.
- Safety.StageNeverWedged: a connector may never give an answer that fits, so no event is promised to succeed; `Headway.dfy` says which answers would do.
- Conservation.EventsConserved: messages put aside as invalid or exhausted stay where they are; draining the dead queue is an operator's act outside the model.
- Retention.ParentsKeptIff: compares strings exactly, where the database's collation may ignore case.
- Retention.ClosureIsClosed: is about ids found by the script's queries; which rows belong to old incidents, the alerts kept and the deletion in batches are not modelled.
- TableOrder.DeleteOrder: the lexicographic order within a round is computed but not promised by the contract.
- Embeddings.CachedEmbedder.Embed: logging, retries of one request and the clipping of long texts belong to the callers and are not modelled; a vector is a list of reals.
- Fault Lab, probes, audit scripts, data generators, frontend configuration and `backend/src`: input and output plumbing.
