# The durable case protocol, verified

A Dafny model of how a loan application travels through FinAssist, and proofs about it.

The first core is the **case protocol**: the `Application` state machine, the transaction around every
command, the workflow that drives a case with activities that may fail, lose their acknowledgement or
arrive late, and the loop outbox - relay - broker - inbox - projection that copies the case to the read
model. The second is the **document core**: the PDF writer and the text of its pages, the regular
expressions that read facts off them, and the income check at the end.

`dafny verify dfyconfig.toml` checks everything.

## How it is laid out

| layer | modules |
|---|---|
| the aggregate and its table | `CaseStatus`, `Applications` (a class) |
| events, hash chain, store | `EventMapping`, `Audit`, `Store` (every command as one transaction) |
| the program's own steps | `UnitOfWork` (a class), `Commands` (the handlers, each proved to do what `Store.Exec` says) |
| any order of commands | `StoreInvariants`, `Coupling`, `ExactlyOnce`, `Clocks` |
| overlapping transactions | `Interleaving`, `Schedules` (position by position) |
| executions, attempts, signals, timer | `Protocol`, `ProtocolInvariants`, `ProtocolTheorems`, `Overlap` (with transactions that overlap) |
| runs that go wrong, step by step | `FailingRuns` |
| the workflow as it runs | `Workflow` (activities under their retry policy, the class `ApplicationWorkflow`), `Naming` |
| publication and read model | `Outbox`, `Projection` (a class and the whole loop), `Consumer` |
| documents | `Pdf`, `PdfReader`, `PdfDocument`, `Regex`, `Extractor`, `Income`, `PrintedDocuments`, `PrintedFacts`, `ClassifiedDocuments`, `FactChecks` |

Four kinds of statement carry the protocol. `Store.Exec` is a command run alone; the handlers are proved
to refine it. `Interleaving.RunSteps` lets any number of transactions reserve, load, plan, record and
commit in any order against the constraints the database checks; every run is proved to be a serial one
in commit order, the audit log excepted, if and only if no upload overtakes a document gate.
`Protocol.RunWorld` puts executions on top: an event is a client command, a start, one attempt of any
activity scheduled so far, one document of an extraction pass, a signal, a wake-up, a timeout or a
failure, in any order and any number. `Overlap.RunOver` lets the transactions of those events overlap,
and every such run is proved to be one of `RunWorld`, with the same refusals.

Hypotheses that are stated, not hidden: the digest of the audit log is an uninterpreted function, and
`Audit.CollisionFree` (no two inputs share a digest, and none yields the genesis value) is a precondition
wherever it is used; event ids are drawn without repetition, in no order (`Projection.NextPipe`); application and
document ids contain no colon (`Naming.Generated`), tenant ids may.

## Where the program and its comments differ

The model follows the program.

- `save` compares versions with the row its own session loaded, so after one transition the comparison
  always passes. Concurrent writers are stopped by UNIQUE(application_id, version) at the commit:
  `Interleaving.RaceHasOneWinner`.
- The document gate counts inside its transaction, and an upload changes neither row nor version, so that
  nothing detects an upload that commits between the count and the gate's commit.
  `Schedules.GateCommitIsSerialIff`: the gate leaves what it would leave if run at its commit if and only
  if no upload of its case committed in between, and sends the case the same way if and only if no first
  upload did. `FailingRuns.GateMissesFirstDocument` is such a schedule. The protocol's gates may all be
  overtaken (`Protocol.CountedDocuments`).
- The audit checkpoint is read without a lock, and overlapping commits of one tenant fork the chain.
  `Schedules.ChainVerifiesIffSerialised`: after any interleaving a tenant's log verifies if and only if
  no commit of the tenant's events lies between the recording and the commit of another's.
  `FailingRuns.OverlappingUploadsFork` is a schedule that forks it.
- With no checkpoint row yet, a batch of two events would insert two. No run gets there:
  `StoreInvariants.NoTwoEventBatchWithoutCheckpoint`.
- The review queue's `add` is a plain insert, and the entry of an earlier review is never deleted. A case
  that comes back from NEEDS_MORE_INFORMATION can therefore not reach human review again:
  `Coupling.ReachesReviewIffNoQueueRow` says that it can if and only if it has no entry.
  `FailingRuns.ReturningCaseIsStuck` gets a case there in five commands.
- The consumer's `commit()` after one partition's batch commits every polled partition:
  `Consumer.PollLosesIff` says at which points of a poll a crash loses messages: after its first commit
  and before its last. With one batch in the poll there is no such point; `Consumer.TwoPartitionsLose` is
  the smallest poll that has one.
- A retried decision re-reads the case as it is now: `ProtocolTheorems.LateDecisionRetry` says exactly
  when that is the lost result, and `FailingRuns.LateRetryReportsAnother` is a run in which it is not. For
  the other status-returning activities it always is: `RetryReportsLostResult`.
- An income of zero counts as not extracted, being false in a condition.
- The city of a printed address may hold a comma, and then the greedy split is wrong:
  `PrintedDocuments.IdentityGivesAddressIff`. A name of two words is split in the wrong place:
  `ClassifiedDocuments.IdentityRoundTripIff`.
- The object offsets of the writer do not depend on the content, so ten digits always suffice.

## Model

| member | source | states |
|---|---|---|
| CaseStatus.BuildAllowedTransitions | src/finassist/domain/applications/status.py:83-119 | the table the loops fill from the pipeline, the escalation set and the cancellation set holds exactly the moves listed source by source |
| CaseStatus.SuccessorsAreLegal | src/finassist/domain/applications/status.py:37-81 | the three source tables together give each status exactly its listed successors |
| CaseStatus.TerminalMeansNoWayOut | src/finassist/domain/applications/status.py:32-34 | a status is declared terminal if and only if no move leaves it |
| CaseStatus.OutcomeNeedsHumanReview | src/finassist/domain/applications/status.py:98-105 | every path of legal moves from DRAFT to a review outcome passes AWAITING_HUMAN_REVIEW first |
| Applications.CreateDraft | src/finassist/domain/applications/application.py:50-87 | a draft exists if and only if the amount is positive and the term at least one month, at version 1 with one creation event pending |
| Applications.Application.TransitionTo | src/finassist/domain/applications/application.py:89-111 | moves if and only if the table allows it, one version and one event further; refused, the case is as it was |
| Applications.Application.AttachWorkflow | src/finassist/domain/applications/application.py:119-124 | sets the execution that drives the case and nothing else |
| Applications.Application.DetachWorkflow | src/finassist/domain/applications/application.py:126-128 | clears it and nothing else |
| Applications.Application.PullEvents | src/finassist/domain/applications/application.py:130-136 | hands out each pending event once |
| EventMapping.DecodeRecord | src/finassist/infrastructure/postgres/event_mapping.py:28-52 | the read side decodes from every record exactly the status and version its event was raised for, and nothing from an upload |
| Audit.TamperEvidence | src/finassist/infrastructure/postgres/audit_hash.py:14-45 | two logs that verify up to the same checkpoint hash agree on every hashed field, so no edit, insertion, deletion or reordering goes unnoticed |
| Audit.ChainIsUnforked | src/finassist/infrastructure/postgres/audit_hash.py:14-45 | in a log that verifies no two rows share a predecessor |
| Audit.TenantIsNotHashed | src/finassist/infrastructure/postgres/audit_hash.py:21-45 | the limit of that evidence: changing a row's tenant is not noticed |
| Audit.SerialAppendVerifies | src/finassist/infrastructure/postgres/unit_of_work.py:114-178 | a batch recorded against the current checkpoint keeps the log verifying, two-event batches included |
| Audit.CommitForksIffStale | src/finassist/infrastructure/postgres/unit_of_work.py:139-172 | a commit keeps the chain unforked and verifying exactly when the checkpoint it read is still current |
| StoreInvariants.CheckpointPinsOutbox | src/finassist/infrastructure/postgres/audit_hash.py:14-45 | tamper evidence reaches the outbox: two stores whose logs of a tenant verify to the same checkpoint hash have the same outbox rows of that tenant, payloads included, marks of publication aside |
| UnitOfWork.SqlUnitOfWork.ReserveIdempotencyKey | src/finassist/infrastructure/postgres/unit_of_work.py:180-197 | succeeds if and only if the key is not committed for the tenant and operation |
| UnitOfWork.SqlUnitOfWork.GetApplication | src/finassist/infrastructure/postgres/repository.py:86-92 | the case as committed, unless it is missing or another tenant's |
| UnitOfWork.SqlUnitOfWork.AddApplication | src/finassist/infrastructure/postgres/repository.py:94-100 | stages the row and its first snapshot |
| UnitOfWork.SqlUnitOfWork.SaveApplication | src/finassist/infrastructure/postgres/repository.py:102-123 | one update and one snapshot per save, refused if and only if the session's own row is not one version behind |
| UnitOfWork.SqlUnitOfWork.AddQueueEntry | src/finassist/infrastructure/postgres/review_queue_repository.py:35-48 | stages a plain insert |
| UnitOfWork.SqlUnitOfWork.MarkDecided | src/finassist/infrastructure/postgres/review_queue_repository.py:58-78 | overwrites the decision fields of an existing entry, and fails without one |
| UnitOfWork.SqlUnitOfWork.RecordDomainEvents | src/finassist/infrastructure/postgres/unit_of_work.py:114-178 | one outbox row and one chained audit row per event, in order, the second recording the first field by field, its payload among them; one checkpoint insert per event when none was there |
| UnitOfWork.SqlUnitOfWork.Commit | src/finassist/infrastructure/postgres/unit_of_work.py:91-112 | all staged writes or none, refused exactly on a constraint |
| Commands.WorkflowRunner.StartApplicationWorkflow | src/finassist/infrastructure/temporal/client.py:61-88 | a second start of the same id changes nothing |
| Commands.EnterHumanReviewIn | src/finassist/application/commands/_enter_human_review.py:24-36 | transition, save and queue entry together, or an illegal transition and nothing |
| Commands.HandleCreate | src/finassist/application/commands/create_application.py:68-114 | database and answer are those of the command as one transaction, every refusal included |
| Commands.HandleSubmit | src/finassist/application/commands/submit_application.py:57-107 | the same; and when the runner can be reached the execution the committed case is attached to has been asked for, from SUBMITTED, unless it was already, and no other; an error or an unreachable runner asks for none |
| Commands.HandleResubmit | src/finassist/application/commands/resubmit_application.py:56-107 | the same, from DOCUMENT_PROCESSING |
| Workflow.HandlerIsClientStep | src/finassist/application/commands/submit_application.py:82-107 | what the two handlers do to database and runner is the client's step of the protocol |
| Commands.HandleUpload | src/finassist/application/commands/upload_document.py:69-132 | the same: one document and one event without a version |
| Commands.HandleAdvanceIntake | src/finassist/application/commands/advance_intake_validation.py:50-107 | the same: two transitions with two saves commit together or not at all |
| Commands.HandleAdvanceDocuments | src/finassist/application/commands/advance_document_processing.py:49-91 | the same: at least one document advances the case, none escalates it |
| Commands.HandleProcessDocument | src/finassist/application/commands/process_document.py:70-126 | the same: one extraction run for a listed document |
| Commands.HandleVerify | src/finassist/application/commands/verify_application_facts.py:94-310 | the same: one verification run, no transition |
| Commands.HandleEnterReview | src/finassist/application/commands/enter_human_review.py:46-70 | the same: the keyed escalation |
| Commands.HandleDecide | src/finassist/application/commands/apply_review_decision.py:59-98 | the same: decision, detachment and queue entry together |
| StoreInvariants.ExecKeepsStore | src/finassist/infrastructure/postgres/repository.py:65-123 | every command keeps gap-free legal histories, an outbox that tells each version once, and one verifying chain per tenant |
| StoreInvariants.EveryRunKeepsStore | src/finassist/infrastructure/postgres/unit_of_work.py:114-178 | so does every run of serialised commands, refused ones among them, from the empty store; each tenant's audit rows match its outbox rows one to one in order |
| StoreInvariants.ExecOnlyAdds | src/finassist/infrastructure/postgres/repository.py:102-123 | no command removes or changes a committed snapshot or touches another case |
| StoreInvariants.NoTwoEventBatchWithoutCheckpoint | src/finassist/infrastructure/postgres/unit_of_work.py:139-172 | a tenant without a checkpoint records at most its creation event, so no second checkpoint row is ever inserted |
| StoreInvariants.TwoEventsNeedACheckpoint | src/finassist/infrastructure/postgres/unit_of_work.py:139-172 | a two-event batch is refused if and only if there is no checkpoint |
| Coupling.MoveExact | src/finassist/application/commands/apply_review_decision.py:59-98 | every case-moving command, decided without running it: the error it is refused with, or the exact case it leaves |
| Coupling.CreateExact | src/finassist/application/commands/create_application.py:68-114 | the same for creation |
| Coupling.QuietExact | src/finassist/application/commands/upload_document.py:69-132 | the same for the commands that move no case |
| Coupling.MoveAnnounces | src/finassist/infrastructure/postgres/event_mapping.py:28-52 | the outbox rows of a committed move: one for each version it adds, in order, with the status before, the status after, the version, and the reason the command brings |
| Coupling.UploadAnnounces | src/finassist/application/commands/upload_document.py:112-125 | the one outbox row of a committed upload, with the document's fields |
| Coupling.CreationAnnounces | src/finassist/application/commands/create_application.py:68-114 | the one outbox row of a committed creation |
| Coupling.ExecKeepsCoupled | src/finassist/application/commands/apply_review_decision.py:65-92 | every command keeps status, queue entry and attached workflow in step, in whatever status it finds the case |
| Coupling.EveryInterleavingIsCoupled | src/finassist/application/commands/apply_review_decision.py:65-92 | in every committed state of every interleaving: pending iff awaiting review, attached iff a workflow drives the case, decided status equal to the recorded decision, nothing at rest in INTAKE_VALIDATION |
| Coupling.StaysBackForever | src/finassist/infrastructure/postgres/review_queue_repository.py:35-48 | a resubmitted case stays in processing through every continuation |
| Coupling.ReachesReviewIffNoQueueRow | src/finassist/infrastructure/postgres/review_queue_repository.py:35-48 | a case in processing can still reach human review if and only if it has no queue entry |
| FailingRuns.ReturningCaseIsStuck | src/finassist/infrastructure/postgres/review_queue_repository.py:35-48 | create, submit, flagged intake, more information asked for, resubmit: the case is then in processing for good |
| ExactlyOnce.RetriesAreInvisible | src/finassist/infrastructure/postgres/unit_of_work.py:180-197 | a run leaves the store its committed requests alone would leave |
| ExactlyOnce.EachKeyCommitsOnce | src/finassist/infrastructure/postgres/unit_of_work.py:180-197 | the reserved keys are those of the committed requests, each reserved by exactly one |
| ExactlyOnce.RunsAreExtractions | src/finassist/application/commands/process_document.py:100-126 | the stored extraction runs of a case are exactly its committed extractions, in order |
| Clocks.ExecAlike | src/finassist/infrastructure/temporal/activities.py:88-308 | a command at another time and under other ids is refused alike or answers alike, and leaves a store alike up to times, ids and hashes |
| Clocks.NoisyRunIsCleanRun | src/finassist/infrastructure/temporal/activities.py:88-308 | any schedule of failures, retries and duplicates leaves, up to times, ids and hashes, the store of a run that sends each committed command once |
| Interleaving.CommitIsSerialAsCounted | src/finassist/infrastructure/postgres/repository.py:86-123 | a transaction that passes the constraints has, in every table but the audit log, the effect of its whole command run at the moment it commits, however long ago it read; a document gate's with the count it had read |
| Interleaving.EveryInterleavingIsSerialAsCounted | src/finassist/infrastructure/postgres/repository.py:86-123 | every interleaving ends, in every table but the audit log, where the serial run in commit order ends, each gate replaying its count |
| Schedules.GateCommitIsSerialIff | src/finassist/application/commands/advance_document_processing.py:58-79 | with the count taken anew, a gate's commit is the gate run at that moment if and only if no upload of its case committed between its count and its commit; the case goes the same way if and only if no first upload did |
| Schedules.EveryInterleavingIsSerialIff | src/finassist/application/commands/advance_document_processing.py:58-79 | an interleaving ends where the program's own commands, run one after another in commit order, would end, in every table but the audit log, if and only if no gate of it was overtaken by an upload |
| FailingRuns.GateMissesFirstDocument | src/finassist/application/commands/upload_document.py:98-125 | a schedule of five transactions in which the gate escalates a case for want of documents that has one |
| Interleaving.NoUpdateIsLost | src/finassist/infrastructure/postgres/repository.py:86-123 | every committed version survives every continuation, and versions are exactly 1 to the current one, joined by legal moves |
| Interleaving.RaceHasOneWinner | src/finassist/infrastructure/postgres/repository.py:102-123 | of two transactions that moved a case from the same version the second to commit changes nothing |
| Schedules.CommitKeepsChainIffNoneBetween | src/finassist/infrastructure/postgres/unit_of_work.py:139-172 | a commit of events keeps the tenant's chain verifying if and only if no step between its recording and its commit commits events of the tenant; otherwise the chain forks |
| Schedules.ChainVerifiesIffSerialised | src/finassist/infrastructure/postgres/unit_of_work.py:114-178 | after any interleaving of any transactions a tenant's log verifies from checkpoint to genesis if and only if no commit of the tenant's events lies between the recording and the commit of another's |
| Interleaving.AuditRowsMatchOutbox | src/finassist/infrastructure/postgres/unit_of_work.py:114-178 | in every interleaving, forked or not, a tenant's audit rows record its outbox rows one to one in order |
| Schedules.SerialisedTenantHasOneChain | src/finassist/infrastructure/postgres/unit_of_work.py:114-178 | with its commits serialised a tenant has one unforked chain from genesis to the checkpoint, matching its outbox, whatever other tenants do |
| Interleaving.OverlappingCommitsFork | src/finassist/infrastructure/postgres/unit_of_work.py:139-172 | two commits recorded against the same checkpoint fork it, in any state |
| FailingRuns.OverlappingUploadsFork | src/finassist/infrastructure/postgres/unit_of_work.py:139-172 | a schedule of a creation and two uploads after which the tenant's log has a fork and does not verify |
| ProtocolInvariants.NewNameIsFresh | src/finassist/application/commands/_workflow_id.py:14-17 | a submission or resubmission never names an execution that was named before |
| ProtocolInvariants.OutsideCommandKeeps | src/finassist/application/commands/submit_application.py:57-107 | no client command and no extraction touches a case that an execution owns |
| ProtocolInvariants.AttemptIsFit | src/finassist/infrastructure/temporal/activities.py:128-308 | an attempt in the status its activity expects commits as expected, or is refused for a reason outside the protocol and changes nothing |
| ProtocolInvariants.DuplicateAttempt | src/finassist/infrastructure/temporal/activities.py:120-146 | an attempt of a committed activity writes nothing and reports the case as it is now |
| ProtocolInvariants.NextKeepsBase | src/finassist/infrastructure/temporal/workflows.py:109-203 | every event keeps every execution where its case is, every key with the activity that reserved it, and the store in order |
| ProtocolTheorems.OnlyItsExecutionMovesACase | src/finassist/infrastructure/temporal/activities.py:128-171 | single writer: while an execution is attached, no event but its own attempts changes the case's row |
| ProtocolTheorems.RetryReportsLostResult | src/finassist/infrastructure/temporal/activities.py:139-171 | in every reachable state a retry of a committed intake, document-check or enter-review activity reports exactly the result that was lost |
| ProtocolTheorems.LateDecisionRetry | src/finassist/infrastructure/temporal/activities.py:303-308 | a retried decision reports the lost result if and only if the case has not moved since |
| FailingRuns.LateRetryReportsAnother | src/finassist/infrastructure/temporal/activities.py:303-308 | a run in which the case is resubmitted before a decision's retry, which then reports another status and version |
| ProtocolTheorems.NoAttemptIsIllegal | src/finassist/infrastructure/temporal/activities.py:128-308 | late and repeated attempts never attempt an illegal transition, each taken as one transaction |
| Overlap.OverlapIsARun | src/finassist/infrastructure/temporal/activities.py:88-308 | however the transactions of clients and activities overlap, executions, passes, results, signals and every table but the audit log are those of a run in which each transaction happens at once, when it commits |
| Overlap.OverlappingRefusals | src/finassist/infrastructure/postgres/unit_of_work.py:180-197 | an attempt in flight that raises, at its load, its plan or its commit, is refused as its command run alone at that moment would be, and never for an illegal transition, a missing case or a lost race |
| ProtocolTheorems.OutstandingCommitsIff | src/finassist/infrastructure/temporal/workflows.py:115-170 | an outstanding activity commits at its next attempt if and only if the catalog, the queue and the decision allow it |
| ProtocolTheorems.AckedAttemptAdvancesIff | src/finassist/infrastructure/temporal/workflows.py:115-203 | an acknowledged attempt takes the execution on, by the case's present status, if and only if the activity had committed or could |
| ProtocolTheorems.WaitIsInReview | src/finassist/infrastructure/temporal/workflows.py:172-177 | an execution waits for a decision only in AWAITING_HUMAN_REVIEW, attached, with a pending entry |
| ProtocolTheorems.FinishIsDecided | src/finassist/infrastructure/temporal/workflows.py:186-203 | a finished execution is detached, and its decision is the status the case took at the version it reported |
| ProtocolTheorems.OutcomesAreSignalled | src/finassist/infrastructure/temporal/workflows.py:105-107 | in every reachable store APPROVED, DECLINED and NEEDS_MORE_INFORMATION record, word for word, a decision signalled to an execution of that case, after AWAITING_HUMAN_REVIEW |
| ProtocolTheorems.TimerAloneEscalates | src/finassist/infrastructure/temporal/workflows.py:172-184 | without a signal a case can only be ESCALATED, with no reviewer id |
| ProtocolTheorems.EachDocumentExtractedOnce | src/finassist/infrastructure/temporal/activities.py:187-218 | when a pass has been through its list, every listed document has been extracted by exactly one transaction of that execution, whatever passes failed before or ran beside it |
| Workflow.Attempt | src/finassist/infrastructure/temporal/activities.py:120-171 | one attempt: the command's transaction, and on a duplicate the state re-read |
| Workflow.ExecuteActivity | src/finassist/infrastructure/temporal/workflows.py:60-72 | however attempts fail, die after committing or repeat, the store and the result are those of the one committing attempt; there is a result if and only if within five tries one that reports back finds the activity committed or able to commit, and none before has reported an unknown case or product, invalid data or an illegal transition; after such a refusal no try is made |
| Workflow.ExtractDocumentFacts | src/finassist/infrastructure/temporal/activities.py:173-218 | a pass that dies anywhere leaves a prefix of the list extracted, never less than before |
| Workflow.ExecuteExtraction | src/finassist/infrastructure/temporal/workflows.py:142-149 | after any number of failed passes an acknowledged one leaves exactly what one undisturbed pass leaves |
| Workflow.ExtractAllExact | src/finassist/infrastructure/temporal/activities.py:187-218 | extracting a list adds one run for each listed document that had none, in list order, and nothing else |
| Workflow.ApplicationWorkflow.SubmitReviewDecision | src/finassist/infrastructure/temporal/workflows.py:105-107 | the last signal wins |
| Workflow.ApplicationWorkflow.RunToReview | src/finassist/infrastructure/temporal/workflows.py:109-170 | the automated part ends in the wait for a decision, on a path of clean steps |
| Workflow.ApplicationWorkflow.Run | src/finassist/infrastructure/temporal/workflows.py:109-203 | convergence: a run that returns has taken a path on which every activity was performed by exactly one attempt, waited in review, and left the case in the decided status, detached, the decision on record; it returns whenever its surroundings allow it and the case had no queue entry |
| Workflow.StartIsReady | src/finassist/infrastructure/temporal/client.py:61-88 | in every reachable state an execution asked for and not started finds its case in the starting status and its keys unused |
| Naming.WorkflowNameInjective | src/finassist/application/commands/_workflow_id.py:14-17 | a workflow id names one version of one application of one tenant |
| Naming.KeyTextInjective | src/finassist/infrastructure/temporal/activities.py:88-91 | within one operation two keys print alike only if they are the same key |
| Naming.ColonsWouldCollide | src/finassist/application/commands/_workflow_id.py:14-17 | with a colon in an application id two cases would share a name |
| Outbox.SelectBatch | src/finassist/infrastructure/kafka/outbox_relay.py:61-68 | distinct unpublished unlocked rows of the tenant up to the limit, oldest first, and none while an older one is left |
| Outbox.RelayTenantBatch | src/finassist/infrastructure/kafka/outbox_relay.py:50-75 | every row sent and marked together; a failure half way leaves no mark and the sent prefix sent |
| Outbox.BatchDrains | src/finassist/infrastructure/kafka/outbox_relay.py:50-75 | a failure-free batch shortens its tenant's backlog by exactly the batch size, or to nothing, and no other |
| Outbox.BatchKeepsMarkedSent | src/finassist/infrastructure/kafka/outbox_relay.py:71-74 | complete or failed, a batch never marks a row that was not sent |
| Outbox.RelayOnce | src/finassist/infrastructure/kafka/outbox_relay.py:78-95 | a sweep shortens every backlog by one batch; its total is the number of rows newly marked and of messages sent |
| Outbox.Sweep | src/finassist/infrastructure/kafka/outbox_relay.py:78-95 | after n failure-free sweeps without new rows all backlogs are empty if and only if n batches cover the largest |
| Outbox.UnpublishedBacklogSize | src/finassist/infrastructure/kafka/outbox_relay.py:98-121 | counting tenant by tenant counts every unpublished row once; marked rows and backlog make up the table |
| Projection.ProjectionStore.ApplyEvent | src/finassist/infrastructure/kafka/projection_consumer.py:33-78 | a message is applied once per consumer, and moves a view only forward |
| Projection.MarkKeepsStore | src/finassist/infrastructure/kafka/outbox_relay.py:71-74 | marking a row changes nothing the audit chain or the histories rest on |
| Projection.ViewsShowCommittedStates | src/finassist/infrastructure/kafka/projection_consumer.py:33-78 | whatever crashes, repeats and reorderings, a view shows a status and version the case really committed |
| Projection.ViewNeverFalls | src/finassist/infrastructure/kafka/projection_consumer.py:70-76 | a view's version never falls |
| Projection.ViewIsCurrentIffDelivered | src/finassist/infrastructure/kafka/projection_consumer.py:33-78 | a view equals the authoritative status and version if and only if the event of the current version has been delivered at least once |
| Projection.ViewTimeIsItsEvents | src/finassist/infrastructure/kafka/projection_consumer.py:70-76 | a view's time is that of the event that announced its version |
| Projection.ShowsUnlessOlder | src/finassist/infrastructure/kafka/projection_consumer.py:60-76 | a message not seen before shows in its case's view, status, version and time, unless the view is past its version |
| Projection.AllDeliveredIsCurrent | src/finassist/infrastructure/kafka/projection_consumer.py:33-78 | once every event of a case has been delivered at least once, its view is current |
| Projection.MarkedRowsWereSent | src/finassist/infrastructure/kafka/outbox_relay.py:71-74 | in every run of commands, sends, crashes and marks, a marked row's message is in the broker's log |
| Projection.RelayIsSteps | src/finassist/infrastructure/kafka/outbox_relay.py:50-74 | what a batch of the relay leaves, complete or failed half way, is what sends followed by marks leave in the loop |
| Consumer.ConsumePoll | src/finassist/infrastructure/kafka/projection_consumer.py:103-121 | how many messages a poll has applied and which offsets it has committed, by the slot it crashes at |
| Consumer.PollLosesIff | src/finassist/infrastructure/kafka/projection_consumer.py:104-121 | new messages of a poll are lost if and only if it crashes at a slot after its first batch's commit and before its last commit |
| Consumer.TwoPartitionsLose | src/finassist/infrastructure/kafka/projection_consumer.py:104-121 | two partitions with a message each and a crash right after the first commit: the second message is lost |
| Consumer.ConsumingIsSteps | src/finassist/infrastructure/kafka/projection_consumer.py:105-114 | what a consumer applies is a run of the loop's deliveries |
| Consumer.ConsumeOnePartition | src/finassist/infrastructure/kafka/projection_consumer.py:104-121 | with one partition no message below a committed offset is ever lost, through any number of crashes and restarts |
| Pdf.ThreeReplacesAreOnePass | services/synthetic_data/documents.py:15-16 | the three replacements together escape each character by itself |
| Pdf.EscapeEncodeCommute | services/synthetic_data/documents.py:25-27 | escaping before encoding is escaping after it |
| Pdf.BuildMinimalPdf | services/synthetic_data/documents.py:19-63 | the loops write the specified file; a title beyond ASCII raises, nothing else does |
| PdfReader.ObjectFound | services/synthetic_data/documents.py:44-63 | following trailer and table of any written file leads to each whole object |
| PdfReader.TableLeadsToEveryObject | services/synthetic_data/documents.py:44-63 | for every title and all lines, `startxref` and the k-th twenty-byte entry (ISO 32000-1, 7.5.4) lead to "k 0 obj" |
| PdfReader.StreamIsRead | services/synthetic_data/documents.py:35-41 | `/Length` is exactly the number of bytes between `stream` and `endstream` |
| PdfReader.ScanUndoesEscape | services/synthetic_data/documents.py:15-27 | scanning an escaped line by ISO 32000-1, 7.3.4.2 stops at the writer's own parenthesis and gives the line, ends-of-line as line feeds |
| PdfReader.NormalEolKeeps | services/synthetic_data/documents.py:15-27 | that is the line itself if and only if it has no carriage return |
| PdfDocument.PageFound | services/synthetic_data/documents.py:29-63 | the references in a written file lead from its trailer to the catalog, the page tree of one page and the page |
| PdfDocument.WrittenFileReads | services/synthetic_data/documents.py:19-63 | the round trip: following a written file from its end by the references in it alone (ISO 32000-1, 7.5.5 and 7.7) gives its title, the font its text selects, and every line in order |
| PdfDocument.TextSurvivesIff | services/synthetic_data/documents.py:19-63 | title and lines come back unchanged if and only if the lines are Latin-1 and there is no carriage return |
| Income.YearOfMonths | src/finassist/application/commands/verify_application_facts.py:188-190 | twelve printed months are within four cents of the year, and round to it |
| Income.PrintedReads | services/synthetic_data/documents.py:73 | an amount printed with commas and two decimals reads back after the commas are removed |
| Income.IncomeRoundTrip | src/finassist/application/commands/verify_application_facts.py:188-190 | every whole-dollar income survives twelfth, printing, comma removal, multiplication and rounding |
| Regex.SearchIsInside | src/finassist/infrastructure/documents/regex_extractor.py:38-43 | every match of every pattern has its groups in order inside the text |
| Extractor.FindPage | src/finassist/infrastructure/documents/regex_extractor.py:38-43 | the first page with a match, and its leftmost one; none only if no page has one |
| Extractor.ExtractIncomeProofFacts | src/finassist/infrastructure/documents/regex_extractor.py:83-113 | the facts of a pay stub, in order, those whose pattern is absent left out |
| Extractor.ExtractIdentityFacts | src/finassist/infrastructure/documents/regex_extractor.py:115-163 | the facts of an identity document likewise |
| Extractor.FactsAreCited | src/finassist/infrastructure/documents/regex_extractor.py:46-163 | the value of every fact occurs in the text of the page it cites, for all pages |
| Extractor.FactTypesAreDistinct | src/finassist/infrastructure/documents/regex_extractor.py:83-163 | no type of fact is reported twice |
| Extractor.FactsAreTrimmed | src/finassist/infrastructure/documents/regex_extractor.py:83-163 | employer, street and city are reported without white space around them |
| PrintedDocuments.AmountIsRead | src/finassist/infrastructure/documents/regex_extractor.py:29 | a printed amount is matched whole at the first occurrence of its label |
| PrintedDocuments.PayStubGivesIncome | services/synthetic_data/documents.py:66-77 | the one gross pay fact of a printed stub stands for the very income it was printed for |
| PrintedDocuments.SplitAtStreet | src/finassist/infrastructure/documents/regex_extractor.py:34 | without a comma in the city the greedy split stops at the printed comma, whatever commas the street has |
| PrintedDocuments.SplitPastStreet | src/finassist/infrastructure/documents/regex_extractor.py:34 | with one it goes past the street |
| PrintedDocuments.IdentityGivesAddressIff | services/synthetic_data/documents.py:80-89 | street and city are read off a printed identity document exactly if and only if the city has no comma |
| ClassifiedDocuments.StubRoundTrip | services/synthetic_data/documents.py:66-77 | a printed pay stub is taken for an income proof; unless employer or name spells a label, its employer, printed amount and tenure come back, and nothing else |
| ClassifiedDocuments.IdentityRoundTripIff | services/synthetic_data/documents.py:80-89 | extractor and classification together: both names, date, street, city and id come back from a printed identity document, and nothing else, if and only if each name is one word, the city has no comma, and the address does not spell the marker of a pay stub |
| FactChecks.IdentityMatchedIff | src/finassist/application/commands/verify_application_facts.py:148-172 | an identity check matches if and only if the service passes it, the date of birth agrees and both scores reach 0.8; its confidence is the lower score |
| FactChecks.EmploymentMatchedIff | src/finassist/application/commands/verify_application_facts.py:210-233 | an employment check matches if and only if it is confirmed and its confidence is at least 0.8 |
| FactChecks.EmploymentExact | src/finassist/application/commands/verify_application_facts.py:210-233 | an employment check matches if and only if it is confirmed and off by at most a fifth; its confidence is one minus the relative deviation, cut at zero |
| FactChecks.FactByIsLast | src/finassist/application/commands/verify_application_facts.py:114-117 | of several facts of one type the last counts |
| FactChecks.HonestRangeMatchesIff | services/synthetic_data/employer.py:34-40 | every multiplier from 0.95 to 1.05 is matched if and only if the income is at least five dollars |
| FactChecks.MismatchIsContradicted | services/synthetic_data/employer.py:25-32 | every multiplier from 0.4 to 0.7 is contradicted, for every positive income |
| FactChecks.RunChecks | src/finassist/application/commands/verify_application_facts.py:119-285 | always one identity and one employment check, insufficient exactly when the facts are missing, confident when matched; which services are asked |
| FactChecks.CountsAddUp | src/finassist/application/commands/verify_application_facts.py:59-71 | the three counts of a summary add up to the checks |
| FactChecks.HonestStubMatches | src/finassist/application/commands/verify_application_facts.py:188-233 | from the printed stub of an honest employer to the verdict: the income is recovered and the check matches, for every income of at least five dollars |

## Left out

- HTTP routes, settings, wiring, telemetry, row-level security, tenant headers, object storage and secrets.
- Isolation: a transaction reads what is committed at each of its steps, and an insert of a key that another transaction holds waits for it; the other constraints are checked at its commit, where the program meets them at a flush. Either way the transaction ends with nothing written.
- Errors keep their kind, not their wording; a constraint violation is one error whatever raises it.
- One clock reading per transaction; the program reads the clock a few times within one.
- `Product.accepts`, `Money` and the applicant: the catalog's answer is an arbitrary input. An amount is a number of cents.
- `cancel`: a method of the aggregate that no command calls. The moves to CANCELLED are in the table.
- SHA-256 and canonical JSON: an uninterpreted function over the hashed fields.
- Using a unit of work outside its block, which raises.
- What a document holds between upload and extraction: the file-safety scan, storage, parsing; an extraction run is one row whether it found facts or an error.
- Protocol: retries are not counted there; an execution may fail at any moment. `Workflow` counts the five attempts.
- Protocol: a decision that is no status name at all fails the activity before any transaction and is not modelled; one that is not an outcome is.
- Workflow.ApplicationWorkflow.Run: nobody else acts on the database during a run. That others may, uploads to the same case among them, is what `Protocol` and `Overlap` are about: there each step of a run is covered one by one, and that nobody else could change the case's row.
- Store.Exec: the contradictions a verification finds are an arbitrary input of its command; `FactChecks.RunChecks` computes them, from facts and answers that are no tables here.
- Workflow.Attempt: a duplicate verification answers with the checks read back; here it answers that it is done, and the summary is the committing attempt's.
- Outbox.SelectBatch: a row's age is its event's time, one clock reading per transaction; the row's own creation time is not modelled.
- Projection.ProjectionStore.ApplyEvent: two consumers that apply events of one application at the very same time are taken one after the other.
- Consumer.ConsumePoll: the loop's stop signal and poll timeouts are the end of the list of polls.
- pypdf: printed lines are taken as the page's text. `PdfDocument` is a reader of its own, for files of one page and dictionaries of one line.
- Pdf.BuildMinimalPdf: strings are Unicode scalar values; a lone surrogate is not modelled.
- Regex.SearchIsInside: which characters beyond ASCII are digits or word characters is left open.
- ClassifiedDocuments.IdentityRoundTripIff: for fields that do not spell a label of a later line and have no white space around them, a date of ten characters, an id the pattern allows. Lower-casing is an uninterpreted function.
- ClassifiedDocuments.StubRoundTrip: for an employer without white space around it.
- Income.YearOfMonths: exact arithmetic. In double precision the product of a monthly amount and twelve is off by far less than the four cents of slack that rounding leaves, for incomes up to many billions.
- FactChecks.RunChecks: exact arithmetic for scores and deviations; the texts of declared and external values are left out.
- Mock services, fault injection and the random draws: arbitrary values in their range.
