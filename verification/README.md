# Engineering platform: verified core

A Dafny model of the parts of the engineering platform whose correctness spans several steps or several
records, with proofs. Each module group can be read on its own.

- **Action ledger** (`Action*.dfy`). Reservations of external effects, the in-memory repository, the `Execute` and
  `Reconcile` protocol as a step system with any number of calls in flight, and the service as straight-line code.
  Any call may stop for ever between two steps; any storage call may fail, lose its acknowledgement or be cancelled;
  provider replies are arbitrary; Recovery may move a PLANNED row to ABANDONED_RECONCILED. `ActionOutcome` states the
  outcome of a call in terms of the request and the replies alone.
- **Work flow** (`Work*.dfy`). Work item, frozen plan and contract, run, delivery, evidence, verification, review and
  closure. Handlers are programs of single store reads and one final write checked by version. The main results are
  that every handler is atomic under every interleaving, and that a closed item has its whole chain of proof exactly
  when it did not enter the store closed. `WorkProgress` gives the exact condition under which each of the ten requests
  succeeds, and the whole store after it.
- **Test-log gate** (`TestLog*.dfy`). The one-pass verifier of a test-event stream decides a declarative language.
  `TestLogStreams` says what it decides about streams written out.
- **Artifact archive** (`Ustar*.dfy`, `Artifact*.dfy`). The canonical ustar encoding (IEEE Std 1003.1, the "ustar
  Interchange Format" of the pax utility), its literal byte positions (`UstarLayout.dfy`, `ArtifactLayout.dfy`), the
  verifying walk, packing and restoring.
- **Response guard** (`Response*.dfy`). Member selection over all embedding paths and the alias walk over a token stream
  (the grammar of sections 2, 4 and 5 of RFC 8259). `ResponseMeaning` reads both off the declarations, type by type.
- **Context bundles** (`Bundle*.dfy`). Concurrent publication, the byte budget, and the verifier.
- **Audit journal** (`AuditJournal.dfy`), **release switch** (`ReleaseSwitch.dfy`) and **delivery subject**
  (`DeliverySubject.dfy`).

Conventions. Go values that are copied are datatypes; objects whose methods update fields are classes; a lock makes a
method one atomic step. Digests are injective where a statement needs it: either a datatype constructor around the
content, or a function parameter with injectivity as a stated premise. Time, cancellation, provider and resolver
replies, authorization and failing system calls are parameters chosen freely by the surroundings. Versions, epochs and
sizes are unbounded.

`dafny verify dfyconfig.toml` checks the whole project.

Where code and documentation differ, the model follows the code: the create-work handler keeps a state the caller
supplies, so the promise that a closed item was reviewed holds exactly for items that did not enter as CLOSED.

## Model

| member | source | states |
|---|---|---|
| `ActionLedger.ReservationIsAllButTheMutableColumns` | internal/action/ledger.go:92-98 | Two rows are the same reservation exactly when they differ in nothing but state, update time, external reference and observed state |
| `ActionLedger.TransitionClimbs` | internal/action/ledger.go:67-87 | Every accepted transition strictly raises a state rank, keeps the reservation, never enters SAFE_TO_RETRY, ABANDONED_RECONCILED or PLANNED, confirms a non-OBSERVE row only from DISPATCHED; a state is final exactly when nothing leaves it |
| `ActionRepository.InsertKeepsAgreement` | internal/action/service.go:433-451 | Create-if-absent keeps rows and idempotency index in agreement; both lookups then name the new row and no other key changes its answer |
| `ActionRepository.UpdateClimbs` | internal/action/service.go:486-510 | An accepted update keeps reservation and agreement, strictly raises the rank and never leaves a final state |
| `ActionRepository.MemoryRepository.CreateContext` | internal/action/service.go:433-451 | Creates exactly when neither ID nor key is taken; otherwise reports the conflict and changes nothing |
| `ActionRepository.MemoryRepository.GetContext` | internal/action/service.go:452-466 | Returns the stored row, absence or the caller's cancellation |
| `ActionRepository.MemoryRepository.GetByIdempotencyKeyContext` | internal/action/service.go:467-485 | Returns the row the key's index entry names, absence or cancellation |
| `ActionRepository.MemoryRepository.UpdateContext` | internal/action/service.go:486-510 | Replaces the row exactly when reservation and transition table allow it, and keeps the agreement |
| `ActionSafety.EveryStepMoves` | internal/action/service.go:157-403 | Every step of every call makes one of a few moves on the ledger and the history, whatever storage, provider and cancellation do |
| `ActionSafety.EveryRunKeeps` | internal/action/service.go:157-403 | The protocol invariant holds after any interleaving of any number of Execute and Reconcile calls, abandoned calls, ambiguous writes and Recovery abandonments |
| `ActionSafety.AtMostOneDispatch` | internal/action/service.go:157-296 | The provider is asked for an effect at most once per operation ID and at most once per idempotency key, over every interleaving |
| `ActionSafety.AtMostOneReconcile` | internal/action/service.go:310-403 | Concurrent Reconcile calls reach the provider at most once per operation |
| `ActionSafety.UndispatchedRowsNeverReachedTheProvider` | internal/action/service.go:240-254 | A row stored as PLANNED or abandoned has never been handed to the provider |
| `ActionSafety.AbandonedIsNeverDispatched` | internal/action/ledger.go:18-21 | Once Recovery abandoned a reservation, no continuation of any run dispatches it |
| `ActionSafety.ConfirmationIsOriginal` | internal/action/service.go:345-402 | A CONFIRMED non-OBSERVE row was confirmed by the original dispatch itself |
| `ActionSafety.RowsAreUpdatedAtMostFourTimes` | internal/action/ledger.go:67-87 | Each row is updated at most four times; the service never stores SAFE_TO_RETRY, and a row is abandoned exactly when Recovery abandoned it |
| `ActionSafety.HeldRowsWereStored` | internal/action/service.go:405-418 | Every row version in the history was in the ledger after some prefix of the run |
| `ActionSafety.ReceiptsReportHeldRows` | internal/action/service.go:405-418 | Every receipt returned reports a row the ledger really held at some moment |
| `ActionSafety.OneOperationPerKey` | internal/action/service.go:143-182 | All receipts for one key name one operation and answer the same request up to its time |
| `ActionService.Service.Execute` | internal/action/service.go:157-296 | Whatever storage, provider and cancellation do at each point, lost writes and lost acknowledgements included, the straight-line code leaves the ledger, the answer and the provider calls of the step protocol run alone; hence the outcomes below: a confirmed reply is stored and answered as CONFIRMED with the provider's references, every other reply as UNKNOWN, and a known key is answered from its row |
| `ActionService.Service.LookUpFirst` | internal/action/service.go:160-215 | The replay answers before authorization: same digest only, never for a Recovery-only state |
| `ActionService.Service.CreateOperation` | internal/action/service.go:107-109 | The write arrives or not, and is acknowledged or not, as the surroundings choose; what arrives is the repository's create-if-absent |
| `ActionService.Service.UpdateOperation` | internal/action/service.go:116-130 | Likewise for an update |
| `ActionService.Service.GetByKey` | internal/action/service.go:110-112 | The answer of the repository, or the storage's failure |
| `ActionService.Service.GetOperation` | internal/action/service.go:113-115 | The answer of the repository, or the storage's failure |
| `ActionService.Service.ReserveAndPerform` | internal/action/service.go:216-240 | From the authorized request on: reserve, or answer from whoever reserved first |
| `ActionService.Service.AnswerFromWinner` | internal/action/service.go:220-234 | After losing the reservation, a replay answer is given only for the same request digest and never for a Recovery-only state |
| `ActionService.Service.Perform` | internal/action/service.go:239-250 | DISPATCHED is stored before the provider is called |
| `ActionService.Service.DispatchAndSettle` | internal/action/service.go:251-296 | One provider call unless the caller is cancelled before it, then settlement |
| `ActionService.Service.SettleReply` | internal/action/service.go:255-285 | The rest of a call from the reply on is that of the protocol: by ReplySettles a confirmed reply settles CONFIRMED with the provider's references, every other one UNKNOWN, a malformed one without references |
| `ActionService.Service.SettleDispatched` | internal/action/service.go:255-296 | A reply that could not be stored is reported as unresolved |
| `ActionService.Service.Reconcile` | internal/action/service.go:310-403 | Likewise for reconciliation, hence with the outcomes below: a trusted observation confirms an OBSERVE row, everything else leaves the row MANUAL |
| `ActionService.Service.ReadAndObserve` | internal/action/service.go:314-331 | Only a row found UNKNOWN goes on; a settled row is answered without the provider |
| `ActionService.Service.MarkAndObserve` | internal/action/service.go:331-345 | RECONCILING is stored before the provider is asked |
| `ActionService.Service.ObserveAndSettle` | internal/action/service.go:345-403 | One observation, then its verdict is settled |
| `ActionService.ApplyVerdict` | internal/action/service.go:358-391 | The settlement of each verdict: only an OBSERVE row is confirmed, everything unqualified goes to MANUAL without the provider's references |
| `ActionOutcome.ReplySettles` | internal/action/service.go:255-285 | Each of the four dispatch replies names the row that is settled: state, references, observed state and update time in full; the provider was called once |
| `ActionOutcome.FreshExecution` | internal/action/service.go:157-296 | A fresh key in an agreeing ledger, by how far the surroundings let the call come: row, receipt and `entered == [id]` for each reply when nothing disturbs it, and the row left behind, the error and the provider calls for a refusal, a lost acknowledgement of either write, a cancellation before the call and a lost settlement |
| `ActionOutcome.KnownIsReplayed` | internal/action/service.go:160-190 | A known key is answered from its row without touching ledger or provider: conflict for another request, denial for a Recovery-only state, its receipt otherwise |
| `ActionOutcome.TakenIsExcluded` | internal/action/service.go:216-240 | A new key for a taken operation ID, and a request without a key, change nothing and reach nobody |
| `ActionOutcome.ObservationSettles` | internal/action/service.go:358-391 | Each reconcile verdict and risk class names the row that is settled: CONFIRMED only for an OBSERVE row observed as confirmed, MANUAL otherwise, references only from a well-formed verdict |
| `ActionOutcome.UnknownReconciliation` | internal/action/service.go:314-403 | An UNKNOWN row that is reconciled ends as that row with its receipt after one provider call; row, error and calls when an acknowledgement or the settlement is lost or the caller cancels |
| `ActionOutcome.Reconciliation` | internal/action/service.go:310-403 | Any reconciliation in an agreeing ledger: the above for an UNKNOWN row, and the two refusals that touch nothing, for no such operation and for a row that is not UNKNOWN |
| `WorkModel.TransitionsClimb` | internal/core/work_state.go:7-29 | A work transition changes only the state, one rank at a time unless it cancels; exactly closed and cancelled items have none |
| `WorkModel.ChangesKeepTheRun` | internal/run/model.go:65-115 | A run change succeeds exactly for the current epoch of a run that has not ended, and never changes what the run is for (which state follows is in WorkProgress.ChangesExactly) |
| `WorkModel.SatisfiedExactlyEvidenced` | internal/verification/verification.go:173-187 | A requirement is satisfied exactly when some evidence in the list is applicable, passing, for the subject and for that requirement's ID, procedure and issuer |
| `WorkModel.EvaluationExactlyEvidenced` | internal/verification/verification.go:134-171 | The verdict is PASS when there are criteria, each named, required and evidenced requirement by requirement, and FAIL in every other case |
| `WorkInvariant.RecordsStayOk` | internal/store/memory.go:277-1062 | If the store only advances and what is new keeps its promises, every stored record keeps its promises about the records it names |
| `WorkInvariant.SeenStays` | internal/api/server.go:323-1238 | What a handler read earlier stays true: equal version means equal record, receipts are unchanged, a run seen completed still is that run |
| `WorkInvariant.ReadKeepsBound` | internal/api/server.go:323-1238 | A handler's locals are always exactly the records its program asked for, in order |
| `WorkCommits.TaskWrite` | internal/store/memory.go:277-352 | Freezing a task with a copy read earlier advances the store: one version, READY, a validated stored plan |
| `WorkCommits.RunWrite` | internal/store/memory.go:453-518 | Starting a run with a copy read earlier advances the store and binds the run to its work item and task |
| `WorkCommits.ChangeWrite` | internal/store/memory.go:622-649 | A run change never touches an ended run |
| `WorkCommits.CompletionWrite` | internal/store/memory.go:710-751 | Completion moves run and work together, each by one version |
| `WorkCommits.DeliveryWrite` | internal/api/server.go:856-915 | A stored delivery is of a completed run and carries the digest of exactly its subject |
| `WorkCommits.EvidenceWrite` | internal/store/memory.go:866-898 | Stored evidence matches its delivery's subject, plan requirement and artifacts |
| `WorkCommits.VerificationWrite` | internal/api/server.go:1002-1054 | A stored verdict is the evaluation of the frozen plan over stored evidence |
| `WorkCommits.ReviewWrite` | internal/store/memory.go:948-1004 | A stored review has a passing verification of its delivery, and a reviewer other than verifier and owner |
| `WorkCommits.ClosureWrite` | internal/store/memory.go:1024-1062 | A stored closure names a delivery, verification and PASS review that agree, and its work item is then closed |
| `WorkCommits.EveryWriteAdvances` | internal/api/server.go:277-1238 | Whatever a handler writes from copies read at earlier moments advances the store |
| `WorkSafety.EveryRunKeeps` | internal/api/server.go:277-1238 | The store and handler invariant holds after any interleaving of any number of handlers, with cancellations and lost acknowledgements |
| `WorkSafety.ClosedExactlyProven` | internal/api/server.go:1162-1238 | In every reachable state a CLOSED work item has a closure, completed run, delivery, PASS verification and PASS review that agree on task, run and subject, an independent reviewer and stored passing evidence for every acceptance criterion, exactly when it did not enter the store already CLOSED |
| `WorkSafety.CreatedClosedIsUnproven` | internal/api/server.go:286-291 | The caller-supplied state is kept, so an item created as CLOSED is closed with nothing behind it |
| `WorkSafety.PassMeetsCriteria` | internal/verification/verification.go:134-187 | A passing evaluation means that every acceptance criterion has stored evidence for each requirement |
| `WorkSafety.ClosureProves` | internal/api/server.go:1162-1238 | Every stored closure has the whole chain behind it |
| `WorkSafety.AtMostOneRun` | internal/api/server.go:482-510 | All runs started for one work item are the same run |
| `WorkSafety.AtMostOnePassAndClosure` | internal/api/server.go:1105-1236 | A work item has at most one PASS review and at most one closure |
| `WorkSafety.OneReviewPerVerification` | internal/store/memory.go:961-966 | A verification report is reviewed at most once |
| `WorkSafety.OnlyForward` | internal/core/work_state.go:7-29 | From any moment of any run on, work states only move forward, task and run of an executing item are fixed, completed runs and all receipts are immutable |
| `WorkAtomic.WritesAreCurrent` | internal/store/memory.go:277-1062 | A write that goes through finds every copy its handler read still current |
| `WorkAtomic.Reread` | internal/api/server.go:323-1238 | Running the handler's reads again at that moment gives the same copies |
| `WorkAtomic.EveryHandlerIsAtomic` | internal/api/server.go:277-1238 | Under every interleaving a handler changes the store exactly as if it had run alone at the moment of its write |
| `WorkServer.RequirementSatisfiedBy` | internal/verification/verification.go:173-187 | The loop finds exactly whether some evidence, at whatever place, is applicable, passing, for the subject and for the requirement |
| `WorkServer.Evaluate` | internal/verification/verification.go:134-171 | The loops answer PASS exactly when there are criteria and every requirement of every criterion is evidenced, and FAIL otherwise |
| `WorkServer.Server.HandleCreateWork` | internal/api/server.go:277-304 | Answer and store are those of the handler's program run alone |
| `WorkServer.Server.HandleCreateTask` | internal/api/server.go:323-425 | Likewise, with the frozen plan and the DRAFT to READY transition |
| `WorkServer.Server.HandleCreateRun` | internal/api/server.go:448-517 | Likewise, with run, input and the READY to EXECUTING transition in one write |
| `WorkServer.Server.MutateExecution` | internal/api/server.go:1249-1266 | Likewise for pause, resume and takeover |
| `WorkServer.Server.HandleCompleteRun` | internal/api/server.go:698-747 | Likewise, with run and work written together |
| `WorkServer.Server.HandleCreateDelivery` | internal/api/server.go:856-915 | Likewise, refusing runs that are not completed and empty deliveries |
| `WorkServer.Server.HandleCreateEvidence` | internal/api/server.go:931-984 | Likewise, refusing evidence outside the frozen plan or the delivery |
| `WorkServer.Server.GatherEvidence` | internal/api/server.go:1026-1034 | Reads the named evidence in order, or stops at the first missing item |
| `WorkServer.Server.HandleCreateVerification` | internal/api/server.go:1002-1054 | Likewise; the stored verdict is PASS exactly when the named evidence meets every requirement of the frozen plan, FAIL otherwise |
| `WorkServer.Server.StoreVerdict` | internal/api/server.go:1026-1054 | From the plan on: gather the named evidence, evaluate it, store the report |
| `WorkServer.Server.HandleCreateReview` | internal/api/server.go:1075-1144 | Likewise, with the independence checks and the VERIFYING to REVIEWING transition on PASS |
| `WorkServer.Server.HandleCreateClosure` | internal/api/server.go:1162-1238 | Likewise, with every agreement check before the REVIEWING to CLOSED transition |
| `WorkServer.Server.CloseReviewed` | internal/api/server.go:1196-1238 | The second half of a closure: completed run, reviewing work item, write |
| `WorkProgress.CreatesExactly` | internal/api/server.go:277-304 | A work item is created exactly when ID, title and owner are given and the ID is free; the store gains that item, DRAFT unless the caller states otherwise, and nothing else |
| `WorkProgress.FreezesExactly` | internal/api/server.go:323-425 | A task is frozen exactly for a DRAFT or READY item without a run, a valid plan, the next revision and an admitted contract; task, plan and the READY item with one more version are stored, and nothing else |
| `WorkProgress.StartsExactly` | internal/api/server.go:448-517 | A run starts exactly for the current task of a READY item with a free ID; the RUNNING run of epoch one and the EXECUTING item are stored, and nothing else |
| `WorkProgress.ChangesExactly` | internal/run/model.go:65-115 | Pause, resume and takeover succeed exactly at the current epoch of a run that has not ended, and store that run as PAUSED, RUNNING and HUMAN_CONTROLLED with their owner and epoch, and nothing else |
| `WorkProgress.CompletesExactly` | internal/api/server.go:698-747 | A run completes exactly at its current epoch while its item is EXECUTING under that run; the COMPLETED run and the VERIFYING item are stored, and nothing else |
| `WorkProgress.DeliversExactly` | internal/api/server.go:856-915 | A delivery is stored exactly for a completed run, a result and a free ID, with the subject of its own fields |
| `WorkProgress.RecordsExactly` | internal/api/server.go:931-984 | Evidence is stored exactly when it answers a requirement of the frozen plan by ID, procedure and issuer and cites each artifact once out of its delivery |
| `WorkProgress.MatchesExactlyRequired` | internal/verification/verification.go:87-112 | In a valid plan the first requirement of that ID decides exactly as some requirement of the plan would |
| `WorkProgress.BelongExactlyCited` | internal/verification/verification.go:114-133 | The artifact check passes exactly when the delivery's artifacts have different non-empty IDs and the evidence cites some of them, none twice |
| `WorkProgress.VerifiesExactly` | internal/api/server.go:1002-1054 | A verification is stored exactly when delivery, task, plan and every named piece of evidence are there and its ID is free, with the verdict the evidence deserves |
| `WorkProgress.ReviewsExactly` | internal/api/server.go:1075-1144 | A review is stored exactly for a passing verification of that delivery, a reviewer other than verifier and owner, a result that fits its findings, and an item in VERIFYING; a PASS moves the item to REVIEWING |
| `WorkProgress.ClosesExactly` | internal/api/server.go:1162-1238 | An item is closed exactly when delivery, verification and PASS review agree, its run is completed and it is REVIEWING; closure and CLOSED item are stored, and nothing else |
| `TestLogHistory.InvocationsExactlyFlow` | scripts/verify_publication_recovery_log.py:273-311 | One name's steps form (run (pause cont)* pass)* exactly when every step was legal and the test ended idle |
| `TestLogHistory.NestedExactlyFamilyOk` | scripts/verify_publication_recovery_log.py:275-306 | Every subtest interval lies inside one invocation of its top-level test exactly when each event passes the local family check |
| `TestLogHistory.ConformsExactlyAllOk` | scripts/verify_publication_recovery_log.py:239-314 | A stream conforms to the declarative language exactly when every event is admissible after its history and the ending is right |
| `TestLogVerifier.ZeroChildrenExactlyIdle` | scripts/verify_publication_recovery_log.py:301-302 | A top-level test's live subtest count is zero exactly when none of its subtests is live |
| `TestLogVerifier.StepKeepsTrack` | scripts/verify_publication_recovery_log.py:273-311 | An admissible step keeps the tables exact: active statuses, live subtests per root, pass counts and identities |
| `TestLogVerifier.TablesDecideStep` | scripts/verify_publication_recovery_log.py:273-311 | The table checks decide admissibility exactly |
| `TestLogVerifier.HandleRun` | scripts/verify_publication_recovery_log.py:273-287 | Accepts a run event exactly when it is admissible, and keeps the tables exact |
| `TestLogVerifier.HandleToggle` | scripts/verify_publication_recovery_log.py:288-292 | Accepts a pause or cont event exactly when it is admissible |
| `TestLogVerifier.HandlePass` | scripts/verify_publication_recovery_log.py:298-310 | Accepts a test's pass exactly when it is admissible |
| `TestLogVerifier.HandleEvent` | scripts/verify_publication_recovery_log.py:269-312 | Accepts an event after the package start exactly when it is admissible |
| `TestLogVerifier.ReadEvent` | scripts/verify_publication_recovery_log.py:251-312 | One turn of the loop accepts exactly the admissible events |
| `TestLogVerifier.Verify` | scripts/verify_publication_recovery_log.py:239-314 | The one-pass verifier accepts a stream exactly when it conforms to the declarative language; what literal streams that decides is in TestLogStreams |
| `TestLogSpec.RootExactly` | scripts/verify_publication_recovery_log.py:276 | The root of a subtest's name is the text before its first slash, and of any other name the name itself |
| `TestLogSpec.Utf8Exactly` | scripts/verify_publication_recovery_log.py:271 | The length bound counts the bytes of each character's UTF-8 form (section 3 of RFC 3629) |
| `TestLogStreams.OneTestExactly` | scripts/verify_publication_recovery_log.py:239-314 | A package with one top-level test conforms exactly when its actions are "run", any number of "pause", "cont" pairs, and "pass" |
| `TestLogStreams.InsideExactly` | scripts/verify_publication_recovery_log.py:275-306 | A test that runs and passes while another is running conforms exactly when its name has no slash or begins with the other's name and a slash |
| `TestLogStreams.PassesExactly` | scripts/verify_publication_recovery_log.py:303-310 | Repetitions are counted by the places where exactly that test passes |
| `UstarFormat.OctalFieldRoundTrip` | internal/artifactset/archive_linux.go:24-26 | A numeric header field is read back as the number written, whatever blanks end it |
| `UstarFormat.HeaderIsOneBlock` | internal/artifactset/archive_linux.go:24-26 | The ustar fields fill exactly one 512-byte block |
| `UstarFormat.ChecksumIsRight` | internal/artifactset/archive_linux.go:24-26 | The written checksum is accepted by the reader's check; that it is the format's is in UstarLayout.HeaderLayout |
| `UstarFormat.HeaderRoundTrip` | internal/artifactset/archive_linux.go:24-35 | Every header this program writes is read back as exactly what was written |
| `UstarLayout.HeaderLayout` | internal/artifactset/archive_linux.go:24-26 | Every header at its literal byte positions: name and NULs, mode 0000600, owner and group zero, eleven octal digits of the size, time zero, six digits of the byte sum with the checksum field counted as eight blanks, type "0", "ustar" NUL "00", no link, no owner names, no device |
| `ArtifactManifest.Validate` | internal/artifactset/manifest.go:68-99 | Decides validity exactly |
| `ArtifactManifest.ValidateMembers` | internal/artifactset/manifest.go:82-98 | One pass with the last name and a running total decides order, entries and the total limit |
| `ArtifactManifest.AscendingIsStrict` | internal/artifactset/manifest.go:82-98 | No two members of a valid manifest share a name |
| `ArtifactManifest.TarSize` | internal/artifactset/manifest.go:124-130 | Computes the size formula over all members |
| `ArtifactManifest.ValidFitsArchive` | internal/artifactset/manifest.go:14-21 | No valid manifest describes an archive over MaxArchive |
| `ArtifactManifest.MembersFit` | internal/artifactset/manifest.go:14-21 | Every member of a valid manifest fits the 100-byte name and 11-digit octal size fields |
| `ArtifactManifest.ManifestFits` | internal/artifactset/manifest.go:17-18 | So does the manifest itself |
| `ArtifactArchive.ArchiveSize` | internal/artifactset/manifest.go:124-130 | For every valid manifest with its data the size formula is the length of the encoding and at most MaxArchive |
| `ArtifactArchive.EntryReadsBack` | internal/artifactset/archive_linux.go:204-275 | The reader finds an encoded member's header, bytes and successor |
| `ArtifactArchive.MembersReadBack` | internal/artifactset/archive_linux.go:246-278 | The walk over encoded members returns exactly their data |
| `ArtifactArchive.GenuineIsAccepted` | internal/artifactset/archive_linux.go:204-320 | Every canonical archive is accepted and read back as what was encoded |
| `ArtifactArchive.AcceptedExactlyCanonical` | internal/artifactset/archive_linux.go:204-320 | The walk accepts bytes exactly when they are the canonical encoding of a valid manifest for that run with the data it declares, byte for byte |
| `ArtifactArchive.ArchivesAreUnique` | internal/artifactset/archive_linux.go:204-320 | An archive determines its contents, and a manifest alone determines data and archive |
| `ArtifactLayout.ArchiveIsLaidOut` | internal/artifactset/archive_linux.go:70-120 | A canonical archive byte by byte: the manifest under "manifest.json", each member under "files/" and its ID in order, every header as above, every content padded with zeros to 512, and 1024 zeros |
| `ArtifactLayout.LayoutUnique` | internal/artifactset/archive_linux.go:204-320 | Only one sequence of bytes is laid out so |
| `ArtifactLayout.AcceptedExactlyLaidOut` | internal/artifactset/archive_linux.go:204-320 | The walk accepts exactly the bytes laid out as the archive of a valid manifest for that run and the data it declares |
| `ArtifactTransfer.MemberFileContents` | internal/artifactset/archive_linux.go:246-275 | Each restored file holds its own member's data and no file is written twice |
| `ArtifactTransfer.ReadMember` | internal/artifactset/archive_linux.go:247-274 | One member: header, bytes and digest, or refusal |
| `ArtifactTransfer.WalkOne` | internal/artifactset/archive_linux.go:246-275 | One turn accounts for the member in the walk, the second writer and the destination |
| `ArtifactTransfer.WalkEntries` | internal/artifactset/archive_linux.go:246-278 | The loop computes the walk, the canonical re-encoding and the restored files |
| `ArtifactTransfer.Admit` | internal/artifactset/archive_linux.go:204-240 | Digest, run, bounded canonical manifest and exact size are checked before any member |
| `ArtifactTransfer.Walk` | internal/artifactset/archive_linux.go:204-320 | The one-pass walk with its canonical second writer computes the specified walk; with a destination it leaves exactly the manifest and the members |
| `ArtifactTransfer.ReadRestored` | internal/artifactset/archive_linux.go:364-402 | The second reading of a restored tree passes exactly for the tree the walk wrote, manifest, every byte and no other file |
| `ArtifactTransfer.Restore` | internal/artifactset/archive_linux.go:327-414 | Succeeds exactly where the walk does, the directory calls work, the archive is the same at the second walk and nobody changed the restored tree; it leaves exactly the manifest and the declared members |
| `ArtifactTransfer.CheckPaths` | internal/artifactset/archive_linux.go:54-62 | Decides that plan, output and inputs are all different paths |
| `ArtifactTransfer.Capture` | internal/artifactset/archive_linux.go:100-120 | Writes every declared input in order, exactly when each has its declared size and digest |
| `ArtifactTransfer.Recheck` | internal/artifactset/archive_linux.go:136-149 | Decides that every input is still as declared |
| `ArtifactTransfer.Assemble` | internal/artifactset/archive_linux.go:51-153 | Writes exactly the canonical archive of manifest and inputs, exactly when paths, manifest, plan and every input are as declared before and after capture |
| `ArtifactTransfer.Publish` | internal/artifactset/archive_linux.go:154-187 | Success exactly when link and directory settle and the published bytes read back unchanged; a link without success is told apart |
| `ArtifactTransfer.Pack` | internal/artifactset/archive_linux.go:36-187 | For any plan parser: links the canonical archive exactly when the pinned plan parses and its inputs are as declared at both readings; what is linked is accepted by the walk with exactly those contents; success exactly when it is read back unchanged |
| `ArtifactTransfer.PackedIsAccepted` | internal/artifactset/archive_linux.go:150-160 | The independent readback of a packed archive never fails, and what was packed has the literal layout of ArtifactLayout |
| `ArtifactTransfer.PackedIsRestored` | internal/artifactset/archive_linux.go:36-415 | Pack, walk and restore: every declared member's file holds exactly that input's bytes, and nothing else is there but the manifest |
| `ResponseFields.FoldSummarizes` | internal/controlclient/response.go:156-166 | Recording occurrences in any order leaves, per name, a best one and whether it has a rival |
| `ResponseFields.VisitMembers` | internal/controlclient/response.go:167-213 | The depth-first traversal visits exactly the occurrences on paths that enter no struct twice, also for types that embed themselves |
| `ResponseFields.VisitOnce` | internal/controlclient/response.go:167-213 | Each of them once |
| `ResponseFields.Shorten` | internal/controlclient/response.go:172-176 | Every occurrence on a path through a cycle is beaten by one on a shorter path |
| `ResponseFields.KeptExactlySelected` | internal/controlclient/response.go:140-223 | The collector keeps a name with a type exactly when one occurrence beats all others over every embedding path |
| `ResponseTypes.TagNameExactly` | internal/controlclient/response.go:178-183 | A tag gives a name exactly when it is that valid, non-empty name, or the name followed by a comma and anything |
| `ResponseTypes.NamelessExactly` | internal/controlclient/response.go:178-183 | A tag gives no name exactly when none is valid before its first comma |
| `ResponseTypes.RoleExactly` | internal/controlclient/response.go:178-209 | What one field contributes: promoted exactly when it is embedded, without a name in its tag, a struct behind its pointers and without its own decoder; recorded as tagged exactly under the name its tag gives; recorded under its Go name exactly when its tag gives none; "-" and unexported fields nothing, but for embedded tagged structs |
| `ResponseCollector.FieldCollector.Record` | internal/controlclient/response.go:156-166 | The in-place update is the record step |
| `ResponseCollector.FieldCollector.RecordOwn` | internal/controlclient/response.go:178-209 | The first loop records a struct's own members and sets its promoted fields aside in order |
| `ResponseCollector.FieldCollector.Collect` | internal/controlclient/response.go:168-213 | The recursion over shared maps performs the traversal, leaves the visiting set as it was and ends |
| `ResponseCollector.FieldCollector.CollectPromoted` | internal/controlclient/response.go:210-212 | The second loop visits the promoted fields in order |
| `ResponseCollector.TypedFieldsExactlySelected` | internal/controlclient/response.go:140-223 | A type's table has a member with a type exactly when a unique best occurrence exists over every embedding path |
| `ResponseCollector.ResponseTypedFields` | internal/controlclient/response.go:140-223 | The imperative collector returns exactly that table |
| `ResponseMeaning.FlatTable` | internal/controlclient/response.go:140-223 | For a struct that embeds none, the table has a name with a type exactly when one field declares it and no other does so, or that one alone by its tag |
| `ResponseWalker.WalkExactlyClean` | internal/controlclient/response.go:239-323 | On the tokens of a value, wherever they stand, the walk succeeds exactly when every position is clean, and ends exactly behind the value |
| `ResponseWalker.WalkedIsAValue` | internal/controlclient/response.go:239-323 | Whatever the walk consumes is the token sequence of one value |
| `ResponseWalker.CleanExactlyCleanTree` | internal/controlclient/response.go:239-323 | The recursive tree condition is the condition on all positions |
| `ResponseWalker.AcceptsExactlyCleanValues` | internal/controlclient/response.go:227-237 | A whole stream is accepted exactly when it is the tokens of one clean value |
| `ResponseGuard.RefusedKeysAreAliases` | internal/controlclient/response.go:286-296 | The keys refused at a struct are exactly those that fold to a selected member without being one |
| `ResponseGuard.AliasWalker.FieldsOfType` | internal/controlclient/response.go:267-272 | The cache never changes the table a type has |
| `ResponseGuard.AliasWalker.CheckValue` | internal/controlclient/response.go:239-323 | The recursive walker over the stateful decoder accepts and advances exactly as the walk |
| `ResponseGuard.AliasWalker.HasAlias` | internal/controlclient/response.go:289-295 | Decides whether the table has another spelling of a key |
| `ResponseGuard.AliasWalker.CheckKey` | internal/controlclient/response.go:286-296 | Allows a key exactly by the rule and gives its member's type |
| `ResponseGuard.AliasWalker.CheckMembers` | internal/controlclient/response.go:277-304 | The object loop agrees with the walk |
| `ResponseGuard.AliasWalker.CheckItems` | internal/controlclient/response.go:305-318 | The list loop agrees with the walk |
| `ResponseGuard.RejectTypedResponseAliases` | internal/controlclient/response.go:227-237 | Accepts exactly the token streams of one clean value with nothing after it |
| `ResponseMeaning.StructClean` | internal/controlclient/response.go:265-296 | An object for a struct is clean exactly when each key is a member, whose value is clean at that member's type, or folds to no member and its value is clean without a type |
| `ResponseMeaning.MapClean` | internal/controlclient/response.go:273-304 | An object for a map is clean exactly when every value is clean at the element type, whatever the keys |
| `ResponseMeaning.SliceClean` | internal/controlclient/response.go:305-318 | A list for a slice or an array is clean exactly when every item is clean at the element type |
| `ResponseMeaning.PointerClean` | internal/controlclient/response.go:243-252 | A pointer is looked through |
| `ResponseMeaning.OpaqueClean` | internal/controlclient/response.go:243-247 | A type with its own decoder declares nothing about what is inside |
| `ResponseMeaning.LeafClean` | internal/controlclient/response.go:240-260 | A value that is neither object nor list is clean down to depth 64 |
| `BundleModel.ValidateContextRefs` | internal/core/context.go:57-72 | One pass decides that up to 64 references are valid and no type and source pair repeats |
| `BundleModel.EntryNamesDiffer` | internal/contextbundle/materializer.go:295-297 | Entries at different places have different file names |
| `BundleModel.EntryLength` | internal/contextbundle/materializer.go:54-64 | A printed manifest entry has at most 640 bytes |
| `BundleModel.ManifestFitsReadLimit` | internal/contextbundle/verify.go:44-54 | A manifest for up to 64 valid references fits the 128 KiB read limit |
| `BundleModel.EntryNameLayout` | internal/contextbundle/materializer.go:295-297 | An entry's name is its place in three decimal digits, a dash, its digest without the prefix, and ".bin" |
| `BundleModel.DecimalExactly` | internal/contextbundle/materializer.go:54-64 | A printed number consists of decimal digits, has no leading zero and is read back as the number |
| `BundleModel.BundleNames` | internal/contextbundle/materializer.go:151-170 | A bundle's name is the run input digest without its prefix, 64 characters, so bundles share a name exactly when their inputs share a digest |
| `BundleVerifier.Prepare` | internal/contextbundle/materializer.go:122-149 | Succeeds exactly for a complete input whose references are all valid, approved and authorized |
| `BundleVerifier.CompleteManifest` | internal/contextbundle/verify.go:44-75 | The manifest of a complete bundle fits the read limit and decodes to what its files hold |
| `BundleVerifier.NothingExtra` | internal/contextbundle/verify.go:73-84 | With every expected file present, the file count decides that nothing else is |
| `BundleVerifier.CompleteExactlyAccepted` | internal/contextbundle/verify.go:44-112 | A directory is a complete bundle exactly when its manifest is canonical for the input and every entry passes |
| `BundleVerifier.VerifyEntries` | internal/contextbundle/verify.go:87-110 | The loop with its running total decides the entries |
| `BundleVerifier.VerifyEntry` | internal/contextbundle/verify.go:90-109 | Decides one entry: reference, name, size, read-only file, bytes and digest |
| `BundleVerifier.Verify` | internal/contextbundle/verify.go:22-112 | Reading piece by piece accepts exactly a usable, authorized input whose bundle is there and complete, with the digest of its manifest |
| `BundleProtocol.StepTouches` | internal/contextbundle/materializer.go:151-242 | A step touches only its own stage, lock and bundle name, and never replaces a bundle |
| `BundleProtocol.FillKeeps` | internal/contextbundle/materializer.go:211-226 | Copying one more checked entry keeps the stage exact and every limit |
| `BundleProtocol.DescribedIsComplete` | internal/contextbundle/materializer.go:227-239 | A described, sealed stage is a complete bundle |
| `BundleProtocol.EveryRunKeeps` | internal/contextbundle/materializer.go:151-242 | The protocol invariant holds over any interleaving of materializations failing or stopping at any step |
| `BundleProtocol.BundlesAreComplete` | internal/contextbundle/materializer.go:151-242 | A final name is always absent or a complete, digest-checked bundle |
| `BundleProtocol.BundlesAreForever` | internal/contextbundle/materializer.go:185-190 | No published bundle is ever overwritten or removed |
| `BundleProtocol.OnePublisherPerName` | internal/contextbundle/materializer.go:174-184 | At most one call at a time is between lock and unlock of a name |
| `BundleProtocol.PublishedVerifies` | internal/contextbundle/verify.go:22-112 | For whatever a call published, the function that Verify computes gives the same digest, then and at any later time, whenever the references are still authorized |
| `BundleMaterializer.BudgetExceeded` | internal/contextbundle/materializer.go:214-220 | A source over the budget left by the earlier ones cannot be part of an acceptable set |
| `BundleMaterializer.Materializer.WriteEntry` | internal/contextbundle/materializer.go:244-273 | One source copied up to its limit; an error exactly when reading fails, the limit is passed or the digest differs, and whatever was written stays in the stage |
| `BundleMaterializer.Materializer.WriteNext` | internal/contextbundle/materializer.go:207-226 | One turn of the loop, with the entry limit cut to what is left of the total, is one step of the protocol |
| `BundleMaterializer.Materializer.WriteEntries` | internal/contextbundle/materializer.go:204-226 | The shrinking-budget loop leaves the stage and the entries of the protocol's filling steps |
| `BundleMaterializer.Materializer.Finish` | internal/contextbundle/materializer.go:227-242 | Manifest, read-only mode and rename agree with the protocol, each able to fail |
| `BundleMaterializer.Materializer.WriteManifest` | internal/contextbundle/materializer.go:275-287 | Writes the canonical manifest, or leaves it torn |
| `BundleMaterializer.Materializer.Rename` | internal/contextbundle/materializer.go:238-240 | Moves the stage to the final name in one step, or changes nothing |
| `BundleMaterializer.AloneOutcome` | internal/contextbundle/materializer.go:151-242 | A call run alone publishes exactly one new complete bundle exactly when input, authorization, lock, name, sources and every file-system call allow it; otherwise no bundle changes; a stage or a lock stays behind exactly when its own removal fails |
| `BundleMaterializer.AloneKeepsOwn` | internal/contextbundle/materializer.go:151-242 | What the protocol secures for any call holds at the end of a run alone |
| `BundleMaterializer.Materializer.Materialize` | internal/contextbundle/materializer.go:151-242 | The straight-line code with its deferred removals ends exactly as the step protocol run alone, whatever fails, hence with the outcome above |
| `BundleMaterializer.Materializer.Attempt` | internal/contextbundle/materializer.go:171-184 | Prepare and lock, then the locked part, then unlock |
| `BundleMaterializer.Materializer.Unlock` | internal/contextbundle/materializer.go:184 | A lock that cannot be removed stays, and the error is reported beside the published bundle |
| `BundleMaterializer.Materializer.Publish` | internal/contextbundle/materializer.go:185-242 | The part under the lock agrees with the protocol from the name check to unlocking |
| `BundleMaterializer.Materializer.StageAndRename` | internal/contextbundle/materializer.go:197-242 | Copy, describe, seal and rename; an unpublished stage is removed unless the removal fails |
| `AuditJournal.ChainedSnoc` | internal/audit/journal.go:92-103 | A stream with one more event is chained exactly when the stream is and the event is what appending would build |
| `AuditJournal.AppendsAreChained` | internal/audit/journal.go:92-103 | Every history of appends, refused ones included, leaves a verifiable stream |
| `AuditJournal.ChainedExactlyAppended` | internal/audit/journal.go:111-138 | A stream verifies exactly when appends built it |
| `AuditJournal.SharedDigestFixesHistory` | internal/audit/journal.go:43-79 | If two verified streams share a digest anywhere, it stands at the same place and everything up to it has equal content |
| `AuditJournal.RootDigestDeterminesStream` | internal/audit/journal.go:148-162 | Two verified streams have equal root digests exactly when they have equal length and content |
| `AuditJournal.CreationTimesAreNotCovered` | internal/audit/journal.go:23-32 | Changing only a creation time is never noticed |
| `AuditJournal.Journal.AppendInput` | internal/audit/journal.go:92-103 | Appends exactly one built event or refuses a missing type or payload, and the journal stays verifiable |
| `AuditJournal.Verify` | internal/audit/journal.go:111-138 | The loop accepts exactly the chained streams |
| `AuditJournal.NewCheckpoint` | internal/audit/journal.go:148-162 | A checkpoint is given exactly for a non-empty verified stream and names its length and root |
| `ReleaseSwitch.EveryStageKeepsBoth` | internal/distribution/switch_linux.go:94-104 | Before, between and after the renames both release trees exist, each at exactly one of the three paths, and nothing else differs |
| `ReleaseSwitch.RenamesUndo` | internal/distribution/switch_linux.go:175-198 | Each revert rename gives back the directory before it |
| `ReleaseSwitch.SwitchBackRestores` | internal/distribution/switch_linux.go:94-104 | Switching back with the retained release as candidate is admissible and restores the original directory |
| `ReleaseSwitch.Parent.Rename` | internal/distribution/switch_linux.go:172-198 | A rename moves one tree or changes nothing, and never replaces a directory |
| `ReleaseSwitch.StepStages` | internal/distribution/switch_linux.go:172-204 | Every step of an admitted cutover, failing or not, leads from a stage to a stage |
| `ReleaseSwitch.EveryRunKeeps` | internal/distribution/switch_linux.go:111-205 | Over every sequence of cutovers, failures, process deaths and host crashes, all that was there since a cutover began is one of its stages, and an inadmissible one moves nothing |
| `ReleaseSwitch.CrashesKeepBoth` | internal/distribution/switch_linux.go:94-104 | In every run, at every point of a cutover begun on a synced directory, failed syncs and reverts included, whatever a crash may leave has both releases, each at exactly one path |
| `ReleaseSwitch.EveryMomentKeepsBoth` | internal/distribution/switch_linux.go:94-104 | From a synced directory, for every choice of failures up to any moment, every directory since the beginning and everything a crash may leave has both releases |
| `ReleaseSwitch.NoReleaseIsLost` | internal/distribution/switch_linux.go:94-104 | From any directory, over every run, every release tree stands at as many paths as at first, in every state the disk had or a crash brings back |
| `ReleaseSwitch.FinishIsSteps` | internal/distribution/switch_linux.go:172-205 | A cutover run to its end is one of those step sequences |
| `ReleaseSwitch.FinishedWell` | internal/distribution/switch_linux.go:111-205 | A cutover succeeds exactly when admissible and nothing fails; every outcome fixes the directory by which reverts failed, and a last sync that comes through makes it the durable one |
| `ReleaseSwitch.Parent.Switch` | internal/distribution/switch_linux.go:111-205 | The straight-line code takes exactly those steps: outcome, directory, history and durable state for every failure, durable never going back, and both releases in every state since the call began |
| `ReleaseSwitch.Parent.Preflight` | internal/distribution/switch_linux.go:151-171 | Refuses exactly what is not admissible |
| `ReleaseSwitch.Parent.SetAside` | internal/distribution/switch_linux.go:172-179 | The first rename, its sync and its revert, and all that follows, agree with the steps, durable state included |
| `ReleaseSwitch.Parent.Activate` | internal/distribution/switch_linux.go:180-187 | Likewise from the second rename on |
| `ReleaseSwitch.Parent.ReadBack` | internal/distribution/switch_linux.go:188-200 | Likewise from the readback of both releases on |
| `ReleaseSwitch.Parent.Revert` | internal/distribution/switch_linux.go:191-196 | Likewise for the two-step revert, which goes on whatever fails |
| `DeliverySubject.PairOrder` | internal/core/model.go:144-149 | The comparison is a strict total order on artifact pairs |
| `DeliverySubject.LessTransitive` | internal/core/model.go:144-149 | The comparison is transitive |
| `DeliverySubject.LessExactly` | internal/core/model.go:144-149 | The order is by ID first and by digest among equal IDs, both ascending, character by character with the shorter string first |
| `DeliverySubject.SortedUnique` | internal/core/model.go:144-149 | Two sorted lists of the same pairs are the same list, whatever algorithm sorted them |
| `DeliverySubject.SortedIsSorted` | internal/core/model.go:144-149 | Sorting gives a sorted rearrangement |
| `DeliverySubject.SubjectDigestIdentifies` | internal/core/model.go:130-151 | Subject digests are equal exactly when the identity fields agree and the artifact lists are permutations of each other |
| `DeliverySubject.SubjectDigestIdentifiesArtifacts` | internal/core/model.go:130-151 | The same with the permutation written out as a one-to-one renumbering of the artifacts |
| `DeliverySubject.InsertInPlace` | internal/core/model.go:144-149 | One in-place insertion |
| `DeliverySubject.SortInPlace` | internal/core/model.go:144-149 | The in-place sort computes the sorted list |
| `DeliverySubject.CalculateSubjectDigest` | internal/core/model.go:130-151 | Loop and sort compute the digest of the specified subject |

## Left out

- HTTP routing, JSON decoding of requests, status codes, error texts and configuration checks for missing collaborators.
- Go struct pointers: `Operation.Transition` and `WorkItem.Transition` are functions from value to value, and callers reassign their local copy.
- Consecutive cancellation checks without an effect between them are one choice of the surroundings.
- Recovery routes other than PLANNED to ABANDONED_RECONCILED, including publication confirmation and execution abandonment.
- The PostgreSQL store; the work flow model follows the in-memory store's checks.
- Sessions, attempts, checkpoints, steering, worker endpoints and run continuation.
- WorkServer.Server.MutateExecution: the session's answer and the tool-profile refusal are one arbitrary admission.
- WorkServer.Server.HandleCreateTask: material readiness and routing are one arbitrary admission; the contract in a request already carries the fields the handler copies from the material.
- WorkServer.Server.HandleCreateRun: profile, gateway and continuation checks are one arbitrary admission, and the session is left out.
- WorkAtomic.EveryHandlerIsAtomic: speaks of the store after a write; a handler that gives up on an outdated read may answer with a refusal it would not get when run alone.
- Wrap-around of 64-bit versions and epochs, and the zero a wrapped version would be defaulted from.
- Line, byte and event-count budgets, duplicate JSON keys and lone surrogates in the test log, which are settled before an event reaches the verifier.
- ArtifactArchive.AcceptedExactlyCanonical: the reader refuses outright the tar extensions (PAX, GNU, base-256 numbers, signed checksums) that the program's reader would decode and its canonical comparison then refuse.
- ArtifactTransfer.Pack: the inputs are two snapshots, at capture and at the second reading, and the private temporary file holds what was written to it.
- File-descriptor and stat races, permission bits, directory syncs and partial destinations of the archive.
- UTF-8 replacement of invalid bytes and omission of empty fields in digest preimages: a digest's preimage is the record itself.
- DeliverySubject.SortInPlace: an insertion sort stands for the library's unspecified algorithm; by SortedUnique the choice does not show.
- Lexing of the response bytes, required-member checks and named pointer types that contain themselves.
- ResponseGuard.RefusedKeysAreAliases: folding is any function; equality under it stands for the library's case folding.
- BundleProtocol.EveryRunKeeps: a staging name is the call's own number, that is, random names never collide; the worktree checks before the lock are part of the authorization choice.
- BundleModel.EntryLength: the printer writes names verbatim, which is the encoder's output for the characters valid references may have.
- ReleaseSwitch.CrashesKeepBoth: a crash keeps a prefix of the renames since the last sync; reordered directory updates are not modelled, nor are processes that do not take the parent lock. A cutover begun on an unsynced directory may be thrown back to before its beginning; NoReleaseIsLost then still holds.
- ReleaseSwitch.Parent.Switch: the checks before the lock and their repetition under it are one check; ownership, process and path-form checks are one arbitrary refusal.
- Git, CI, sandbox, systemd and process-scope code, the skill catalogue and status reports.
