# Scribe Drop: a Dafny model of the GPU control plane

Scribe Drop turns uploaded recordings into transcripts.  The expensive part, a GPU execution, is started by a
controller that must never start one twice, never spend more than was authorized and always clean up, although its
handlers interleave at every `await` and the provider may answer "accepted", "conflict", "rejected" or nothing
definite at all.  Around it an orchestrator moves three database tables through batches of guarded updates, a worker
speaks a session protocol in which every message may be replayed, and several small codecs decide what gets signed.
This project models these parts and proves what they are built to guarantee.

## The controller

- `ControllerTypes`, `ControllerPolicy`: records, requests and the decisions that need neither store nor provider.
- `FirestoreStore`, `DurableStore`: the durable store as a step function on its documents and as a class.
  `MemoryStore` is the in-memory store that recomputes everything; `StoreRefinement` proves that the cached counters
  and the pruned list of times give the same answers, and `RateWindow` that no window of 60 000 ms holds more accepted
  requests than authorized.
- `StoreTable`: when each transaction of the durable store answers what, told by the records and requests themselves with
  every bound and code written out.
- `ControllerMachine`: the controller as it really runs.  Every await is one step; a handler is a program counter with
  its local record copies; any number of handlers share the store, read an arbitrary clock and get arbitrary provider
  answers.  `ControllerSafety` proves what one step keeps, `ControllerRuns` what whole runs guarantee,
  `ControllerTermination` that every handler ends, and `ControllerLate` exactly when a foreign create, an earlier send
  or an earlier call can still arrive.  `ControllerEmptiness` puts a provider beside the interleaved machine and proves
  exactly when CLEANED means empty, and `ControllerWitnesses` holds the runs in which things go wrong.
- `ControllerTable`: an independent account of the machine, await by await: the call a handler makes, the fields it writes
  and the answer it gives, with the codes, states and durations written out.  `ControllerProgress`: what must happen in the
  end, an admitted create is sent and a ready job is run, whatever other handlers do in between.
- `CloudRunProvider`, `ControllerService`: the service as a class whose methods follow the handlers line by line,
  against a provider whose reads are truthful or unavailable and whose mutations take effect at the call or never.
  Ghost fields keep step with the machine, and every method proves that what it did is a run of the machine's steps
  (`ControllerSolo`).  On top of that it proves that CLEANED means empty, and that through a reliable provider a create has
  the job made, a reconcile has a ready job run, a cancellation stops its execution and one cleanup call drains a record.

## The tables, the session protocol and the codecs

- `JobTables`, `CloudRunBatches`, `RunpodBatches`, `WebBatches`: the statements on `jobs`, `job_attempts` and
  `provider_executions`, with the triggers of the migrations.  `JobBatches` groups them into the repositories' batches
  and proves for each batch that it keeps a job in agreement with its attempt; `JobRows` proves for every statement what
  holds whatever its caller read before.  `JobRuns` runs batches on whole tables, as a class and as a function;
  `JobTheorems` states what every run from an empty database guarantees, and `JobWitnesses` holds two runs that end badly.
- `JobEffects`, `RunpodEffects`, `WebEffects`: what each batch does to its three rows, told status by status and without the
  statements that do it.
- `Submission`: the orchestrator's two sends of one signed create and what it records, joined with the controller's
  runs and the tables.
- `RuntimeStore`, `RuntimeSessions`: the in-memory session store and its language; `RuntimeD1`: the same store in SQL;
  `RuntimeTraces`: both on whole traces; `RuntimeReplay`: the SQL store beside the job tables that its attempt query
  reads; `RuntimeCalls`: the SQL store as a class whose calls read and write step by step with anything in between;
  `RuntimeClaims`: claims of one bootstrap in any interleaving, and who may succeed; `RuntimeTable`: when each call of both
  stores answers what, code by code.
- `Decimal`, `Framing`, `JsonText`, `CanonicalJson`, `CanonicalProofs`, `Folding`, `Crc32c`, `Crc32cWords`, `Srt`,
  `Deletion`: exact theorems about the codecs and the paged deletion loops.

## Conventions

Firestore transactions, D1 batches and in-memory methods are atomic.  A batch is fresh when it carries a timestamp that no
row carries yet, because the guards ask for "updated by this batch", and up to date when it is fresh and its caller just
read what it passes on.  The theorems over every run of the tables need neither; the agreement of jobs with attempts needs
up-to-date batches, and what a single batch does to its rows is stated for fresh ones.  A clock reading belongs to the
step that uses it.  The sliding-window bound and the refinement of the in-memory control store assume that the
clock does not run backwards; nothing else in the machine does.  Identifiers, digests and resource names are only
compared, so integers stand for them; timestamps are integer milliseconds.  Deriving a job id from an execution handle is
assumed to be injective (in the code it is a hash of environment and handle); key derivation, hashing and upper-casing are
arbitrary functions.  A provider's reads are truthful or unavailable, and its mutations take effect at the call or never.
Both statements that set a job's source etag set its actual size in the same breath, and only to the expected size, so
"has an etag" stands for the attempt query's conditions on the sizes as well.

## Where the code does less than it seems to

Each of these has an input at which it shows and the exact condition under which it does.

- On well-formed inputs for their environment and with a clock that does not run backwards, the two control stores differ
  in two operations.  Firestore aborts a claim that would be accepted for an expired record, the in-memory store accepts it
  (`ClaimAgreesExactly`; `ExpiredClaimThrows` is a run that reaches it).  And Firestore refuses a compare-and-set on a
  CLEANED record, or one that changes the expiry or goes back in time, where the in-memory store applies it
  (`CasAgreesExactly`; `CleanedIsOverwritten` is a run in which an observer would take a record out of CLEANED).
- `listUnclean` reads the environment document and the record it names one after the other, so a reaper throws when the
  record is cleaned in between (`ReaperThrows`).  `ThrowsExactly` lists every await that throws.
- ENVIRONMENT_MISMATCH is deferred like the budget and rate rejections, but it says nothing of the handle under the own
  environment: it is answered exactly to creates for another environment, and the handle has no record exactly when no
  create for it was accepted (`MismatchIsForeign`; `MismatchBesideRecord` is a run in which it has one).
- A deferral speaks of its moment.  A handle without a record has one later exactly when a handler that came to admission
  for it is accepted (`RecordAppearsExactly`); an earlier send of the same create may be that handler
  (`DeferralIsOvertaken`).
- A ready job may never be run.  A reconcile that finds its job ready may lose its note to another handler's write and go on
  with the record that handler left.  If that record names no job, the reconcile stores the run intent all the same and then
  has nothing to run: somebody is about to run the job at that moment exactly if the record names one
  (`IntentIsActedOnExactly`), and with the intent stored nobody comes to the call any more (`RunFollowsIntentExactly`;
  `IntentWithoutJob` is a run).  Every later reconcile only lists, until the reaper takes the record at its deadline.
- CLEANED does not always mean that the provider is empty.  As a cleanup that holds the stored record goes to list the
  executions a second time, its CLEANED will leave the provider empty, then and later and whatever happens, exactly when no
  handler is about to create or run for the handle at that moment (`CleanedMeansEmptyExactly`).  Otherwise the call may be
  made before CLEANED is written (`JobBesideCleaned`) or after (`CreateCallAfterCleaned`); after, exactly if it was licensed
  and pending when the record became CLEANED (`CallAfterCleanedExactly`).
- A create whose outcome is in doubt is answered "unknown", and always with the code UNKNOWN_OUTCOME.  The orchestrator takes
  any such answer that carries a code for an invalid one and records nothing, although it has a batch for unknown outcomes and
  runs it when both sends fail (`AnswersOnTheWire` says of every answer what it is taken for; `UnknownIsNotRecorded` is a run).
- A user's cancellation checks owner and version only in its job statement.  When the request is out of date the
  attempt stops and the job does not (`CancellationAgreesExactly`, `StaleCancellationSplits`; `StaleCancellationHappens`
  is a run from the empty database).
- A retry inserts an attempt without a provider; no batch of either provider ever starts it
  (`RetriedAttemptNeverStarts`; `RetryLeadsNowhere` is a run through a failed job and its retry).
- The in-memory session store lets two bootstraps of one handle both open a session (`TwoSessionsForOneHandle`); it keeps
  one exactly as long as no begin is accepted for a handle that has one already (`OneBootstrapExactly`).  The SQL store
  always does (`OneSessionPerHandle`), and the two answer a begin alike exactly when it is not such a one
  (`BeginAgreesExactly`).
- The SQL session store calls the replay of an accepted report a duplicate exactly when its attempt query still finds the
  attempt (`ReplayIsDuplicateExactly`); after a user's deletion the same replay is a conflict, where the in-memory store
  says duplicate (`DeletedJobForgetsReplay`).  A report is even stored although its call throws exactly when it is inserted
  and the attempt query does not find its attempt (`StoredButLostExactly`; `DeletedJobLosesReport` is such a run).
- Canonical JSON sorts with a locale's comparison.  If that comparison calls two different keys equal, the text depends
  on the order in which they were written (`TiedKeysKeepTheirOrder`); texts are equal for equal meanings on all values
  exactly when it never does (`FaithfulExactly`).

## Model

| member | source | states |
|---|---|---|
| ControllerRuns.RunJobAtMostOnce | apps/gpu-controller/src/controller-service.ts:309-328 | In every interleaving of any number of handlers, with any provider answers, `runJob` is called at most once per execution handle |
| ControllerRuns.CreateJobAtMostTwice | apps/gpu-controller/src/controller-service.ts:221-250 | `createJob` is called at most twice per handle, each call under its own attempt number 1 or 2, and no record ever counts more than two attempts |
| ControllerRuns.MoneyStaysAuthorized | apps/gpu-controller/src/firestore-control-store.ts:439-507 | Over a whole run at most `maxExecutions` GPU jobs are started, and their worst-case cost together stays inside the authorized amount |
| ControllerRuns.RequestAcceptedAtMostOnce | apps/gpu-controller/src/firestore-control-store.ts:412-572 | A request id is accepted at most once over any run, and the accepted ids are exactly the remembered ones |
| ControllerRuns.SafeDeferral | apps/gpu-controller/src/controller-service.ts:193-219 | Whenever a create is answered BUDGET_EXHAUSTED or RATE_LIMITED there is at that moment no record for its handle and no provider call was ever made for it |
| ControllerLate.MismatchIsForeign | apps/gpu-controller/src/controller-service.ts:67-84 | Where the store serves the controller's own environment, a create is answered ENVIRONMENT_MISMATCH exactly when it is for another environment; then no record of that handle and that environment exists, and no record or call of the handle at all if and only if no create for it was accepted under the own environment |
| ControllerWitnesses.MismatchBesideRecord | apps/gpu-controller/src/controller-service.ts:67-84 | A run in which such a create is refused while its handle has a record |
| ControllerWitnesses.DeferralIsOvertaken | apps/gpu-controller/src/controller-service.ts:193-219 | A run in which the second send of a create is answered BUDGET_EXHAUSTED and the first one is then admitted |
| ControllerEmptiness.CleanedMeansEmptyExactly | apps/gpu-controller/src/controller-service.ts:436-473 | In any run beside a provider with truthful or unavailable reads and mutations that take effect at the call or never, as a cleanup holding the stored record goes to its second listing: every continuation in which its CLEANED write applies leaves the provider empty then and later if and only if no handler is about to create or run for the handle at that moment; a provider that holds nothing is enough for the failing one |
| ControllerEmptiness.UnchangedLicensesNothing | apps/gpu-controller/src/controller-service.ts:475-495 | While the stored record of a handle is unchanged, no step of any handler comes to a create or run call for it |
| ControllerEmptiness.RunStaysSane | apps/gpu-controller/src/controller-service.ts:67-495 | In every run beside such a provider every record, stored or held, names the job derived from its own handle |
| ControllerWitnesses.JobBesideCleaned | apps/gpu-controller/src/controller-service.ts:456-473 | A run in which the create call is made after the read-back and before CLEANED is written: the write applies, nobody is about to call any more, and the provider holds the job |
| ControllerLate.CallAfterCleanedExactly | apps/gpu-controller/src/controller-service.ts:436-495 | Once a record is CLEANED, a create or run call for its handle follows in some continuation exactly when a handler is about to make it already |
| ControllerLate.StepAfterCleaned | apps/gpu-controller/src/controller-service.ts:475-495 | No step after CLEANED licenses such a call, and each one made was pending before |
| ControllerWitnesses.CreateCallAfterCleaned | apps/gpu-controller/src/controller-service.ts:221-250 | A run in which a slow create handler calls the provider after a cleanup found it empty and wrote CLEANED |
| ControllerWitnesses.ReaperThrows | apps/gpu-controller/src/firestore-control-store.ts:634-653 | A run in which the reaper throws because its record is cleaned between its two reads |
| ControllerWitnesses.ExpiredClaimThrows | apps/gpu-controller/src/firestore-control-store.ts:511-572 | A run in which a well-formed request throws because its record has expired |
| ControllerRuns.OnlyAdmissionRefuses | apps/gpu-controller/src/controller-service.ts:67-109 | Once a request is admitted or claimed, no later await answers it with one of the deferrable rejections |
| ControllerRuns.ThrowsExactly | apps/gpu-controller/src/firestore-control-store.ts:634-653 | From any state that satisfies the invariant exactly these awaits throw: a malformed claim, a claim that would be accepted for an expired record, and a reaper whose active record was cleaned between its two reads |
| ControllerRuns.StoredRecordsAreCoherent | apps/gpu-controller/src/controller-service.ts:268-404 | In every reachable state each record's state, job, execution, intents and error code fit together, and a record whose resources are not as created is taken by the reaper at any time |
| ControllerRuns.AnswersAreCoherent | apps/gpu-controller/src/controller-service.ts:497-520 | Every record a handler answers with is coherent and is the stored record or an earlier version of it, and each outcome is answered if and only if the record says so: "running", "succeeded" and "cancelled" exactly for one that names an execution of its own job in that very status with nothing in doubt, "unknown" exactly for one in doubt, "cleaned" exactly for a CLEANED one, which names nothing |
| ControllerRuns.MutationIsReported | apps/gpu-controller/src/controller-service.ts:235-250 | In any run, once the provider has answered a create or run call the handler's next step, whatever other handlers do in between, writes that answer; if the write applies both the reply and the stored record say it (an accepted create is JOB_PENDING and an accepted run EXECUTION_PENDING with the operation, an open one is in doubt, a refused one FAILED with its kind of error), and otherwise the handler reads the record back |
| ControllerRuns.CreateCallsDiffer | apps/gpu-controller/src/controller-service.ts:221-234 | Two create calls made for one handle carry different attempt numbers |
| ControllerProgress.ReadyJobIsRun | apps/gpu-controller/src/controller-service.ts:296-328 | In any run, a handler that may run its job and finds it ready and as made notes it and lists its executions; if there is none and both its writes meet the record as it left it, the run intent is stored and its next await appends the `runJob` call of its handle, whatever others do in between |
| ControllerProgress.ReconcileReadsJob | apps/gpu-controller/src/controller-service.ts:252-281 | An accepted reconcile of a record whose job is still to be made or run reads the operation, if one is known, and then the job, which it may run |
| ControllerProgress.AdmittedCreateIsSent | apps/gpu-controller/src/controller-service.ts:193-234 | In any run, the record of an admitted create is stored with its deadlines five minutes and 31 days ahead; if its first write meets it untouched, the first attempt is counted and the next await appends the `createJob` call of attempt 1 |
| ControllerProgress.IntentIsActedOnExactly | apps/gpu-controller/src/controller-service.ts:316-328 | A handler that listed nothing and whose write meets its record untouched stores the run intent, and some handler is about to run the job then if and only if the record names one |
| ControllerProgress.RunFollowsIntentExactly | apps/gpu-controller/src/controller-service.ts:252-328 | Once a record has its run intent, a `runJob` call for its handle follows in some continuation if and only if a handler is about to make it already |
| ControllerWitnesses.IntentWithoutJob | apps/gpu-controller/src/controller-service.ts:309-328 | A run in which an observe that cannot read the job overtakes a reconcile that found it ready: all handlers end, the run intent is stored without a job, and `runJob` was never called |
| ControllerRuns.ResumeKeepsInv | apps/gpu-controller/src/controller-service.ts:67-495 | One await of one handler keeps the store invariant, the soundness of every handler's copies, the licences of all calls made and pending, and the tracking of accepted ids |
| ControllerRuns.RunKeepsInv | apps/gpu-controller/src/controller-service.ts:67-495 | Every sequence of arrivals and awaits from an empty store keeps that invariant |
| ControllerSafety.AdvanceSound | apps/gpu-controller/src/controller-service.ts:475-495 | Each await moves records only forward (versions, intents, attempts), leaves the handler holding copies of stored records, and reaches a create or run call only through the compare-and-set that licenses it |
| ControllerSafety.CasEvolves | apps/gpu-controller/src/firestore-control-store.ts:574-621 | A compare-and-set from a handler never throws; when it applies, the handler's copy was the stored record itself |
| ControllerTable.RequestsStart | apps/gpu-controller/src/controller-service.ts:193-207 | A request for another environment and a create that does not expect version 0 are refused at once; a create may take five minutes to be provisioned and leaves a record for 31 days |
| ControllerTable.AdmissionsAnswered | apps/gpu-controller/src/controller-service.ts:209-234 | Each refusal of admission is answered with its own code, a duplicate with its record; an admitted create counts one attempt and, once that is stored, asks for the job under that number |
| ControllerTable.ClaimsAnswered | apps/gpu-controller/src/controller-service.ts:86-109 | Each refusal of a claim is answered with its own code, and an accepted one begins with what its action and the record call for |
| ControllerTable.JobCreated | apps/gpu-controller/src/controller-service.ts:234-250 | Accepted, open, refused and conflicting creates make the record JOB_PENDING, CREATE_UNKNOWN, FAILED, or send the handler to read the job |
| ControllerTable.JobNotFound | apps/gpu-controller/src/controller-service.ts:269-294 | An unreadable job leaves the outcome unknown; a missing one has failed if its operation has, is asked for again once, after at least 5000 ms and before the deadline, and is in doubt otherwise |
| ControllerTable.JobFoundThen | apps/gpu-controller/src/controller-service.ts:296-314 | A job that is not as made is drift and marked for cleanup; one as made is noted, and its executions are listed next exactly if it is ready, may run and is not meant to run yet |
| ControllerTable.ListedForRun | apps/gpu-controller/src/controller-service.ts:316-328 | With no execution listed the run intent is written and, once stored, the job is run; otherwise the list decides |
| ControllerTable.JobRun | apps/gpu-controller/src/controller-service.ts:330-353 | Accepted, open, conflicting and refused runs make the record EXECUTION_PENDING, EXECUTION_PENDING in doubt, FAILED with CONFLICT, or FAILED with the kind of error |
| ControllerTable.ListedToObserve | apps/gpu-controller/src/controller-service.ts:360-404 | What no, one, several and foreign executions make of the record, status by status |
| ControllerTable.SurplusCancelled | apps/gpu-controller/src/controller-service.ts:375-391 | Surplus executions are cancelled one after the other, a foreign one alone, and the record fails with the code of its case and is to be cleaned |
| ControllerTable.CancellationStored | apps/gpu-controller/src/controller-service.ts:411-427 | A cancellation of a record that has not ended is stored first, and the execution it names, if any, is cancelled next |
| ControllerTable.ExecutionCancelled | apps/gpu-controller/src/controller-service.ts:427-434 | Only a permanent refusal and an open answer of the cancel call leave a code |
| ControllerTable.CleanupLists | apps/gpu-controller/src/controller-service.ts:436-455 | A list or read that fails leaves the cleanup to be done again; what is listed is emptied, and a job that is found is deleted |
| ControllerTable.CleanupDeletes | apps/gpu-controller/src/controller-service.ts:440-455 | Pending and running executions are cancelled before they are deleted, one after the other |
| ControllerTable.CleanupReadsBack | apps/gpu-controller/src/controller-service.ts:456-473 | CLEANED, without job, execution, operation and code, is written exactly when the second listing is empty and the second read finds no job |
| ControllerTable.ReaperFinds | apps/gpu-controller/src/firestore-control-store.ts:634-653 | The reaper reads the one record that is not CLEANED and is done if there is none |
| ControllerTable.ReaperReads | apps/gpu-controller/src/controller-service.ts:179-191 | It then takes that record exactly if it is marked or past its deadline |
| ControllerTable.LostIsReread | apps/gpu-controller/src/controller-service.ts:479-495 | A write that does not apply changes nothing and sends the handler to read the record again |
| ControllerTable.RereadIsHandedBack | apps/gpu-controller/src/controller-service.ts:221-328 | The record it then reads is handed back, unless a ready job is still to be run or a cleanup goes on |
| ControllerTermination.AdvanceBelow | apps/gpu-controller/src/controller-service.ts:221-294 | Every await of a handler lowers a lexicographic measure whose middle part counts the create attempts left |
| ControllerTermination.EveryHandlerEnds | apps/gpu-controller/src/controller-service.ts:67-109 | Whatever request or tick starts a handler and whatever it meets, it ends after finitely many of its own awaits |
| ControllerSolo.HandledIsRun | apps/gpu-controller/src/controller-service.ts:67-191 | A handler running with nobody in between is, from any state of the system, one of the system's runs and leaves every other handler alone |
| ControllerService.SwapApplies | apps/gpu-controller/src/controller-service.ts:479-495 | From the stored record itself a handler's compare-and-set applies exactly when the record is not CLEANED, replaces that record only, and frees the slot when the new state is CLEANED |
| ControllerService.GpuControllerService.TryUpdate | apps/gpu-controller/src/controller-service.ts:479-495 | The update is one machine step (two when it loses); it applies exactly when the record is not CLEANED and otherwise returns what is stored |
| ControllerService.GpuControllerService.SendCreate | apps/gpu-controller/src/controller-service.ts:221-250 | Claims the attempt before the call, then records the answer or reconciles on a conflict, as the machine does; through a reliable provider that does not hold the job yet, the job is made and the record is JOB_PENDING with the operation; the recursion with reconciling ends by the attempts left |
| ControllerService.GpuControllerService.ReconcileRecord | apps/gpu-controller/src/controller-service.ts:252-266 | Takes the machine's branch for the record's state and ends where the machine returns; a record whose job is ready at a reliable provider and was never run leaves an execution of it there and is EXECUTION_PENDING |
| ControllerService.GpuControllerService.ReconcileJob | apps/gpu-controller/src/controller-service.ts:268-328 | Reads operation and job, and records, creates again or starts the run exactly as the machine's steps do; only this record changes; where it may run a job that is ready and was never run, a reliable provider holds an execution of it afterwards |
| ControllerService.GpuControllerService.ClaimRun | apps/gpu-controller/src/controller-service.ts:323-328 | The run intent is stored before `runJob` is called; if that write applied the call is made, so a reliable provider that holds the job ready holds an execution of it afterwards, and the record is EXECUTION_PENDING with the operation |
| ControllerService.GpuControllerService.ObserveExecution | apps/gpu-controller/src/controller-service.ts:360-366 | Lists the executions and continues as the machine does |
| ControllerService.GpuControllerService.HandleExecutionList | apps/gpu-controller/src/controller-service.ts:368-404 | Several executions or a foreign one are all stopped and the record is FAILED with cleanup intent and MULTIPLE_EXECUTIONS or RESOURCE_DRIFT; a single own execution that is pending, running, succeeded, cancelled or failed makes it EXECUTION_PENDING, RUNNING, SUCCEEDED, CANCELLED or FAILED; with none it is EXECUTION_PENDING |
| ControllerService.GpuControllerService.CancelRecord | apps/gpu-controller/src/controller-service.ts:406-434 | Unless the record has ended it carries the cancel intent, and a reliable provider has stopped the execution it names |
| ControllerService.GpuControllerService.CleanupRecord | apps/gpu-controller/src/controller-service.ts:436-473 | With a reliable provider one call takes any record that is not CLEANED to CLEANED and frees the slot |
| ControllerService.GpuControllerService.EmptyProvider | apps/gpu-controller/src/controller-service.ts:440-462 | Reports "emptied" only when the provider holds neither job nor execution of the record, and always with a reliable provider |
| ControllerService.GpuControllerService.ReadBack | apps/gpu-controller/src/controller-service.ts:456-462 | The two reads after the deletions prove emptiness |
| ControllerService.GpuControllerService.Execute | apps/gpu-controller/src/controller-service.ts:67-109 | Handling a request is a run of the machine from its start to the reply; CLEANED records stay untouched and empty at the provider; through a reliable provider an accepted cleanup answers CLEANED, an accepted reconcile of a record whose job is ready and was never run has it run, and an accepted create of a job that is not there has it made at its first attempt |
| ControllerService.GpuControllerService.Create | apps/gpu-controller/src/controller-service.ts:193-219 | Admission and first create, as a run of the machine from the create's start; through a reliable provider the job is made and the answer shows the stored record JOB_PENDING |
| ControllerService.GpuControllerService.Reap | apps/gpu-controller/src/controller-service.ts:179-191 | A tick is a run of the machine; it reaps whenever a record is marked or past its deadline, and one that reaps through a reliable provider leaves no active execution |
| ControllerService.CallKeepsCleaned | apps/gpu-controller/src/controller-service.ts:436-473 | Provider calls that can only bring up jobs of records that are not CLEANED leave every CLEANED record empty |
| FirestoreStore.CachedAggregatesExact | apps/gpu-controller/src/firestore-control-store.ts:89-132 | In every reachable state the cached counts and sums equal the recomputed ones, at most one record is not CLEANED and the document names it, and the budget holds |
| FirestoreStore.AbortsExactly | apps/gpu-controller/src/firestore-control-store.ts:412-621 | On a reachable state exactly malformed inputs and claims on expired records abort; no write breaks the document schema |
| FirestoreStore.CleanedIsAbsorbing | apps/gpu-controller/src/firestore-control-store.ts:574-621 | No run changes a CLEANED record, drops a record or forgets what a request id was accepted for |
| FirestoreStore.CreateReplaysSafely | apps/gpu-controller/src/firestore-control-store.ts:412-437 | Replaying an accepted create at any later time answers "duplicate" with the current record and changes nothing |
| FirestoreStore.AdmitKeepsInv | apps/gpu-controller/src/firestore-control-store.ts:412-509 | Admission keeps the cached aggregates exact and throws only on a malformed input |
| FirestoreStore.ClaimKeepsInv | apps/gpu-controller/src/firestore-control-store.ts:511-572 | A claim keeps them too and throws exactly on a malformed input or an otherwise acceptable expired record |
| FirestoreStore.CasKeepsInv | apps/gpu-controller/src/firestore-control-store.ts:574-621 | A compare-and-set keeps them, applies exactly when version, identity and guard fit a record that is not CLEANED, and throws exactly on a malformed record |
| StoreTable.AdmitAnswers | apps/gpu-controller/src/firestore-control-store.ts:412-509 | A well-formed own create is a duplicate exactly if its request was accepted before, a conflict exactly if its id or handle was for another one; a new one is BUDGET_EXHAUSTED exactly if the authorization has ended or is used up or a record is not CLEANED, and of the others RATE_LIMITED exactly if the last 60 000 ms hold the authorized number of acceptances |
| StoreTable.AdmitStores | apps/gpu-controller/src/firestore-control-store.ts:455-507 | An admitted create adds exactly its fresh record and its request and takes the slot; any other changes nothing |
| StoreTable.ClaimAnswers | apps/gpu-controller/src/firestore-control-store.ts:511-572 | When a claim is a duplicate, a conflict, not found, stale, rate-limited, thrown and accepted, each as an equivalence |
| StoreTable.ClaimStores | apps/gpu-controller/src/firestore-control-store.ts:541-572 | An accepted claim remembers its request and counts it and changes no record; any other changes nothing |
| StoreTable.CasAnswers | apps/gpu-controller/src/firestore-control-store.ts:574-621 | A well-formed record replaces the stored one exactly if it succeeds it in the expected version with the same identity and expiry, not back in time, and that one is not CLEANED; CLEANED gives the slot free |
| StoreTable.ListsUnclean | apps/gpu-controller/src/firestore-control-store.ts:634-653 | The listing never throws on its own and holds exactly the records of the environment that are not CLEANED, of which there is at most one |
| RateWindow.SlidingWindowBound | apps/gpu-controller/src/firestore-control-store.ts:364-367 | With a clock that does not run backwards no window of 60 000 ms holds more accepted requests than `maxRequestsPerMinute`, although the list is pruned at each acceptance |
| RateWindow.AcceptKeepsTracks | apps/gpu-controller/src/firestore-control-store.ts:541-566 | The pruned list stays a suffix of all acceptance times that misses nothing of the window |
| DurableStore.FirestoreControlStore.AdmitCreate | apps/gpu-controller/src/firestore-control-store.ts:412-509 | The transaction answers and changes the three collections as the step function whose properties are proved |
| DurableStore.FirestoreControlStore.ClaimRequest | apps/gpu-controller/src/firestore-control-store.ts:511-572 | Likewise for a claim, which changes no record |
| DurableStore.FirestoreControlStore.CompareAndSet | apps/gpu-controller/src/firestore-control-store.ts:574-621 | Likewise for a compare-and-set, which remembers no request |
| DurableStore.FirestoreControlStore.ListUnclean | apps/gpu-controller/src/firestore-control-store.ts:634-653 | Lists the one active record, nothing, or throws, as the step function does |
| MemoryStore.InMemoryControlStore.AdmitCreate | apps/gpu-controller/src/control-store.ts:126-184 | Admission by recomputing count, activity, sum and rate from all records and requests |
| MemoryStore.InMemoryControlStore.ClaimRequest | apps/gpu-controller/src/control-store.ts:188-214 | A claim against the recomputed rate |
| MemoryStore.InMemoryControlStore.CompareAndSwap | apps/gpu-controller/src/control-store.ts:216-233 | Replaces the record exactly when version and identity fit |
| MemoryStore.InMemoryControlStore.CountExisting | apps/gpu-controller/src/control-store.ts:140-144 | Counts the records of the environment, in whatever order they are visited |
| MemoryStore.InMemoryControlStore.CountActive | apps/gpu-controller/src/control-store.ts:143-143 | Counts those that are not CLEANED |
| MemoryStore.InMemoryControlStore.SumReserved | apps/gpu-controller/src/control-store.ts:145-145 | Sums their reservations |
| MemoryStore.InMemoryControlStore.IsRateLimited | apps/gpu-controller/src/control-store.ts:248-260 | True exactly when the window already holds the allowed number of requests |
| StoreRefinement.CachedStoreRefinesRecomputing | apps/gpu-controller/src/control-store.ts:126-261 | On every trace without expired claims and without updates the durable guard forbids, both stores give the same answers, operation by operation |
| StoreRefinement.AdmitAgrees | apps/gpu-controller/src/firestore-control-store.ts:412-509 | Both stores admit alike, and their states stay related |
| StoreRefinement.ClaimAgreesExactly | apps/gpu-controller/src/firestore-control-store.ts:511-572 | Both answer a claim alike exactly when it is not one that would be accepted for an expired record |
| StoreRefinement.CasAgreesExactly | apps/gpu-controller/src/firestore-control-store.ts:587-600 | The durable compare-and-set applies exactly when the in-memory one does and the record is well formed, not yet CLEANED, keeps its expiry and does not go back in time; the answers are the same exactly when the record is well formed and that guard stops nothing the in-memory one applies |
| ControllerWitnesses.CleanedIsOverwritten | apps/gpu-controller/src/control-store.ts:216-233 | A run in which an observer of a CLEANED record goes to write: the durable store refuses, the in-memory one would take the record out of CLEANED |
| StoreRefinement.ListingAgrees | apps/gpu-controller/src/control-store.ts:242-246 | The durable listing is what filtering all records would list |
| JobTheorems.CrossProviderExclusion | apps/orchestrator/src/cloud-run-control-repository.ts:64-136 | In every reachable state at most one attempt of the whole table is SUBMITTING, RUNNING or CANCEL_REQUESTED, whichever batches of both providers interleave and whatever their callers read before |
| JobTheorems.JobsAgreeWithAttempts | apps/orchestrator/src/cloud-run-control-repository.ts:97-289 | In every run whose batches are up to date an undeleted job has the status of its active attempt, but for a job SOURCE_MUTATED with an attempt FAILED |
| JobTheorems.ExecutionsFitAttempts | migrations/0010_provider_execution_compatibility.sql:139-200 | In every reachable state a RunPod execution mirrors its attempt, and a Cloud Run execution has no handle while claimable and one while active |
| JobTheorems.TerminalAttemptsStay | apps/orchestrator/src/cloud-run-terminal-repository.ts:54-204 | An attempt COMPLETED, FAILED or CANCELLED is never moved again |
| JobTheorems.RetriedAttemptNeverStarts | apps/web/src/server/jobs/job-repository.ts:354-422 | An attempt without a provider, as a retry inserts it, never becomes active |
| JobWitnesses.RetryLeadsNowhere | apps/web/src/server/jobs/job-repository.ts:354-422 | A run from the empty database through a rejected create and a retry to a job whose active attempt no continuation ever starts |
| JobTheorems.VersionPinsJob | apps/web/src/server/jobs/job-repository.ts:259-324 | Along every run a job's version only grows, and while it is the same nothing else of the row has changed |
| JobTheorems.MutationIsUpToDate | apps/web/src/server/jobs/job-repository.ts:1325-1385 | A source mutation that names the version its caller read is, at any later time, up to date about the attempt it names |
| JobTheorems.ClaimIsAllOrNothing | apps/orchestrator/src/cloud-run-control-repository.ts:64-136 | A claim moves all three rows or none, and it does so exactly when the attempt is claimable and no other attempt is active |
| JobTheorems.DeferralUndoesClaim | apps/orchestrator/src/cloud-run-control-repository.ts:230-289 | Deferring an attempt just claimed takes all three rows back but for versions and timestamps, whatever else is in the tables |
| JobTheorems.CancellationAgreesExactly | apps/web/src/server/jobs/job-repository.ts:503-564 | A cancellation keeps job and attempt in agreement exactly when, if its attempt statement matches, the job still has the owner and version the request read |
| JobTheorems.StaleCancellationSplits | apps/web/src/server/jobs/job-repository.ts:503-564 | Otherwise the attempt stops and the job stays as it was |
| JobWitnesses.StaleCancellationHappens | apps/web/src/server/jobs/job-repository.ts:530-564 | A run from the empty database in which a cancellation that read version 3 meets version 4: the attempt is asked to cancel and the job stays SUBMITTING |
| JobRuns.BatchKeepsTables | apps/orchestrator/src/cloud-run-control-repository.ts:656-870 | Any batch of any part of the system bound to an attempt and its job keeps exclusion, the fit of every execution and the ownership of every attempt, whatever its caller read before and whatever subset of its statements matches |
| JobRuns.BatchKeepsInv | apps/orchestrator/src/cloud-run-control-repository.ts:656-870 | An up-to-date batch keeps the agreement of every job with its attempt as well |
| JobRuns.BatchKeeps | apps/orchestrator/src/cloud-run-control-repository.ts:64-870 | Each of the twenty-odd batches of the two providers, the worker, the user and the queue keeps the rows it touches sound and the job in agreement with its attempt, if its caller just read what it passes on |
| JobEffects.RecordCreateResponseRows | apps/orchestrator/src/cloud-run-control-repository.ts:138-202 | A create that is running makes execution, attempt and job RUNNING; one on its way or in doubt leaves them with outcome accepted or unknown |
| JobEffects.RecordCreateUnknownRows | apps/orchestrator/src/cloud-run-control-repository.ts:204-228 | An unknown create marks execution and attempt so and moves no status and no job |
| JobEffects.RecordCreateRejectedRows | apps/orchestrator/src/cloud-run-control-repository.ts:291-328 | A rejected create ends all three as failed with nothing left to clean up |
| JobEffects.ApplyControllerResponseRows | apps/orchestrator/src/cloud-run-control-repository.ts:425-526 | After running, failed, cancelled and cleaned the active attempt under the handle and its live job are RUNNING, FAILED, CANCELLED and CANCELLED; any other response leaves both; the execution has status, outcome, terminal status and cleanup as each response and action say |
| JobEffects.FailMissingTerminalRows | apps/orchestrator/src/cloud-run-control-repository.ts:528-560 | An execution that ended unheard asks for its cleanup and fails what is still active |
| JobEffects.FinalizeSuccessRows | apps/orchestrator/src/cloud-run-terminal-repository.ts:54-132 | A worker that reports success completes execution, attempt and job, if the evidence is there and the attempt was claimed in time |
| JobEffects.FinalizeFailureRows | apps/orchestrator/src/cloud-run-terminal-repository.ts:162-204 | A worker that reports failure or cancellation ends all three so |
| JobEffects.BeginBootstrapRows | apps/orchestrator/src/cloud-run-runtime-d1-store.ts:244-296 | A worker that asks for its bootstrap makes all three RUNNING |
| RunpodEffects.PrepareRunpodRows | apps/orchestrator/src/runpod-control-repository.ts:30-124 | A claimed RunPod attempt is SUBMITTING under its token, issued now and not consumed, and its job with it; its execution follows |
| RunpodEffects.RecordSubmissionRows | apps/orchestrator/src/runpod-control-repository.ts:147-175 | An accepted and an unknown submission change the outcome alone |
| RunpodEffects.RecordSubmissionRejectedRows | apps/orchestrator/src/runpod-control-repository.ts:177-214 | A rejected submission fails attempt and job |
| RunpodEffects.ClaimWinnerRows | apps/orchestrator/src/runpod-control-repository.ts:264-328 | The winner holds the token of a claim that is issued, not consumed and not expired, and no winner was there before; then attempt and job are RUNNING and the claim is consumed |
| RunpodEffects.FailExpiredUnknownRows | apps/orchestrator/src/runpod-control-repository.ts:437-502 | An attempt whose claim expired without a winner, a submission or an accepted outcome fails with its job |
| RunpodEffects.FailStaleAcceptedRows | apps/orchestrator/src/runpod-control-repository.ts:537-603 | So does one accepted too long ago that never ran |
| RunpodEffects.CancelExpiredUnboundRows | apps/orchestrator/src/runpod-control-repository.ts:711-770 | An asked cancellation without winner or submission is CANCELLED once its claim expired |
| RunpodEffects.FailUnobservableRows | apps/orchestrator/src/completion-repository.ts:111-161 | An active attempt that passed its deadline without a terminal status fails with its job |
| RunpodEffects.RecordTerminalStatusRows | apps/orchestrator/src/completion-repository.ts:163-206 | The first terminal status of the bound submission is noted and moves nothing |
| RunpodEffects.FinalizeTerminalRows | apps/orchestrator/src/completion-repository.ts:239-301 | A noted terminal status ends attempt and live job as failed or cancelled |
| RunpodEffects.FinalizeCompletedRows | apps/orchestrator/src/completion-repository.ts:338-398 | A completed output of the winner with its artifacts stored completes both |
| WebEffects.IngestSourceRows | apps/orchestrator/src/upload-ingestion-repository.ts:41-113 | An uploaded source gets a waiting first attempt of generation one with its waiting execution, and the job waits under it |
| WebEffects.RetryFailedJobRows | apps/web/src/server/jobs/job-repository.ts:354-422 | A failed job of this owner whose source is still there gets a waiting attempt of the next generation without a provider |
| WebEffects.RequestCancellationRows | apps/web/src/server/jobs/job-repository.ts:503-564 | What is not sent yet is CANCELLED at once, what is under way is asked to stop; the attempt follows the live job's status alone, the job also its owner and version |
| WebEffects.DeletionStopsAttempt | apps/web/src/server/jobs/job-repository.ts:615-646 | A deletion in the version and for the owner the request read stops the attempt as a cancellation does |
| WebEffects.DeletionMarksJob | apps/web/src/server/jobs/job-repository.ts:648-688 | It marks the job deleted in that version, and only if the attempt it had to stop was stopped |
| WebEffects.SourceMutatedRows | apps/web/src/server/jobs/job-repository.ts:259-324 | A source that changed makes the job SOURCE_MUTATED and fails the attempt under way |
| JobRuns.GuardsSee | apps/orchestrator/src/cloud-run-control-repository.ts:64-136 | What the guards of a batch see of other rows: whether another attempt is under way, the job's active attempt, and the generations still free |
| JobRuns.BatchWrites | apps/orchestrator/src/cloud-run-control-repository.ts:757-771 | A batch replaces the three rows it is bound to and no other |
| JobRuns.ExclusionKept | apps/orchestrator/src/runpod-control-repository.ts:30-94 | A batch that activates an attempt does so only where no other attempt is active |
| JobRuns.Database.RunAll | apps/orchestrator/src/cloud-run-control-repository.ts:650-652 | Executing a batch statement by statement leaves the tables as the batch function does and reports whether every statement matched |
| JobRuns.Database.Submit | apps/orchestrator/src/cloud-run-control-repository.ts:757-771 | One batch is one atomic step on the tables |
| Submission.SendTwice | apps/orchestrator/src/cloud-run-submission-service.ts:138-147 | One send when the first is answered, otherwise two; the first answer there is decides what is recorded (a rejection before admission the deferral, another rejection or an answer on its way without a code the response, anything else nothing), and two failures record the unknown outcome |
| Submission.DecisionsAreRecorded | apps/orchestrator/src/cloud-run-submission-service.ts:148-232 | For every answer, or none, which batch records it, with the codes written out |
| Submission.TwoFailuresAreUnknown | apps/orchestrator/src/cloud-run-submission-service.ts:148-165 | In any reachable tables, after two failures an attempt still being sent under the handle has outcome unknown, and so has its execution; statuses, jobs and all other rows stay |
| Submission.RejectionsOnTheWire | apps/gpu-controller/src/controller-service.ts:523-538 | The five rejections carry BUDGET_EXHAUSTED, ENVIRONMENT_MISMATCH, RATE_LIMITED, CONFLICT and STALE_VERSION, the last with the version |
| Submission.AnswersOnTheWire | apps/gpu-controller/src/controller-service.ts:497-520 | In any run, for every answered record the response it is sent as, each as an equivalence on the record itself, and what the orchestrator takes it for: invalid exactly if it carries a code or has ended |
| ControllerWitnesses.CreateInDoubt | apps/gpu-controller/src/controller-service.ts:235-250 | A run in which the answer to a create call is lost and the requester is answered that the outcome is unknown |
| Submission.UnknownIsNotRecorded | apps/orchestrator/src/cloud-run-submission-service.ts:210-215 | A run in which a create is made, answered "unknown", and nothing of it is recorded |
| Submission.DeferralIsSafe | apps/orchestrator/src/cloud-run-submission-service.ts:166-189 | Whenever the orchestrator defers a create for the controller's own environment, the controller holds no record for the handle and never called the provider for it; for another environment no record of that environment exists, and none of the handle exactly unless a create for it was accepted under the own one. In any reachable tables, recording the deferral in a fresh batch lets the attempt claimed under that handle wait again with no attempt active, or changes nothing if the attempt has moved on |
| RuntimeStore.InMemoryCloudRunRuntimeStore.BeginBootstrap | apps/orchestrator/src/cloud-run-runtime-store.ts:139-163 | A bootstrap is accepted, a duplicate, a conflict or not found, as the step function says |
| RuntimeStore.InMemoryCloudRunRuntimeStore.ConsumeChallenge | apps/orchestrator/src/cloud-run-runtime-store.ts:165-207 | A claim opens one session or replays it |
| RuntimeStore.InMemoryCloudRunRuntimeStore.FindBootstrap | apps/orchestrator/src/cloud-run-runtime-store.ts:209-229 | Finds the first bootstrap whose session it is |
| RuntimeStore.InMemoryCloudRunRuntimeStore.ApplySessionEvent | apps/orchestrator/src/cloud-run-runtime-store.ts:209-272 | A report is accepted, a duplicate, a conflict, rejected, expired or stale, as the step function says |
| RuntimeSessions.SessionLanguage | apps/orchestrator/src/cloud-run-runtime-store.ts:209-272 | With fresh session ids the accepted reports of a session are numbered from 0 without gaps, read ack heartbeat* terminal? or a lone terminal, and the session is revoked exactly when they end in a terminal report |
| RuntimeSessions.OneReportPerNumber | apps/orchestrator/src/cloud-run-runtime-store.ts:209-272 | Each number of a session has exactly one kind and one digest |
| RuntimeSessions.ReplayIsDuplicate | apps/orchestrator/src/cloud-run-runtime-store.ts:214-228 | Replaying an accepted report at any later time answers "duplicate" and changes nothing |
| RuntimeSessions.TwoSessionsForOneHandle | apps/orchestrator/src/cloud-run-runtime-store.ts:139-207 | A run after which one handle has two sessions in the in-memory store |
| RuntimeSessions.OneBootstrapExactly | apps/orchestrator/src/cloud-run-runtime-store.ts:139-163 | A run of the in-memory store leaves one bootstrap per handle exactly when none of its begins is accepted for a handle that has a bootstrap already |
| RuntimeSessions.OneSessionWhenAnew | apps/orchestrator/src/cloud-run-runtime-store.ts:139-207 | Then each handle has at most one session |
| RuntimeD1.OneSessionPerHandle | apps/orchestrator/src/cloud-run-runtime-d1-store.ts:177-242 | Under any interleaving of statements each handle has at most one bootstrap, hence at most one session, and every session speaks the same language |
| RuntimeD1.SessionsAreForever | apps/orchestrator/src/cloud-run-runtime-d1-store.ts:298-315 | A claimed bootstrap keeps its session id, token hash and expiry |
| RuntimeD1.StoresAgree | apps/orchestrator/src/cloud-run-runtime-d1-store.ts:611-791 | From related states the SQL store and the in-memory one accept the same reports and leave the same bootstraps, and they call the same reports duplicates, except that the SQL store refuses a replay whose attempt it does not find and throws for an accepted report whose attempt it cannot read back |
| RuntimeD1.StoresStayRelated | migrations/0011_cloud_run_runtime_protocol.sql:188-207 | After any report both stores still hold the same bootstraps and accepted reports, whatever the attempt query finds |
| RuntimeTraces.SessionStoresAgree | apps/orchestrator/src/cloud-run-runtime-d1-store.ts:444-791 | From empty stores every permitted trace of begins, claims and reports gets the same verdicts from both, call by call, but for what the attempt query does not find |
| RuntimeTraces.BeginAgreesExactly | apps/orchestrator/src/cloud-run-runtime-store.ts:139-163 | With the same attempt in sight, both stores answer an unclaimed begin alike if and only if it is not accepted in memory for a handle that has a bootstrap already |
| RuntimeD1.ReplayExactly | apps/orchestrator/src/cloud-run-runtime-d1-store.ts:611-719 | After any later statements, replaying a report that was accepted changes nothing and answers "duplicate" exactly when the attempt query finds the attempt |
| RuntimeReplay.ReplayIsDuplicateExactly | apps/orchestrator/src/cloud-run-runtime-d1-store.ts:121-175 | The same over runs of sessions and job tables together, where the attempt query is the join of jobs, attempts and executions |
| RuntimeReplay.DeletedJobForgetsReplay | apps/orchestrator/src/cloud-run-runtime-d1-store.ts:161-169 | A run from empty tables in which a user deletes the job: replaying an accepted acknowledgement is a conflict in SQL and a duplicate in memory |
| RuntimeReplay.StoredButLostExactly | apps/orchestrator/src/cloud-run-runtime-d1-store.ts:712-713 | After any run, a report is stored although its call throws exactly when it is inserted for its session and the attempt query does not find the active attempt |
| RuntimeReplay.DeletedJobLosesReport | apps/orchestrator/src/cloud-run-runtime-d1-store.ts:712-713 | A run from empty tables in which a heartbeat arrives after the user deleted the job: it is stored, its call throws, and sending it again is a conflict |
| RuntimeCalls.D1CloudRunRuntimeStore.BeginBootstrap | apps/orchestrator/src/cloud-run-runtime-d1-store.ts:444-542 | The call follows its reads and its batch one by one, with any operations of other calls on sessions and job tables in between |
| RuntimeCalls.BeginsAnswerTruly | apps/orchestrator/src/cloud-run-runtime-d1-store.ts:444-542 | Whatever happens in between, a begin is accepted only when its batch finds execution, attempt and job running and no bootstrap of the handle, and its record is from then on the one bootstrap of the handle; a duplicate names the stored bootstrap of the same request |
| RuntimeCalls.BeginAlone | apps/orchestrator/src/cloud-run-runtime-d1-store.ts:444-542 | With nothing in between, rows and verdict are those of the step the traces compare with the in-memory store |
| RuntimeCalls.D1CloudRunRuntimeStore.ConsumeChallenge | apps/orchestrator/src/cloud-run-runtime-d1-store.ts:544-609 | Likewise for a claim: first read, guarded update, second read; a session id already in use throws |
| RuntimeCalls.ClaimsAnswerTruly | apps/orchestrator/src/cloud-run-runtime-d1-store.ts:544-609 | Whatever happens in between, a successful claim answers with a session opened under its claim digest that the bootstrap keeps; an accepted one opened its own session on a bootstrap that had none; any other changes nothing |
| RuntimeCalls.ClaimAlone | apps/orchestrator/src/cloud-run-runtime-d1-store.ts:544-609 | With nothing in between and a free session id, the call is the step the traces compare |
| RuntimeCalls.D1CloudRunRuntimeStore.ApplySessionEvent | apps/orchestrator/src/cloud-run-runtime-d1-store.ts:611-719 | Likewise for a report: the slot, the bootstrap, the guarded insert, and the attempt query or the slot and the bootstrap again |
| RuntimeCalls.ReportsAnswerTruly | apps/orchestrator/src/cloud-run-runtime-d1-store.ts:611-791 | Whatever happens in between, an accepted or lost report is stored under its number with its kind and digest and nothing was before; a duplicate is stored so too and its attempt was just found; any other answer changes nothing |
| RuntimeCalls.ReportAlone | apps/orchestrator/src/cloud-run-runtime-d1-store.ts:611-719 | With nothing in between, the call is the step the traces compare |
| RuntimeClaims.ClaimsAgree | apps/orchestrator/src/cloud-run-runtime-service.ts:329-414 | All successful claims of one bootstrap return the same session id, token and expiry, the token hashes to what the store checks, and no other bootstrap exists for the handle |
| RuntimeClaims.SuccessIsAdmitted | apps/orchestrator/src/cloud-run-runtime-service.ts:329-414 | In every run a successful claim goes back to its own first read that passed identity, read-back and signature, names the bootstrap's own handle and challenge, and is answered with an unexpired session of its own digest and its token |
| RuntimeClaims.SessionsWereAdmitted | apps/orchestrator/src/cloud-run-runtime-service.ts:359-380 | In every run each session of the rows was opened by such a claim, before the challenge expired |
| RuntimeClaims.UnadmittedIsRefused | apps/orchestrator/src/cloud-run-runtime-service.ts:339-357 | A claim that fails one of these checks is refused and changes nothing |
| RuntimeClaims.AdmittedGoesOnExactly | apps/orchestrator/src/cloud-run-runtime-service.ts:329-338 | An admitted first read goes on exactly if the bootstrap is there under its handle, and claimed already or with an open challenge; its session lasts as long as sessions do |
| RuntimeClaims.ClaimOpensSession | apps/orchestrator/src/cloud-run-runtime-service.ts:359-414 | A claim in time of an unclaimed bootstrap opens its session and is answered with its token |
| RuntimeClaims.ClaimIsRepeated | apps/orchestrator/src/cloud-run-runtime-service.ts:372-414 | Repeated with its own digest before the session expires, it is answered as the first one was |
| RuntimeTable.BeginAnswers | apps/orchestrator/src/cloud-run-runtime-store.ts:139-163 | When a begin is a duplicate, a conflict, not found and accepted, each as an equivalence, and what it stores |
| RuntimeTable.ConsumeAnswers | apps/orchestrator/src/cloud-run-runtime-store.ts:165-207 | Likewise for a claim, with its expiry |
| RuntimeTable.ConsumeStores | apps/orchestrator/src/cloud-run-runtime-store.ts:190-207 | An accepted claim stores its session and the attempt runs |
| RuntimeTable.ClassifiesExactly | apps/orchestrator/src/cloud-run-runtime-store.ts:229-272 | A report is rejected exactly if handle or token is not the session's, else expired exactly if the session is over, else stale exactly if it is not its next report |
| RuntimeTable.ReportAnswers | apps/orchestrator/src/cloud-run-runtime-store.ts:209-272 | For a session of any reachable state, when a report gets each of the six answers, as equivalences |
| RuntimeTable.ReportStores | apps/orchestrator/src/cloud-run-runtime-store.ts:245-272 | An accepted report moves the session to its number, a terminal one ends it and the attempt |
| RuntimeTable.UnknownIsRejected | apps/orchestrator/src/cloud-run-runtime-store.ts:209-229 | A report of a session that no bootstrap has is rejected |
| RuntimeTable.RowBeginAnswers | apps/orchestrator/src/cloud-run-runtime-d1-store.ts:444-542 | The SQL store's begin: duplicate, not found and accepted as equivalences |
| RuntimeTable.RowClaimAnswers | apps/orchestrator/src/cloud-run-runtime-d1-store.ts:544-609 | The SQL store's claim: every answer, and what it stores |
| RuntimeTable.RowReportAnswers | apps/orchestrator/src/cloud-run-runtime-d1-store.ts:611-719 | The SQL store's report: every answer, including the lost one, and what it stores |
| RuntimeTable.AttemptQueryFinds | apps/orchestrator/src/cloud-run-runtime-d1-store.ts:123-175 | The attempt query finds an attempt exactly while execution, attempt and job are under way, and for a replay also one that ended as its job did |
| RuntimeTable.InsertJoins | apps/orchestrator/src/cloud-run-runtime-d1-store.ts:177-242 | The join of the bootstrap insert finds execution, attempt and job running and bound to each other and to the handle |
| RuntimeTable.AwaitsExactly | apps/orchestrator/src/cloud-run-runtime-d1-store.ts:451-464 | A bootstrap begins only for an attempt found so that nobody asked to cancel and whose handle has no session |
| RuntimeTable.ClaimCallTold | apps/orchestrator/src/cloud-run-runtime-d1-store.ts:566-579 | With anything in between, a claim is answered from its first read unless that shows its own open challenge |
| RuntimeTable.ClaimCallAnswers | apps/orchestrator/src/cloud-run-runtime-d1-store.ts:580-609 | Otherwise it tries its update on what others have left, and its last read says what came of it |
| RuntimeTable.BeginCallAnswers | apps/orchestrator/src/cloud-run-runtime-d1-store.ts:444-542 | A begin whose batch inserts nothing is answered from what others have left |
| RuntimeTable.ReportCallAnswers | apps/orchestrator/src/cloud-run-runtime-d1-store.ts:611-719 | A report is answered from its number, from what stands against it, from its insert, or, if others were faster, from what they have left |
| Decimal.ParsePrint | apps/orchestrator/src/cloud-run-runtime-service.ts:173-177 | A printed length reads back as itself |
| Decimal.PrintsDecimally | apps/orchestrator/src/cloud-run-runtime-service.ts:173-177 | Lengths are printed in base ten, digit by digit |
| Framing.DecodeFrame | apps/orchestrator/src/cloud-run-runtime-service.ts:173-177 | A decoder recovers every list of byte strings from its frame |
| Framing.RuntimeFrameInjective | apps/orchestrator/src/cloud-run-runtime-service.ts:173-177 | Two lists have the same frame exactly when they are equal |
| Framing.RuntimeFrameText | apps/orchestrator/src/cloud-run-runtime-service.ts:173-177 | The frame is field after field, each behind its length and a colon |
| Framing.DecodeJoinedFrames | packages/contracts/src/cloud-run-controller.ts:184-207 | A decoder recovers the fields of a joined frame even if they contain the separator |
| Framing.SigningFrameInjective | packages/contracts/src/cloud-run-controller.ts:191-207 | Two signed requests have the same frame exactly when their six fields agree, the method up to case |
| Framing.SigningFrameText | packages/contracts/src/cloud-run-controller.ts:184-207 | The frame is upper-cased method, path, issue, expiry, request id and digest in this order, each behind its length and a colon, with bars between; there is none exactly if one of them is not printable ASCII |
| JsonText.ReadEscaped | packages/contracts/src/cloud-run-controller.ts:178-178 | A quoted and escaped string reads back as itself, whatever follows |
| JsonText.EscapeTable | packages/contracts/src/cloud-run-controller.ts:176-178 | How each character of a string is written |
| CanonicalProofs.CanonicalIsFaithful | packages/contracts/src/cloud-run-controller.ts:169-182 | With a total key order and distinct keys two values have the same canonical text exactly when they are equal up to the order of their objects' keys |
| CanonicalProofs.ParseCanonical | apps/gpu-controller/src/provider.ts:212-225 | The canonical text of a value parses back to its meaning, whatever follows |
| CanonicalProofs.CanonicalFromMeaning | apps/orchestrator/src/cloud-run-runtime-service.ts:139-148 | Values of the same meaning have the same canonical text |
| CanonicalProofs.TiedKeysKeepTheirOrder | packages/contracts/src/cloud-run-controller.ts:172-175 | With a comparison that calls two different keys equal, two spellings of one object with these keys and any values have different texts |
| CanonicalProofs.FaithfulExactly | packages/contracts/src/cloud-run-controller.ts:169-182 | For any total preorder of keys, equal texts mean equal values up to key order on all well-formed values if and only if no two different keys tie |
| CanonicalProofs.PlainTexts | packages/contracts/src/cloud-run-controller.ts:169-181 | How everything but an object is written |
| CanonicalProofs.ObjectText | packages/contracts/src/cloud-run-controller.ts:171-176 | An object is written in the order of its keys, all of them once, each quoted and before a colon |
| Crc32c.Compute | apps/gpu-controller/src/release-supply-chain-readback.ts:177-186 | The nested loop computes the fold of the bitwise step |
| Crc32c.BurstsAreDetected | apps/gpu-controller/src/release-supply-chain-readback.ts:177-186 | Messages that differ only inside some four consecutive bytes have different checksums |
| Crc32c.TableChecksum | apps/gpu-controller/src/release-supply-chain-readback.ts:177-186 | The byte-table form computes the same checksum of every message |
| Crc32c.ShiftLinear | apps/gpu-controller/src/release-supply-chain-readback.ts:181-183 | The bit step is linear |
| Crc32c.ShiftInjective | apps/gpu-controller/src/release-supply-chain-readback.ts:181-183 | The bit step loses nothing |
| Crc32cWords.ChecksumIsCrc | apps/gpu-controller/src/release-supply-chain-readback.ts:177-186 | The checksum is, bit for bit, what the loop on 32-bit words with shifts, masks and the polynomial 0x82f63b78 computes |
| Crc32cWords.PolynomialBits | apps/gpu-controller/src/release-supply-chain-readback.ts:182-182 | The polynomial is 0x82f63b78 |
| Crc32cWords.CheckValue | apps/gpu-controller/src/release-supply-chain-readback.ts:177-186 | The digits 1 to 9 in ASCII have the check value of CRC-32C, 0xe3069283 |
| Srt.ParsePrint | apps/runpod-worker/src/scribe_drop_worker/artifacts.py:183-189 | Parsing the printed text recovers each index, both times in whole milliseconds and the normalised text; empty texts do not break the split |
| Srt.TextLinesAreSafe | apps/runpod-worker/src/scribe_drop_worker/artifacts.py:192-193 | No text line holds a line break or a greater-than sign, hence none holds an arrow |
| Srt.NormalizingKeepsWords | apps/runpod-worker/src/scribe_drop_worker/artifacts.py:192-193 | Normalising keeps the words and is settled after one turn |
| Srt.ReadTimestamp | apps/runpod-worker/src/scribe_drop_worker/artifacts.py:203-208 | A printed time reads back, negative times as zero |
| Srt.TimestampText | apps/runpod-worker/src/scribe_drop_worker/artifacts.py:203-208 | A time is hours, minutes and seconds with two digits and milliseconds with three, colons and a comma between; a negative one is zero |
| Srt.EntriesText | apps/runpod-worker/src/scribe_drop_worker/artifacts.py:183-189 | An entry is its number, its two times around an arrow and its text on a line each, with a blank line between entries |
| Srt.SpacesAre | apps/runpod-worker/src/scribe_drop_worker/artifacts.py:192-193 | The white space at which words are split, code point by code point |
| Deletion.FindAllRunpodJobIds | apps/orchestrator/src/deletion-service.ts:84-102 | On an unchanging database the loop over pages of 100 returns exactly the known ids in order if and only if there are fewer than 100 000 |
| Deletion.FindAllResultPrefixes | apps/orchestrator/src/deletion-service.ts:104-124 | Likewise for the prefixes of all generations |
| Deletion.AfterRow | apps/orchestrator/src/deletion-repository.ts:73-99 | Resuming after a row yields exactly the rows not yet seen |
| Deletion.DeleteR2Prefix | apps/orchestrator/src/r2-object-cleanup.ts:53-83 | On normal return no key is left under the prefix and no other key was removed; with full listings it returns normally if and only if there are at most 9 999 000 keys |
| Deletion.UnderContinues | apps/orchestrator/src/r2-object-cleanup.ts:67-70 | The keys under a prefix are those that continue it |
| Deletion.DeleteCandidateObjects | apps/orchestrator/src/deletion-service.ts:147-156 | On normal return the source object and everything under the prefixes are gone, and nothing else is; with a reliable bucket and no prefix too full it does return normally |

## Left out

- Firestore's TTL deletion of expired records, and the retention jobs that delete rows: records and rows are never dropped.
- The attestation handler, HTTP, body readers, logging, configuration and the deployment read-back verifiers: field comparisons and plumbing.
- SHA-256, HMAC, Ed25519, JWT and identity checks: arbitrary functions and verdicts.
- The fixed manifest: a job read says whether the job it found carries it, as any boolean.
- Provider kind, policy and contract version of an attempt: written together and immutable, so one value stands for the three.
- RunPod submissions, stored artifacts and runtime evidence that statements only ask for with EXISTS: booleans given to the batch.
- Heartbeats, the marking of failed unclaimed submissions, notifications and event rows: they move no status.
- Unique-index aborts of a D1 batch: the batch changes nothing, like one whose guard fails.
- Uploads, expiry and cancellation of jobs that have no attempt yet: one event that moves an idle job.
- ControllerRuns.SafeDeferral: speaks of the moment of the answer; `RecordAppearsExactly` says exactly when a record appears later.
- ControllerService.GpuControllerService.Execute: proves CLEANED means empty for handlers that do not overlap; for overlapping ones `CleanedMeansEmptyExactly` says exactly when it does.
- RuntimeD1.StoresAgree: rejection labels of the two stores may differ and are not compared; the attempt query's answer is an argument here, and `RuntimeReplay` and `RuntimeCalls` ask it of the job tables.
- CanonicalProofs.CanonicalIsFaithful: `undefined`, NaN and infinities are not values of the model; numbers are given by their printed form.
- Srt.ParsePrint: starts from whole milliseconds; the rounding of floating-point seconds is not modelled.
- Deletion.DeleteR2Prefix: a listing that names keys outside its prefix, which the code rejects, does not occur in the model.
- Deletion.FindAllRunpodJobIds: ids stand as integers in their own order; schema checks of rows are not modelled.
