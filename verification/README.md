# Verification of the AI System Auditor

This project models the parts of the auditor that no finite test settles, and proves what they promise.

1. **The lease-fenced job queue with its approval gate**, in production mode. `Tables` holds the rows and every SQL
   statement or transaction as one function; a partial unique index is a guard that makes a write fail with a tag.
   `Programs` says what a worker does for a claimed job: a sequence of fences and of writes without a filter.
   `Protocol` is the concurrent system. An action is one statement of one process, so any sequence of actions is an
   interleaving of any number of workers, timers, supervisor runs, shutdowns, `startAudit` calls and decisions.
   `Reachability` proves one invariant of every reachable state. `Fencing`, `LateWrites`, `LateWriteBounds`,
   `Lifecycle`, `Starts`, `TwoPeople`, `Approvals`, `Retry`, `Supervision`, `SafeClaims`, `UndisturbedRuns`,
   `StuckAudits`, `RevivalMeans`, `Revivals` and `CompletedAudits` draw the theorems from it. `Store` holds the same
   operations as methods that change the rows in place; `ClaimJobs`, `AdvanceJobsOnce`, `Shutdown`, `RequeueStaleJobs`,
   `DecideApproval` and the lease fence are proved to be runs of `Protocol` (`ExecutorRuns`).
2. **The incremental inverted index and its search.** `KnowledgeIndex` has the loops of `buildMergedIndex` over mutable
   posting lists, `IndexTheorems` says which documents an index represents, `IndexRuns` compares any history of
   scoped reindexes with a rebuild, and `Search`, `SearchTheorems` and `ArtifactSearch` compare the search with a
   brute-force scan of the artifacts.
3. **The TAR writer.** `Tar` writes into a 512-byte buffer as the code does. `TarReader` is the reader of the
   "ustar Interchange Format" section of the `pax` utility in IEEE Std 1003.1.
4. **Crash and retry** of the artifact and finding upserts (`Upserts`, `LateUpserts`), the **parity score** (`Parity`)
   and the **stage timeline** (`Timeline`).

## What turned out false

The code is modelled as it is; each of these has a concrete run or an exact condition.

- A completed audit can leave that status, by exactly two statements, both without a lease filter
  (`CompletedAudits.CompletedAuditLeaves`), and each has its interleaving from the start: a supervisor's delayed reset
  sets it running (`CompletedAudits.CompletedAuditReopens`), a stale worker's error path fails it
  (`CompletedAudits.StaleWorkerFailsCompleted`). `Revivals.AuditRunsAgain` says exactly when an audit can be set running
  again, `StuckAudits.StuckForEver` exactly when a running one holds the single active slot for ever.
- README.md:193 of the auditor says that a stale worker writes nothing more. For an executor that holds if and only if
  it stands at a fence or has left its program. For an engine it hardly ever holds: past its first check it can throw at
  any time, and neither audit update of its catch block looks at the lease (`LateWrites.NothingMoreIsWritten` has the
  exact condition). How many writes are still to come is exactly `LateWrites.LateWritesAreThoseOwed`, and over a whole
  interleaving at most one for an executor, and its longest run of unfenced writes and two more for an engine
  (`LateWriteBounds.BoundedLateWrites`).
- A completed executor job can leave that status, exactly when the executor that completed it runs its error path
  while the row still stores its token (`Retry.CompletedExecutorLeaves`).
- A shutdown can strand a job for ever, exactly when it was on its last attempt (`Retry.ShutdownStrands`).
- An expired request can be neither approved nor rejected (`Lifecycle.DecisionTakesEffect`), so its audit waits, and
  blocks every other one, for ever; it does so exactly for an expired request (`Approvals.ExpiredBlocksForEver`).
- A global reindex empties the record of which audit owns which document, so later scoped ones leave orphans
  (`IndexRuns.GlobalReindexLeavesOrphans`); a scoped one is exact if and only if
  `IndexRuns.ScopedReindexIsExact`'s condition holds.
- Reindexing throws on the word `constructor`, and so does searching for it: a plain object inherits that property.
  Both are error results of the model.
- The TAR checksum field ends in two spaces, where its comment says a NUL and a space; a conforming reader accepts both.
  A size of 8^11 bytes or more does not fit its field, and names come back only as `TarReader.NameRoundTrip` says.
- A retried run does not duplicate rows (`Upserts.FixedPartsSurvive`), but what only a crashed attempt found stays: the
  retry leaves the rows of one uninterrupted run exactly if it rewrites what the crashed ones wrote
  (`Upserts.CrashesLeaveNoTrace`). Late writes of a stale worker leave no trace exactly if they agree with those of the
  run (`LateUpserts.LateWritesLeaveNoTrace`); artifact texts carry the time, so they seldom do.
- Two findings of one audit may share a fingerprint, which ignores the severity, so even a late repetition of the run's
  own writes may show (`LateUpserts.RepeatsLeaveNoTrace`).

## Assumptions

Worker ids are distinct, issued tokens and new row ids are fresh, all processes read one clock, and the outcome of a
commit is known. No worker is called `inline-demo`. `SKIP LOCKED` makes a claim take any claimable job, which covers
the oldest unlocked one. Sessions of one worker may interleave, which allows more than its `busy` flag does. A timer
tick does not overlap the next. Hashes do not collide.

## Model

| member | source | states |
|---|---|---|
| Reachability.ReachableInv | src/db/schema.ts:92-103 | Every interleaving keeps the unique keys, the single active audit, the approval gates, the lease bookkeeping and the conservation laws that the theorems below rest on |
| Reachability.StepKeepsInv | src/services/jobs.ts:233-290 | Each single statement of each process keeps that invariant, from any state that has it |
| Fencing.StepTokens | src/worker/index.ts:34-50 | No statement stores a token again that was issued before and is not stored now, and issued claims never change |
| Fencing.LostTokenStaysLost | src/worker/index.ts:34-50 | Once a job's stored token differs from an issued one, it differs after every further interleaving |
| Fencing.FencedOut | src/services/lease.ts:54-81 | Over every interleaving, a worker that lost its lease never holds it and never passes an assert again, and its lease filter matches no row |
| Fencing.FencedWrites | src/services/jobs.ts:115-174 | Nor does any later step of that worker change a job or an approval, or mark an audit as reported |
| Fencing.LostSessionIsHarmless | src/services/jobs.ts:106-174 | Without the lease a worker's step changes no job or approval and marks no audit as reported; only the two unfiltered writes of the engine's catch block can touch an audit |
| Fencing.OneOwner | src/services/auditor/engine.ts:141-148 | At any time at most one worker session can pass the assert for a job, and for an audit |
| Fencing.FenceDecides | src/services/auditor/engine.ts:99-148 | In every reachable state a check lets a session on if and only if its audit is running, an assert if and only if the row stores its token and the timer has missed nothing, a progress update if and only if the row stores its token, and then it refreshes the heartbeat; otherwise the session ends and nothing is written |
| Programs.EngineWrites | src/services/auditor/engine.ts:233-550 | A whole engine run writes two rows for each scanner, one for each finding and eighteen more; it reads its audit first, finalizes last, asserts before its stages and its findings, and reports progress after each scanner |
| Programs.ExecutorWritesFenced | src/services/executors.ts:137-221 | An executor makes one write, or two unless it is the SBOM export, each right after an assert, and then closes its job |
| LateWrites.LateWritesAreThoseOwed | src/services/auditor/engine.ts:573-617 | From every reachable state in which a worker's lease is gone, some interleaving has `n` more unfiltered writes of it under that claim if and only if it still owes `n`: the writes up to its next fence and, for an engine past its check or whose audit is or can be set running, the failure mark of its catch block and, if the job has an attempt left, the reset |
| LateWrites.LateWritesCapped | src/services/auditor/engine.ts:573-617 | In no future does a stale worker write more, under that claim, than it owed when its lease went |
| LateWrites.NothingMoreIsWritten | src/services/auditor/engine.ts:563-617 | A stale executor writes nothing more if and only if it stands at a fence or has left its program; a stale engine if and only if it stands at its first check and its audit neither is nor can be set running, or its catch block does not come to the reset |
| LateWriteBounds.BoundedLateWrites | src/services/executors.ts:137-149 | Over every whole interleaving one claim on an executor job has at most one late write, and one on an audit job at most its longest run of unfenced writes and the two audit updates |
| LateWriteBounds.LateWritesHappen | src/services/executors.ts:137-149 | Both bounds are reached, by a shutdown between an assert and the writes after it |
| Lifecycle.TwoPersonRule | src/services/audit.ts:300-377 | In every reachable state each `audit.run` job of a production audit has an approved request, decided within 24 hours by another person than the requester that the row names (unless that is `system`) |
| TwoPeople.SecondPersonApproved | src/services/audit.ts:134-185 | Over the actions of every run: if a call that `p` opened for production inserted an audit and the audit has a run job, then a decision by somebody else than `p` (unless `p` is `system`) approved its request, after the insert and within 24 hours of it |
| TwoPeople.EveryAuditWasStarted | src/services/audit.ts:134-185 | Every audit of every reachable state was inserted by a call that some actor opened, and carries that actor, that key and that environment |
| TwoPeople.DecisionIsRecorded | src/services/audit.ts:300-312 | From any state, only a decision by another person (or on a request of the system) within 24 hours ends the wait of a request, and the row then names the decider, the time, the reason and the verdict |
| Starts.StartInserts | src/services/audit.ts:155-200 | From any state, whatever action inserts an audit is a call's, and the audit carries its actor, key and environment; with it comes a pending request in the actor's name and of this moment in production, a queued run job elsewhere, and no other row |
| Starts.JobsComeFrom | src/services/jobs.ts:49-62 | From any state, every inserted job is queued and unowned with all its attempts and the current time, and is an enqueued one, or comes with an audit that needs no approval, or with an approval |
| Lifecycle.WaitingAuditHasOneRequest | src/services/audit.ts:144-202 | A waiting audit has exactly one request to run it, which is pending, and no `audit.run` job |
| Lifecycle.LifecycleConserved | src/services/audit.ts:353-398 | In every reachable state run jobs equal approved run requests plus audits that need none, packaging jobs of audits equal approved packaging requests, finished runs equal packaging requests, all in total, and no audit has two run jobs |
| Approvals.OnePackagePerApproval | src/services/audit.ts:380-398 | In every reachable state each audit has as many packaging jobs as approved packaging requests, which is at most one |
| Approvals.DecidedStaysDecided | src/services/audit.ts:304-312 | A decided request keeps its status, decider, time and reason in every future |
| Approvals.ExpiredBlocksForEver | src/services/audit.ts:331-338 | In every reachable state the audit of a pending run request waits in every future if and only if the request is more than 24 hours old; the request then stays as it is and no other audit is ever inserted |
| Lifecycle.RunJobIsFinal | src/db/schema.ts:243-245 | An audit gets one `audit.run` job ever: any two such jobs seen at any two times of a run are the same |
| Lifecycle.CompletedAuditIsWhole | src/services/auditor/engine.ts:473-550 | A completed audit has exactly one run job, which is completed, a parity report and exactly one packaging request |
| Lifecycle.FinalizeIsAtomic | src/services/auditor/engine.ts:478-550 | From every reachable state the finalize transaction makes its four writes together under the lease, the packaging request in the name of `auditor-service`, and changes no table without it |
| Lifecycle.RefusalRestores | src/services/audit.ts:304-338 | A refused, expired or rolled-back decision leaves every table exactly as it was, in every reachable state |
| Lifecycle.DecisionTakesEffect | src/services/audit.ts:300-398 | In every reachable state a decision takes effect if and only if the request is pending, at most 24 hours old, and not the decider's own (or the system's), and otherwise answers with the first check that fails; the row then names decider, time and reason, an approval runs or packages its target, a rejection cancels a run, and nothing else changes |
| Lifecycle.IdempotentStart | src/services/audit.ts:96-242 | In every interleaving of `startAudit` calls, calls with one key that are not answered `conflict` return the same audit, and it carries that key |
| Starts.ReplayNamesItsAudit | src/services/audit.ts:102-126 | A call opened with the key of an existing audit is, in every future, either unanswered or answered with that audit as a replay: never with a conflict or a second audit |
| Starts.AnswerIsJustified | src/services/audit.ts:102-242 | Every statement of a call leads where the tables say: to `waiting_approval` only for an audit that waits, with its pending request if there is one; to `started` only for an audit that it inserted running or that carries its key and does not wait; to `conflict` only with an audit that is active, or none; to the insert only when none is |
| Lifecycle.UniqueAudits | src/db/schema.ts:92-103 | In every reachable state there is at most one audit per key and at most one active audit |
| Retry.RetryTerminates | src/services/auditor/engine.ts:582-601 | Over every interleaving the status changes of an `audit.run` job, plus the measure left, never exceed the measure it started with, which is at most 2 · max + 1 |
| Retry.ClaimsAreAttempts | src/worker/index.ts:34-50 | Over every interleaving the attempt counter of a job counts exactly its successful claims, so it is claimed at most `max_attempts` times |
| Retry.QueuedStaysClaimable | src/services/jobs.ts:253-263 | In interleavings without a shutdown release every queued job has attempts left |
| Retry.ShutdownStrands | src/worker/index.ts:106-113 | In every reachable state a release queues each running job of the worker, and the job stays queued in every future interleaving if and only if it was on its last attempt |
| Retry.StrandedForEver | src/worker/index.ts:39-45 | A queued job without attempts left stays queued in every further interleaving |
| Retry.FinishedStaysFinished | src/services/jobs.ts:233-250 | A failed or timed-out job, and a completed `audit.run` job, keeps its status in every further interleaving |
| Retry.CompletedExecutorLeaves | src/services/jobs.ts:138-174 | In every reachable state a completed executor job leaves that status if and only if the step is the error path of the executor that holds its token; it fails if its attempts are used up, and is queued again otherwise |
| Retry.EventFailureRequeues | src/services/jobs.ts:118-174 | An executor job whose completion event fails is queued again while attempts remain |
| Retry.CompletedExecutorJobComesBack | src/services/jobs.ts:118-174 | Finality does not extend to executor jobs: an interleaving from the start shows one completed and later queued |
| UndisturbedRuns.LeaseHolderFinishes | src/services/auditor/engine.ts:213-550 | From every reachable state, an engine session in its program that holds its lease and is left alone completes its audit and its job and leaves the report and the packaging request; the audit must be running only if the session has yet to check it |
| UndisturbedRuns.UndisturbedEngineFinishes | src/services/auditor/engine.ts:473-550 | It does so in as many steps as its program has left, and touches no other row, session or supervisor run |
| CompletedAudits.CompletedAuditLeaves | src/services/auditor/engine.ts:573-576 | In every reachable state a completed audit leaves that status if and only if the step is the supervisor's reset after a requeue or the first write of the engine's catch block |
| CompletedAudits.CompletedAuditReopens | src/services/jobs.ts:281-289 | An interleaving from the start in which a delayed reset sets a completed audit running, its job and report untouched, after which it stays running and no other audit is inserted in any future |
| CompletedAudits.StaleWorkerFailsCompleted | src/services/auditor/engine.ts:573-576 | An interleaving from the start in which a worker that a shutdown cut off fails the audit that another worker has completed and reported since |
| StuckAudits.StuckForEver | src/db/schema.ts:93-103 | In every reachable state a running audit stays running in all futures if and only if its run job is over or out of attempts, no supervisor run has it among the timed-out audits, and no engine session of it is in its program or about to mark it failed; no other audit is then ever inserted |
| Revivals.AuditRunsAgain | src/services/jobs.ts:281-289 | In every reachable state an audit that has its run job and is not running is set running in some future if and only if a supervisor run has it requeued, its job will be requeued when stale, or a catch block will reset it after it failed, and the active slot is free or its holder can give it up |
| Supervision.SupervisorTakesStale | src/services/jobs.ts:233-263 | A supervisor run changes a job if and only if it is running with a heartbeat older than 45s; it then times out if its attempts are used up, and is queued again otherwise |
| Supervision.OthersLeaveLeasedRow | src/services/jobs.ts:106-174 | Nobody but the lease holder, its own shutdown and a supervisor that finds it stale writes a leased job row |
| Supervision.LiveWorkerKeepsLease | src/services/lease.ts:54-67 | Over every interleaving without a shutdown of its own process, in which its last heartbeat, from whichever statement, is never more than 45s old, a worker holds its lease until its session ends or its own error path gives the job back |
| Supervision.TwoMissesTolerated | src/services/auditor/engine.ts:117-136 | From a heartbeat on, in every interleaving in which only its timer acts for the session and others do what they like, the 15s timer keeps the job's heartbeat within 45s, at every moment, if and only if no three successive beats fail |
| Supervision.LiveTimerKeepsLease | src/services/lease.ts:54-67 | A session that has just beaten and whose timer never fails three times in a row keeps its lease until it ends or gives the job back itself, in every interleaving with its own steps and those of anybody else, up to a shutdown of its process |
| SafeClaims.ClaimedJobIsSafe | src/worker/index.ts:34-50 | From every reachable state a claim leaves a heartbeat of this moment, and the job is safe from then on: whatever others do until the worker opens it, at most 15s later, and while its timer never fails three times in a row (a delay counts as one miss), the session works and keeps its lease until it ends or gives the job back |
| SafeClaims.ClaimRefreshes | src/worker/index.ts:34-50 | A successful claim makes the job running with the worker, the token, one more attempt and the current time as its heartbeat, and changes no other column and no other row |
| Store.Database.ClaimJobs | src/worker/index.ts:34-55 | Claims the oldest claimable unlocked job: running, with the worker, the new token, one more attempt and the current time as its heartbeat; changes nothing if there is none, and is a run of the protocol |
| Store.Database.AdvanceJobsOnce | src/services/jobs.ts:84-181 | Each of the worker's running executor jobs is left alone when its lease is lost or its token was taken meanwhile, completed when its executor finished, and otherwise queued again without owner while attempts remain and failed when they are used up; every other row is unchanged, and without interference the whole is a run of the protocol |
| Store.Database.CloseJob | src/services/jobs.ts:115-174 | The closing updates are those of a protocol session at its closing fence, whatever other processes have done to the row meanwhile |
| Store.Database.RecoverJobs | src/services/jobs.ts:235-263 | The two conditional statements recover exactly the stale rows, and return rows that name the audits of the jobs they changed |
| Store.Database.RequeueStaleJobs | src/services/jobs.ts:233-299 | Exactly the running jobs with a heartbeat older than 45s are timed out or queued again, by their attempts, and counted; their audits fail if they were running, or run again; throws if and only if that would make two audits active, and is a run of the protocol |
| Store.Database.FailAudits | src/services/jobs.ts:266-280 | The audits of timed-out run jobs fail if they were running; no other audit changes |
| Store.Database.ResumeAudits | src/services/jobs.ts:281-297 | Resumes the audits of the requeued rows, and stops part way if and only if the single active slot cannot hold them |
| Store.Database.Shutdown | src/worker/index.ts:106-113 | Releases every running job of the worker and no other, and is a run of the protocol |
| Store.Database.DecideApproval | src/services/audit.ts:281-435 | Decide first, then revert or roll back: the rows and the answer are those of the atomic decision, which is a step of the protocol |
| Store.Database.Finalize | src/services/auditor/engine.ts:478-550 | Commits its four writes if and only if the lease filter matches; otherwise the rows are those from before the transaction |
| Store.LeaseFence.Beat | src/services/lease.ts:54-67 | A beat refreshes the heartbeat under the token or sets `lost`, and is the timer step of the protocol |
| Store.LeaseFence.Assert | src/services/lease.ts:69-79 | The executor may go on if and only if the protocol lets its session pass |
| KnowledgeIndex.BuildMergedIndex | src/services/executors.ts:414-460 | Throws if and only if an artifact holds the inherited word; otherwise the index is the merge of the surviving and the new postings in new lists, records the audit and its artifacts in order, and the existing index is unchanged |
| KnowledgeIndex.TokenRowCounts | src/services/executors.ts:383-388 | An artifact's row keeps its id and path and counts every word of 2 to 40 characters that is no stopword as often as the artifact has it, and no other word |
| KnowledgeIndex.EvictPostings | src/services/executors.ts:423-433 | The surviving postings in order, in lists of their own, without a term that has none left |
| KnowledgeIndex.AddRow | src/services/executors.ts:436-445 | Appends one posting per distinct token of the row to the lists in place, creating missing ones, and fails exactly on the inherited word |
| KnowledgeIndex.CountTokens | src/services/executors.ts:439-440 | The counts of the loop are the multiplicities of the tokens |
| IndexTheorems.ScopedReindexRepresents | src/services/executors.ts:414-460 | If the existing index represents a set of documents, a scoped run represents them without the evicted ones and with the run's rows: exact lengths, one posting per document and term, no empty list, exact counts |
| IndexTheorems.RebuildRepresents | src/services/executors.ts:436-459 | A first or global run represents exactly its rows, whatever index existed before |
| IndexTheorems.RepresentsUniquely | src/services/executors.ts:447-459 | Two indexes that represent the same documents are equal up to posting order |
| IndexRuns.IncrementalEqualsRebuild | src/services/executors.ts:462-496 | After any sequence of scoped reindexes, some of which may throw, the index equals up to posting order the one built from nothing on every audit's latest rows in any order |
| IndexRuns.TfSums | src/services/executors.ts:436-445 | In an index that represents documents the frequencies recorded for a document add up to its recorded length |
| IndexRuns.ScopedReindexIsExact | src/services/executors.ts:424-427 | A scoped run replaces exactly the audit's former documents if and only if each of them is recorded for the audit or rewritten |
| IndexRuns.OrphanStaysForEver | src/services/executors.ts:424-433 | A document that no audit records stays indexed under every sequence of scoped reindexes that does not rewrite it |
| IndexRuns.GlobalReindexLeavesOrphans | src/services/executors.ts:479-489 | After a global reindex no sequence of scoped ones removes a document that is never rewritten |
| Search.SearchInvertedIndex | src/app/api/search/route.ts:39-64 | The loops return the ten best of the accumulated scores, nothing without an index, and throw exactly on the inherited word |
| Search.AddEffect | src/app/api/search/route.ts:50-57 | One posting adds its frequency to the score of its document and to no other, and lists a document once |
| SearchTheorems.SortedIsStableSort | src/app/api/search/route.ts:60-63 | The order is by falling score, keeps every hit, and keeps equal scores in the order they were found |
| SearchTheorems.SearchAgreesWithScan | src/app/api/search/route.ts:39-64 | For an index that represents documents: distinct hits with the right path and the number of query-token occurrences as score, falling, at most ten, and an omitted matching document scores no more than any of ten hits |
| SearchTheorems.StopwordsChangeNothing | src/services/executors.ts:383-388 | Dropping stopwords from a query changes neither the hits nor whether the search throws |
| SearchTheorems.QueryFilterLosesNothing | src/app/api/search/route.ts:29-34 | The query filter drops only words no indexed document can contain: all query words, the search's filter and the indexer's filter give the same hits |
| SearchTheorems.SearchAfterReindexes | src/app/api/search/route.ts:39-64 | After any sequence of scoped reindexes a search agrees with a scan of every audit's latest tokenized rows |
| ArtifactSearch.SearchScansArtifacts | src/app/api/search/route.ts:39-64 | End to end: after any sequence of scoped reindexes of artifacts the hits are at most ten distinct artifacts of every audit's last successful reindex, each with its path and with the number of occurrences of the query's words in it as score, falling; an omitted artifact that matches scores no more than any of ten hits |
| ArtifactSearch.SearchThrows | src/app/api/search/route.ts:46-57 | After any sequence of scoped reindexes a search throws if and only if some reindex succeeded and the query holds the inherited word |
| Tar.UstarHeader | src/services/executors.ts:231-257 | The in-place writes and the checksum loop produce the specified header block |
| Tar.BuildTar | src/services/executors.ts:265-275 | The pushed parts are every file's header and padded content in order, then two zero blocks |
| Tar.PadToBlock | src/services/executors.ts:259-263 | A content is filled up with zeros to the next whole block, and no further |
| Tar.ChecksumFits | src/services/executors.ts:250-253 | Six octal digits hold the checksum of every header |
| TarReader.HeaderReads | src/services/executors.ts:231-257 | In every written header the name, mode, owner, size, type, magic and version fields hold what a reader expects, the time field holds the whole seconds of the time below 8^11, all other bytes are zero, and the checksum verifies |
| TarReader.NumberFieldReads | src/services/executors.ts:242-244 | A number field reads back as the number if and only if it is below 8^11; otherwise it does not read as a number |
| TarReader.RoundTrip | src/services/executors.ts:265-275 | Reading an archive, with the prefix field joined to the name, returns every name, mode, time in seconds and content in order, whatever zero blocks the contents hold, if every size is below 8^11, and is rejected otherwise |
| TarReader.NameRoundTrip | src/services/executors.ts:233-236 | A stored name is the original if and only if it has at most 100 characters, none NUL and none above one byte |
| TarReader.ArchiveLength | src/services/executors.ts:259-275 | The length of every archive is a multiple of 512 |
| Upserts.CrashesLeaveNoTrace | src/services/auditor/engine.ts:203-204 | Any number of crashed attempts, each with rows of its own, followed by a whole one leave the rows of one uninterrupted run if and only if each key they wrote is rewritten, by the same first insert if it was new, or was there with that content |
| LateUpserts.LateWritesLeaveNoTrace | src/services/executors.ts:82-110 | Late writes of a stale worker, with rows of its own, leave the same rows wherever they fall among those of the completing run if and only if they agree with them: in the last content of each key and, for a key that was not there, in what its first insert sets |
| LateUpserts.LateWritesAreHarmless | src/services/auditor/engine.ts:327-348 | Any sequence of late writes of any attempts after the run leaves the table unchanged if and only if it holds the last content written to each key |
| LateUpserts.LateWriteIsHarmless | src/services/auditor/engine.ts:59-61 | A late write of any attempt after the run leaves the table unchanged if and only if a row has its key and content |
| Upserts.FixedPartsSurvive | src/services/auditor/engine.ts:343-346 | Over any number of crashed attempts with rows of their own and a completing one, no key occurs twice, the keys are those that were there or were written, and what only the insert sets, an operator's finding status included, stays |
| Upserts.EqualAttemptsLeaveNoTrace | src/services/auditor/engine.ts:203-204 | Attempts that find the same rows and stop early leave the very table of one uninterrupted run |
| LateUpserts.RepeatsLeaveNoTrace | src/services/auditor/engine.ts:59-61 | Late repetitions of the run's own writes, in any number and order, leave no trace if and only if the writes to one key agree in content and, for a new key, in what its insert sets |
| Upserts.RepeatableIffCovered | src/db/schema.ts:278-283 | A repeated write changes nothing if and only if a unique index covers its key, which for global artifacts is the partial index |
| Parity.GreenMeansAllPassed | src/lib/parity.ts:15-31 | Scores lie between 0 and 100; only a non-empty list of passed checks passes, and only it scores 100; an empty list or one with a failed check fails, and any other is a warning |
| Parity.ScoreIsPenalties | src/lib/parity.ts:24-26 | The score is 100 less 12 for a failed, 4 for a warning and 2 for a pending check, at least 0, and 0 without checks |
| Parity.WorseNeverScoresMore | src/lib/parity.ts:24-26 | A worse status for one check never raises the score |
| Parity.DerivedScore | src/services/auditor/normalize.ts:177-299 | The score as 94 less the cost of what was found, and failed exactly when no route or an unguarded mutating one exists |
| Parity.DerivedChecks | src/services/auditor/normalize.ts:177-299 | Each of the eight derived checks, under its own key: pending ones, the inventory failed without services, the authorization failed with an unguarded mutating route, and warnings for missing variables, missing indexes of a scanned database and a latency above 150 |
| Parity.ScoreIsBounded | src/services/auditor/normalize.ts:177-299 | For every inventory, latency and scan list the score is even and between 70 and 94, and the report never passes |
| Parity.EveryBoundedScoreOccurs | src/services/auditor/normalize.ts:177-299 | Every even score from 70 to 94 occurs, both bounds included |
| Parity.DiffParityChecks | src/lib/parity.ts:34-52 | The two loops report, in order, the latest checks whose last previous status is missing or different |
| Parity.ChangesAreExact | src/lib/parity.ts:42-50 | Each reported change is that of a latest check, with the status it had before or none if it is new, in the order of the checks; every unreported check had its status before |
| Parity.StatusesAreLast | src/lib/parity.ts:39-39 | The previous status of a key is that of the last previous check with the key |
| Parity.ChangesReplay | src/lib/parity.ts:34-52 | Round trip: applying the reported changes to the previous statuses gives the latest ones |
| Parity.NoChangesMeansSame | src/lib/parity.ts:42-50 | Nothing is reported if and only if every latest check had the same status before |
| Timeline.ComputeStageStates | src/lib/parity.ts:72-108 | The loops compute, for any durations, each stage's state at its elapsed time, `done` at the total, and `changed` if and only if a known stage has another status |
| Timeline.TimelineShape | src/lib/parity.ts:87-91 | For positive durations: done stages, then the one in progress, then pending ones |
| Timeline.OneActive | src/lib/parity.ts:87-91 | Some stage is active if and only if time runs between zero and the total, and never two are |
| Timeline.DoneMeansAllDone | src/lib/parity.ts:83-89 | `done` holds if and only if the clock has started and every stage is done |
| Timeline.StagesAdvance | src/lib/parity.ts:89-91 | With elapsed time no stage goes back from done to active or from active to pending |
| Timeline.StageMeans | src/lib/parity.ts:83-107 | A stage carries its key, title and detail; done, it shows all its artifacts, its duration and its start; active, it shows at least one artifact and the clock is within its duration; pending, it shows none and keeps its previous times |
| Timeline.StagesAreContiguous | src/lib/parity.ts:80-101 | The first stage starts with the clock, and every other one when the one before it is over |
| Timeline.ShownShare | src/lib/parity.ts:90-102 | An active stage shows the share of its artifacts that corresponds to the time passed, rounded down, but one at least |
| Timeline.ShownGrow | src/lib/parity.ts:93-98 | With elapsed time no stage shows fewer artifacts |
| Timeline.ArtifactsGrow | src/lib/parity.ts:93-105 | The artifacts shown earlier are a prefix of those shown later |
| Timeline.ChangedMeansBoundPassed | src/lib/parity.ts:92-92 | Against an earlier snapshot, `changed` says exactly that a stage boundary was passed in between |

## Left out

- UI, SSE delivery, sessions, roles, the desktop shell and all route handlers but search scoring: presentation and lookups.
- Scanners, regular expressions, redaction, git and network probes: foreign calls. Their results are arbitrary inputs.
- PostgreSQL and Drizzle internals: a statement or a transaction is one atomic step with its unique indexes.
- Demo mode, telemetry, seed data: only `computeStageStates` is kept.
- Event and audit-log rows: dropped, late ones included, except that an event insert after a completion may fail.
- Columns that no decision reads (progress, worker, error texts, timestamps other than heartbeat and creation): dropped.
- The contents of artifacts, findings and reports in `Protocol`: an unfenced write there, a `parity.gate` report included, only counts; `Upserts` has the artifact and finding rows.
- Interleavings inside the methods of `Store`: they run undisturbed there, `Protocol` has the interleavings.
- Store.Database.AdvanceJobsOnce: what other processes do while an executor runs is a parameter, one row each; it is a run of the protocol when they do nothing, and its closing updates always are (`Store.Database.CloseJob`).
- Store.Database.Finalize: the lease filter's outcome is stated, the check and report contents of the transaction are not.
- `startAudit` as a method: its steps are only in `Protocol`, where their races are.
- Concurrent reindexes of the one index row: its read and write are two statements, and `IndexRuns` runs reindexes one after another.
- Splitting text into words and lower-casing it: an artifact is given as its words, then filtered by length and stopwords as the code does.
- Hashes: not computed; a finding's fingerprint is its key.
- Serial ids and timestamps of upserted rows: an upsert that updates also uses up a serial id.
- Rounding: stage progress is exact integer arithmetic, and artifact sizes in kilobytes are dropped.
- Labels, values and difference texts of parity checks, report texts, Mermaid and SBOM builders: easy members.
