# A verified model of the build server

The build server accepts build requests over HTTP, webhooks and NATS, keeps them in an in-memory job
table, runs a bounded number of them at a time under an optional distributed lock, mirrors their records
to Postgres and publishes their life cycle. This project models that job engine and the text and stream
transformations around it in Dafny 4.11, and proves what they promise. Check it with
`dafny verify dfyconfig.toml`.

## What is modelled

**The engine** (`Engine.dfy`) is an interleaved state machine. Every submission, every accepted job and
every reader of the job table is a task with a program counter; one step is one lock acquisition, one
critical section, one counter update or one external call, and any task may go next. The request-id lock,
the readers and the writer of the job table and the semaphore are explicit, and a step that needs a guard
is possible only when the guard is free. Clock readings, the outcome of the lock service, the executor's
result, whether a database write goes through, and the order of hash maps are choices of the environment.
A process may end at any point and a new one boot with the rows that the database holds. Submissions over
HTTP and webhooks run inside the handler's future, which axum drops when the client disconnects: a task of
this kind may be dropped at any of its awaits. The request-id lock and table guards in its scope are given
up, and a submission that has its number becomes an `Orphan`, with or without a job in the table.

| phase of a task | program counters | lines of `src/jobs.rs` |
|---|---|---|
| `Checker` | validate, take the id lock, look up, admit, number | 563-654 |
| `Adder` | insert, claim, persist, prune, spawn | 656-674 and 48-73 |
| `Starter` | permit, lock key, distributed lock | 391-467 |
| `Worker` | running gauge, `Running`, executor | 469-505 |
| `Winder` | release, gauge, permit, outcome counters | 507-525, 532-538 |
| `Closer` | terminal status, its row and its messages | 433-446, 449-463, 526-548 |

`EngineInvariants.dfy` states what holds in every reachable state; one module per group proves that every
step keeps it (`EngineLocks`, `EngineCounts`, `EngineClaims`, `EngineOwners`, `EngineJobs`, `EngineTrace`,
`EngineRows`, `EngineDrops`), and `EngineInduction` puts them together for whole runs. `EngineLives` reads off
the events of a run what the world answered about each job: its life. The theorems are in `EngineLives`,
`EngineSafety`, `EngineHistory`, `EngineLimits` (with `EngineBounds`), `EngineProgress`, `EngineCompletion`,
`EngineDurability`, `EngineRecovery`, `EngineCoordination`, `RequestMap`, `Retries` and `NatsIntake`;
`EngineWitness` builds runs that reach the places these speak about. `State.past` records history that no
step of the server reads.

**Replicas** (`Replicas.dfy`, `ReplicaOverlap.dfy`): any number of whole engines under one lock service and
one clock. Where a runner receives a grant, enters its executor, leaves it and sends the release, the
service makes the matching step, and a process that ends leaves its leases to run out.

**The shared state as an object** (`AppState.dfy`): the bodies of `src/jobs.rs` as methods that change
fields in place, with the loops the source has, run one at a time. Pruning is proved to be what the engine's
pruning step allows, `EnqueueBuild` gives the one answer that request, table and limits determine, and
`RunJob` leaves the complete history that the interleaved engine prescribes for the job.

**Around the engine**: the retry loop of the lock client (`LockClient`), the lock service with its clients as
a timed system (`LockService`), lock names (`LockKeys`), rows and recovery (`Persistence`), image
templates and webhook requests (`Substitution`, `Webhooks`), logged command lines (`Shell`, `Redaction`),
the capped log (`CappedLog`), secret synchronisation (`SecretSync`), and request validation with the checks
that the executors repeat (`Validation`, `ExecutorChecks`; `Admission` states acceptance as one condition, and
`PlainBuild` gives a family of requests that are accepted).

## Assumptions

- The lock service grants a key only while it is free or its lease has expired, to anyone and with a fresh
  token; a release removes only the lease of its own token. Releases and grants may be late or lost. The
  deadline ends an execution when its time is up or at most `lateness` after it (`tokio::time::timeout`).
- Postgres applies a statement as a whole or not at all. One process at a time uses the database, and the
  clock has passed every id handed out when a new process boots.
- The SHA-256 digests of two repositories that are compared have 64 characters and differ if the texts do
  (`LockKeys.SameKeyIff` alone needs it), and those of the secret values at hand tell these apart.
  Secret-sync audit rows get increasing times, and nobody else writes the secrets.
- There is at least one permit and a positive retry interval: both settings are read by helpers that
  replace zero by a default (`src/config.rs:110-122`, `src/main.rs:51`).
- `requests_match` is equality of requests, whose fields are all plain data.

## Findings

- A client that disconnects while its submission is being stored leaves a queued job that nothing runs: it
  is never pruned, keeps one place of `max_queued` until the process restarts, and every identical retry
  under its request id is answered with it (`EngineWitness.DisconnectStrandsJob`,
  `EngineCompletion.StrandedForGood`, `StrandedJobsHoldPlaces`, `StrandedIdStaysBound`). One that
  disconnects just before leaves a number that is never accounted for. Everything completes if and only if
  neither happens (`EngineCompletion.QuiescenceIsCompletion`).
- Executing jobs are covered by their locks if and only if coordination is enabled as well as required
  (`EngineWitness.ExecutionIsLockedIff`). A lock URL that fails its check turns the first off and leaves the
  second on, and then jobs execute without a lock although one is required.
- The lock key of a profile job uses the profile text as submitted, everything else its trimmed form, so for
  every accepted profile job there is another accepted request that executes the same and does not exclude
  it: the profile name with a blank after it (`ExecutorChecks.ProfileLockCanBeEscaped`).
- Mutual exclusion needs `lock_ttl` to outlast `job_deadline`, the delay from grant to start and the lateness
  of the timer together; nothing in the configuration enforces it, and the defaults leave 300 seconds for the
  last two (`ReplicaOverlap.ReplicasExcludeIff`).
- A lost audit row after a changed secret makes the next change back a skip, unless a later PUT of the secret
  keeps its row, and that is the only thing that does (`SecretSync.LostRowKeepsOldValue`,
  `SecretSync.SendingGoesOnIff`).
- A job that succeeded, and has a row, is recorded as failed by the next process if and only if the write of
  its terminal record did not go through (`EngineRecovery.RecoveryKeepsOutcomeIff`,
  `EngineRecovery.SuccessRecordedAsFailed`).
- The comment on `valid_commit_sha` says lower-case; the code accepts upper-case digits as well, and the
  model follows the code. The comment in `src/jobs.rs:605-607` is right: that branch is dead.
- `src/jobs.rs:687-695` acknowledges a request-id conflict where `src/nats_submit.rs:30-38` terminates it;
  only malformed JSON reaches the first, which never gets as far as a conflict. The model has the second.
- The empty word is printed as nothing, so a logged command line with an empty argument does not read back
  (`Shell.PrintedCommandReadsBackIff`).

## Model

| member | source | states |
|---|---|---|
| `RequestMap.RunRefinesMap` | src/jobs.rs:563-677 | Over every run of any number of interleaved submissions, runners, prunes and restarts, the bindings request id → job held by the table are those of an atomic map replayed over the same operations, and every operation, answers included, is one that the map allows at that moment. |
| `RequestMap.EventRefinesMap` | src/jobs.rs:577-663 | Each single event of the engine is one legal operation of the atomic map (bind an unbound id, answer, unbind by pruning, reset at restart, or nothing), and the map stays functional. |
| `Retries.RetriesAgree` | src/jobs.rs:563-613 | Once a submission under a request id was accepted or reattached, then, whatever happens in between, as long as its job is retained every submission under that id is answered with the same job if the content is the same, and otherwise refused, as a conflict unless it is not even admissible. |
| `EngineSafety.RequestIdsMatchRetainedJobs` | src/jobs.rs:48-73 | In every reachable state no two retained jobs share a request id, and whenever the request-id lock is free the id set is exactly the cleaned ids of the retained jobs. |
| `EngineSafety.ClaimAlwaysHasItsJob` | src/jobs.rs:605-608 | The branch that drops a claim without a retained job is dead in every reachable state. |
| `NatsIntake.SettlementMatchesMap` | src/nats_submit.rs:30-38 | At the moment an id-bearing submission is answered: ack means its id is bound to exactly this content, term means inadmissible or bound to other content, nak means unbound with a full queue. |
| `NatsIntake.RedeliveriesRetainOneJob` | src/events.rs:186-202 | However often a request id is delivered, at most one retained job carries it. |
| `EngineInduction.RunInv` | src/jobs.rs:391-677 | All invariants of the engine (locks, claims, owners, records, effects, rows, counters, bounds) hold in every state of every run. |
| `EngineSafety.LiveJobIsRetained` | src/jobs.rs:55-66 | A job whose runner still has to use its record is in the table and not terminal, whatever pruning does in between. |
| `EngineLives.RecordTellsLife` | src/jobs.rs:391-655 | In every state of every run each record is, field by field, what its life leaves: request, source and executor ("local" unless one is asked for) of the submission, log path of the id, the clock readings of numbering, start and end, the grant that was given, and the status and error that follow from what the lock service and the executor answered. |
| `EngineLives.ExecutorDecides` | src/jobs.rs:485-548 | Once the executor has answered for a job, then at any later time short of a restart the job, if it has ended, succeeded if and only if the answer was no error, and shows exactly that error otherwise. |
| `EngineLives.LockRefusalDecides` | src/jobs.rs:433-463 | Once the lock service has refused a job, by holding the lock elsewhere or by being unavailable where a lock is required, the job never gets into its executor, and if it has ended it failed, unstarted, with that reason. |
| `EngineSafety.JobNeverDisappears` | src/jobs.rs:480-505 | Every update of a record finds it, and the branch for a job that disappeared before execution is dead. |
| `EngineSafety.RecordFieldsFitStatus` | src/jobs.rs:26-46 | Every record carries exactly the start, finish, error and lock fields its status demands. |
| `EngineSafety.StatusMovesForward` | src/jobs.rs:469-548 | A record moves only Queued to Running to Succeeded or Failed, or Queued to Failed; terminal records never change, and no submission field ever does. |
| `EngineSafety.SubmissionsAreConserved` | src/jobs.rs:433-548 | submitted = in flight + orphans of dropped handlers + succeeded + failed, and failed + tolerated lock failures = command failures + lock failures up to the stages where one of the two is still to be counted; nothing is tolerated when coordination is required. |
| `EngineSafety.ResourcesAreConserved` | src/jobs.rs:391-523 | Free plus held permits is the configured number; the running gauge equals the tasks between its two updates, never underflows and never exceeds the permits; grants acquired = released + still held. |
| `EngineSafety.JobNumbersAreFresh` | src/jobs.rs:637-641 | Ids differ in their counter whatever the clock does, each job is stored under its own id, and every retained request passed validation. |
| `JobIds.JobIdTextIsInjective` | src/jobs.rs:22-24 | The rendered ids of two different (time, counter) pairs differ. |
| `EngineHistory.FinishedJobStatuses` | src/jobs.rs:391-549 | A finished job entered, and sent to the database in the same order, Queued and Failed if the lock was refused, and otherwise Queued, Running, and Failed or Succeeded as the executor answered with an error or not. |
| `EngineHistory.FinishedJobMessages` | src/events.rs:94-121 | It published each status after Queued as an event, exactly one result, which is the one that the answers of lock service and executor demand, and one critical event exactly if that is a failure. |
| `EngineHistory.FinishedJobHoldings` | src/jobs.rs:507-523 | It took one permit and gave it back once; a grant that the lock service gave was released exactly once under its token, after the executor and before the permit went back, and a refused job came to neither. |
| `EngineHistory.EveryTraceIsAPrefix` | src/jobs.rs:391-549 | At any time what a job has done so far is the beginning of such a complete history. |
| `EngineLimits.QueueStaysBounded` | src/jobs.rs:577-659 | Queued jobs plus submissions between admission check and insertion never exceed max_queued plus the largest number of id-less submissions that were there at once. |
| `EngineLimits.IdentifiedQueueNeverExceedsLimit` | src/jobs.rs:573-631 | When every submission carries a request id the bound is exactly max_queued. |
| `EngineLimits.TableStaysBounded` | src/jobs.rs:656-668 | The table never exceeds max(max_jobs, highest number of live jobs so far) plus the insertions since the last prune, each of which still has its prune ahead or lost it, since that prune, to the drop of its handler. |
| `EngineLimits.PruneIsExact` | src/jobs.rs:48-73 | A prune removes only terminal jobs, each no newer than any terminal job that stays, brings an oversized table to max(max_jobs, live jobs), leaves a small one alone, and ends with the id set equal to the retained claims. |
| `EngineProgress.NoDeadlock` | src/jobs.rs:577-581 | With at least one permit, while any task is unfinished some unfinished task can move. |
| `EngineProgress.TableHolderCanMove` | src/jobs.rs:50-54 | Whoever holds a guard of the job table can move at once, whoever else is waiting. |
| `EngineProgress.FirstWaiterCanMove` | src/jobs.rs:573-674 | Whichever waiter the queue of a lock lets through first can move as soon as that lock is free, since nobody waits for two guards at once. |
| `EngineProgress.RunsAreShort` | src/jobs.rs:391-677 | In every run the steps made plus the steps still possible are at most 38 per submission and 2 per reader. |
| `EngineCompletion.QuiescenceIsCompletion` | src/jobs.rs:563-677 | When nothing can move, every task is done; the live jobs are as many as handlers were dropped between insertion and spawning since the process started, so every retained job is terminal if and only if there were none; submitted = dropped after numbering + succeeded + failed, the gauge is zero and every permit and lock is back. |
| `EngineCompletion.WorkCanBeFinished` | src/jobs.rs:391-549 | From every reachable state the work can be brought to its end without a new arrival, and then the set of live jobs is the set of those that were stranded already. |
| `EngineCompletion.StrandedJobsHoldPlaces` | src/jobs.rs:615-630 | Every job stranded by a dropped handler is queued and takes one of the places that max_queued bounds. |
| `EngineCompletion.StrandedForGood` | src/jobs.rs:55-66 | Whatever happens short of a restart, a stranded job stays in the table as it is. |
| `EngineCompletion.StrandedIdStaysBound` | src/jobs.rs:583-603 | While it is there, an admissible submission under its request id is reattached to it if the content is the same and refused as a conflict otherwise. |
| `EngineWitness.DisconnectStrandsJob` | src/http.rs:281 | For every configuration with a place and every admitted request there is a reachable state in which nothing can move and the job of that request is queued without a runner. |
| `EngineWitness.JobsFinish` | src/jobs.rs:391-549 | For every configuration with a place and every admitted request some reachable state has a finished job. |
| `EngineCoordination.ExecutingJobsHoldTheirLock` | src/jobs.rs:422-478 | With coordination enabled and required every job inside its executor holds the distributed lock of its own key, under the key and token its record shows. |
| `EngineWitness.ExecutionIsLockedIff` | src/jobs.rs:422-467 | Every job inside its executor holds its lock in every reachable state if and only if coordination is both enabled and required, for every configuration that serves at all. |
| `EngineWitness.UnlockedExecution` | src/config.rs:200-210 | Required but not enabled, as after a refused lock URL, or enabled but not required, some job does reach its executor without a lock. |
| `Replicas.TokensExclude` | src/jobs.rs:405-509 | Across any number of replicas, each a whole engine, two tasks inside their executors with tokens for one key are the same task when start delay, job_deadline and timer lateness together are less than lock_ttl. |
| `Replicas.ExecutingJobsExclude` | src/jobs.rs:405-509 | With coordination enabled and required on all replicas this covers every executing job, whatever the hash: two of one kind with the same image text, or profile and repository text, are the same job. |
| `ReplicaOverlap.ReplicasExcludeIff` | src/jobs.rs:405-509 | For replicas of which two serve a request under one key, this exclusion holds in every reachable state if and only if start delay, job_deadline and lateness together are less than lock_ttl. |
| `LockService.ExclusionIff` | src/jobs.rs:405-509 | The same of the lock service and its clients alone: no two executions under one key overlap in any run if and only if start delay, job_deadline and lateness together are less than lock_ttl, with late or lost releases, lost grants and processes that end. |
| `LockService.ShortLeasesOverlap` | src/jobs.rs:487-503 | For every lease that is no longer than that sum there is a run in which two executions overlap. |
| `LockKeys.SameKeyIff` | src/jobs.rs:408-421 | Two jobs share a lock if and only if they are of one kind and agree on the image text, or on profile text and repository text, provided the digests of their two repositories differ when the repositories do. |
| `LockKeys.KindsNeverCollide` | src/jobs.rs:411-418 | Image and profile keys never coincide, for any hash. |
| `ExecutorChecks.ProfileLockCanBeEscaped` | src/jobs.rs:412-416 | For every accepted profile job and every hash there is another accepted request that executes the same and goes by another key: the key takes the profile as submitted, validation and execution trim it. |
| `ExecutorChecks.PaddedProfileRunsTheSame` | src/validation.rs:278-304 | A blank after the profile name changes neither whether a request is accepted nor what is executed. |
| `LockClient.AcquireLock` | src/fiducia.rs:137-193 | The retry loop ends at the first reply that is a grant or refuses the credential or comes past the budget, and not before; its outcome is the fold of the replies up to that one, which the next two rows read; disabled coordination makes no call. |
| `LockClient.OutcomesExplained` | src/fiducia.rs:110-190 | On the replies themselves: acquired exactly if some reply is a 2xx with a numeric token, snake case first, and neither acquired nor ok false, and then for the caller's key and holder under that token; busy for the caller's key exactly if every reply is any other 2xx, a 409 or a 423; unavailable at once on a 401 or 403, and unavailable otherwise. |
| `LockClient.LastTroubleExact` | src/fiducia.rs:147-185 | The error reported is the one of the last attempt that got no reply or any other status. |
| `LockClient.AttemptsAreBounded` | src/fiducia.rs:146-192 | At most ceil(budget / retry) + 1 attempts. |
| `LockClient.EndsOnTime` | src/fiducia.rs:85-86 | With calls cut off at ten seconds and sleeps at most L late, the loop takes less than budget + retry + L + 10 s. |
| `Persistence.UpsertIsFullWrite` | src/db.rs:84-104 | The column-subset upsert amounts to a full write if and only if the columns it leaves out did not change. |
| `EngineDurability.RowsMirrorLastWrites` | src/db.rs:56-104 | In every reachable state each row, read column by column, shows the last snapshot of its job that reached the database: the columns that repeat the request show its parts, the status text its status, and the token read unsigned its 64 bits. |
| `EngineDurability.RowTellsLife` | src/db.rs:56-104 | Over every run each row of the process shows, column by column, the record that the life of its job leaves after some number of events. |
| `EngineDurability.RowsMoveForward` | src/jobs.rs:40-45 | No event, restart or recovery removes a row, changes its submission columns or moves its status backwards; terminal rows stay as they are. |
| `EngineDurability.TerminalRowIsFinal` | src/db.rs:106-135 | A terminal row never changes again in the rest of the run, over any number of restarts. |
| `EngineDurability.RecoveryIsComplete` | src/db.rs:106-135 | A recovery that goes through leaves no queued or running row; each such row becomes failed with the restart error and time, the others stay. |
| `EngineRecovery.RecoveryKeepsOutcomeIff` | src/db.rs:106-135 | Over every run, recovery reports the outcome that a job with a row had in memory if and only if the write of its terminal record went through since the process started; otherwise its row was still queued or running and becomes the restart failure, also for a job that succeeded. |
| `EngineRecovery.SuccessRecordedAsFailed` | src/jobs.rs:39-45 | For every configuration with a database and a place and every admitted request there is a run in which its job succeeds and the next process records it as failed. |
| `ServerState.AppState.UpdateJob` | src/jobs.rs:26-46 | Changes one record, then persists and publishes that snapshot, in this order; a missing id changes nothing. |
| `ServerState.AppState.PruneJobs` | src/jobs.rs:48-73 | The collecting, sorting, removing and retaining loops compute an exact prune and cut the ids down to the claims of the jobs that stay. |
| `ServerState.AppState.RemoveOldest` | src/jobs.rs:55-66 | The first half: exactly the oldest finished jobs go. |
| `ServerState.AppState.RetainedRequestIds` | src/jobs.rs:68-71 | The collecting loop yields the cleaned request ids of the retained jobs. |
| `Pruning.PrefixIsPruned` | src/jobs.rs:56-65 | Removing the first len - max of the finished jobs in order of age is an exact prune. |
| `Pruning.SortIsSorted` | src/jobs.rs:61 | The sort is a permutation in order of age. |
| `ServerState.AppState.FindByRequestId` | src/jobs.rs:585-593 | The scan finds a job with the cleaned id if and only if there is one. |
| `ServerState.AppState.CountQueued` | src/jobs.rs:616-620 | The loop counts the queued jobs. |
| `ServerState.AppState.EnqueueBuild` | src/jobs.rs:563-677 | Run alone, a submission gets the one answer its request, the table and the limits determine, and acceptance numbers, inserts, claims, persists and prunes exactly once a record that is given field by field; a refusal changes only the rejected counter and claims without a job. |
| `ServerState.AppState.RunJob` | src/jobs.rs:391-549 | Run alone, a job ends with the record, the row, the counters and the complete history that lock outcome, executor result and database demand, and the permit is back. |
| `ServerState.RunJobTellsLife` | src/jobs.rs:391-549 | The record that `RunJob` leaves is the one that the interleaved engine leaves to a job that is answered the same. |
| `ServerState.RunJobBalances` | src/jobs.rs:433-548 | Its counters keep the balance of the engine: counted once as succeeded, exactly if neither lock service nor executor refused, or as failed, and every failure or tolerated lock failure with its cause. |
| `ServerState.LockStageFollowsEngine` | src/jobs.rs:422-467 | The lock stage of `RunJob` decides on every answer as the engine does. |
| `ServerState.AppState.PublishLifecycle` | src/events.rs:94-121 | An event always, a result when terminal, a critical event when failed, in this order. |
| `Substitution.PassesAreSimultaneous` | src/webhooks.rs:93-110 | For every template and ref and every sha that passes the gate, the three successive replacements equal one simultaneous left-to-right substitution. |
| `Substitution.PassIsRule` | src/webhooks.rs:98-101 | In general one more replacement pass is one more simultaneous rule whenever the values inserted before are inert for its placeholder. |
| `Substitution.PassesAgreeIff` | src/webhooks.rs:93-110 | For every text of hexadecimal digits the passes equal the substitution for all templates and refs if and only if it is not empty and part of neither later placeholder; that excludes five texts, none of which passes the gate. |
| `Substitution.TemplateReads` | src/webhooks.rs:93-102 | A template around the three placeholders becomes its text with the whole sha, the first twelve characters of it, and the ref in their places. |
| `Webhooks.DeliveredRequest` | src/webhooks.rs:146-175 | A delivery that gets through the gate asks for what its first matching rule and itself say, field by field: the repository of the delivery, its ref without the branch prefix, the rule's profile, paths, push, deploy and executor, the kind that these demand, and no image if the rule has none, otherwise the simultaneous substitution of sha and ref into the rule's template. |
| `Webhooks.DeliveryIsTakenIff` | src/webhooks.rs:104-110 | A delivery becomes a build if and only if it is actionable, names a repository, its commit is 7 to 64 hexadecimal digits and some rule matches. |
| `Webhooks.RuleMatchesExact` | src/webhooks.rs:112-144 | A rule matches exactly if the repository names differ in case at most, the event is one of the rule's or a push where it names none, and the ref is a branch, bare or under refs/heads/, that the rule does not exclude, or a tag where it wants tags. |
| `Shell.PrintedCommandReadsBackIff` | src/exec.rs:16-32 | Tokenising the printed command line by sections 2.2.1 and 2.2.2 of the Shell Command Language gives back program and arguments if and only if none of them is empty. |
| `Shell.PrintedWordsReadBack` | src/exec.rs:26-32 | For all words, tokenising gives exactly the words that are not empty, in order. |
| `Redaction.RedactedBuildArgs` | src/exec.rs:34-50 | The flag-driven loop masks exactly the words that follow the option. |
| `Redaction.AssembleBuildArgs` | src/jobs.rs:275-290 | The assembled line word by word: namespace, Dockerfile and image after their options, one --build-arg and one word per build argument, in order, that splits at its first '=' into exactly its key and value, and the context last. |
| `Redaction.RedactionByParts` | src/exec.rs:34-50 | Prefix, pairs and context become prefix, masked pairs and context whenever keys have no '=' and the prefix leaves the flag off. |
| `Redaction.LoggedWordsExact` | src/jobs.rs:275-299 | For an accepted request the logged words are prefix, masked pairs and context if and only if the configured namespace is not the option itself. |
| `Redaction.ValuesNeverReachTheLog` | src/jobs.rs:275-299 | Two accepted requests that differ only in build-argument values log the same build command line, for every namespace. |
| `Validation.AcceptedKeys` | src/validation.rs:157-176 | Accepted build-argument keys are not empty and contain no '='. |
| `CappedLog.LogFile.Append` | src/exec.rs:52-74 | An append leaves the first max_log_bytes bytes of old content plus message. |
| `CappedLog.LogFile.AppendAll` | src/exec.rs:76-101 | Any sequence of appends leaves exactly the first max_log_bytes bytes of the old content and the concatenation. |
| `CappedLog.TwoReadersAtMostDouble` | src/exec.rs:199-214 | With the two readers of a command racing between length check and write, length plus pending writes never exceeds twice the limit. |
| `CappedLog.ReadersAtMostMultiply` | src/exec.rs:52-74 | With any number of readers the bound is that multiple of the limit. |
| `CappedLog.DoubleIsReached` | src/exec.rs:199-214 | The bound of two is reached by a run. |
| `SecretSync.SkippingRefinesSending` | src/gh_secrets.rs:277-412 | Over any sequence of passes and value changes the remote store is the same as if every value were always sent, failed audit reads and PUTs included, as long as no audit row of a change is lost, row times increase and the hash tells the values at hand apart. |
| `SecretSync.SkippingRefinesSendingFromScratch` | src/gh_secrets.rs:277-412 | In particular from an empty audit table, whatever the remote store holds at first. |
| `SecretSync.StepKeepsTruthIff` | src/gh_secrets.rs:335-402 | A step leaves the newest audit row describing the remote value if and only if it does not lose the row of a PUT that changed it. |
| `SecretSync.SendingGoesOnIff` | src/gh_secrets.rs:335-402 | After any history, whatever rows it lost, every later history that loses none of its own leaves the remote store as if every value had been sent if and only if, for each secret, the last PUT kept its audit row or changed nothing; without a database always. |
| `SecretSync.LostRowKeepsOldValue` | src/db.rs:212-231 | A lost audit row is not harmless: setting a value back is then skipped and the store keeps the other value. |
| `SecretSync.Syncer.SyncAll` | src/gh_secrets.rs:289-411 | The nested loops over rules and secrets leave the store and report the outcomes that the specification of a pass gives. |
| `SecretSync.PassReports` | src/gh_secrets.rs:277-412 | A pass reports one outcome for every configured secret, in order: a failure where the repository gives no public key, and otherwise what its step did to the remote store and to the audit table, and why. |
| `SecretSync.LastSyncedAppend` | src/db.rs:194-210 | The newest counting row of a secret is the one written last, when row times increase. |
| `Validation.ValidateRelativePath` | src/validation.rs:106-148 | The component loop computes the specified clean path or the first refusal. |
| `Validation.RelativePathExact` | src/validation.rs:106-148 | A path is accepted exactly if it is not blank, relative, at most 240 bytes, and none of its parts is '..' or has an unsupported character; what is accepted are its named parts in their order, or the current directory. |
| `Text.SplitJoins` | src/validation.rs:119 | The parts of a path have no separator and make up the text again when joined. |
| `Text.TrimExact` | src/validation.rs:11-16 | Cleaning takes the whitespace off both ends, all of it and nothing else. |
| `Admission.AcceptedIff` | src/validation.rs:257-348 | A request is accepted if and only if it meets every one of the stated conditions on schema, repository, subject, texts, files, executor, push and deployment, in whatever order they are checked. |
| `Validation.RelativePathStaysInside` | src/validation.rs:119-147 | A validated path is the current directory or a list of ordinary names without separators, parent parts, ',', '=', ':' or control characters. |
| `PlainBuild.PlainBuildIsAccepted` | src/validation.rs:257-348 | Every image build with only the required fields is accepted when its https repository and digest-pinned image are within the allowlists. |
| `ExecutorChecks.AcceptedRequestsExecute` | src/jobs.rs:129-361 | For every configuration and accepted request no executor reaches its missing-profile, path, image, non-ECR or rollout errors or the unreachable arm, and its plan is of the executor that the record names and stays within repository and allowlists. |
| `ExecutorChecks.PlansFollowRequests` | src/jobs.rs:129-361 | Whatever plan an executor goes on with takes profile, context, Dockerfile, registry, namespace, flag, path and rollout from the fields of the request that name them. |
| `ExecutorChecks.ExecutingJobsPassTheirChecks` | src/jobs.rs:485-498 | In every run, every job that reaches its executor is given, by the executor of its record, a plan within these limits; the lambda one only where it is enabled. |

## Left out

- EngineSafety.SubmissionsAreConserved: counters are unbounded numbers, so the wrap-around of the 64-bit atomics after 2^64 updates is not modelled.
- EngineDurability.RowsMirrorLastWrites: times are milliseconds; the replacement of a time that Postgres cannot represent by the current one (`src/db.rs:41-45`) is not modelled.
- EngineDurability.RecoveryIsComplete: one process at a time, because recovery does not look at who owns a row; several replicas booting against one database are not modelled.
- EngineProgress.NoDeadlock: the waiting queues of the library's locks are not modelled; that holders of table guards and first waiters can always move (`TableHolderCanMove`, `FirstWaiterCanMove`) covers every order of service, starvation under an unfair one is left open.
- CappedLog.LogFile.Append: writes finish before the append returns; lossy decoding of output and the file library's background writes are not modelled.
- Shell.PrintedCommandReadsBackIff: word splitting and the two quoting rules only; assignments, reserved words and other later uses of words are not modelled.
- LockClient.AcquireLock: error texts are reduced to the text of the reply that caused them; the idempotency leases of `src/fiducia.rs:212-269` are not modelled.
- Replicas.TokensExclude: one clock for service and replicas; a child process that outlives the drop of its executor is not modelled, and each replica has a database of its own.
- ExecutorChecks.AcceptedRequestsExecute: git, nerdctl, kubectl, symlink resolution, ECR login and the lambda call succeed; the fixed profile tables and their step directories are not modelled.
- Validation.ValidateRelativePath: messages that quote a value in debug form are shortened.
- The closed-semaphore branch of `src/jobs.rs:394-402`: the semaphore is never closed.
- HTTP routing, authentication, metrics, rule parsing, delivery deduplication, hosted CI and artifact handling: plumbing and case tables.
- JSON decoding, environment reading, cryptography and AWS request signing: library code; typed requests and a fixed configuration are taken instead.
- Publishing and persistence without a configured NATS or database are calls without effect; the counters of published messages are left out.
