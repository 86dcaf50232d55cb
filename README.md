# mongodb-queue job lifecycle, in Dafny

mongodb-queue keeps a job queue in one MongoDB collection, with one document
per job. Producers `add` payloads, and each payload becomes a *waiting* job
with a priority, a visibility time and a retry ceiling. A worker's `get` takes
the eligible job that comes first in the order priority descending, then id
ascending. It marks that job *running*, counts one more try and grants a lease
until `now + lockDuration`. While the lease is live the worker may:
- `touch` the job to extend the lease;
- `progress` it to record a clamped percentage;
- `done` it to mark it *success*;
- `fail` it to record the reason. The job is then requeued at once, or marked
  *failed* for good once its tries exceed `maxRetries`.

`clean` deletes every job that is not running. `total`, `waiting`,
`inFlight`, `succeeded`, `failed` and `cancelled` count the documents that
match one filter each.

The project is organised as follows:
- `jobs.dfy` (module `Jobs`): one job document and the update each operation
  applies to it.
- `table.dfy` (module `Table`): the collection as a map from id to job,
  `get`'s selection order, `insertMany` and `clean`'s filter.
- `census.dfy` (module `Census`): the counters, and how each operation moves
  them.
- `queue.dfy` (module `MongoQueue`): the `Queue` object as a class. Its fields
  are the configured defaults, the job table and the id counter. Each method
  is one atomic store call, and its `ensures` states the new table.

Times are integer milliseconds, and `now` is a parameter wherever the source
reads the clock. An option of 0 means the option is absent, so JavaScript's
`opt || default` becomes `OrDefault`.

Two operations are modelled as their code evidently intends, not as written
(see "## Findings"):
- `fail` is modelled as one atomic step that applies the retry ceiling. As
  written, it never gets past its own guard.
- `clean` is modelled as deleting every job that is not running. As written,
  its filter is one that MongoDB refuses.

In each case the code as written is modelled beside the intended version.

## Model

| member | source | states |
|---|---|---|
| Jobs.NowPlusSecs | src/mongodb-queue.js:14-16 | the instant is exactly `secs` whole seconds after `now`, and later than `now` iff `secs > 0` |
| Jobs.OrDefault | src/mongodb-queue.js:35-38 | a non-zero option is the result, a zero option gives the default; the result is zero only when both are |
| Jobs.VisibleAfter | src/mongodb-queue.js:69-70 | a new job becomes visible at `now` when the effective delay is 0, and otherwise exactly `delay` whole seconds after `now` |
| Jobs.Clamp | src/mongodb-queue.js:216-217 | the stored progress lies in [0, 100], equals the input inside that range, and is the point of the range nearest the input |
| Jobs.Enqueued | src/mongodb-queue.js:81-95 | a new document is waiting, has no tries, no progress and no failure record, and is well-formed; it is eligible exactly from its visibility time and never leased |
| Jobs.Lease | src/mongodb-queue.js:138-146 | `get`'s update adds one try and records start and worker; the job then holds a lease exactly until `until` and is never eligible; no other field changes; well-formedness is kept |
| Jobs.Renew | src/mongodb-queue.js:187-191 | `touch`'s update makes a running job's lease live exactly until the new expiry and changes nothing else |
| Jobs.WithProgress | src/mongodb-queue.js:216-222 | `progress`'s update stores the given value when it is in [0, 100], 0 below that range and 100 above it, and changes nothing else |
| Jobs.Complete | src/mongodb-queue.js:246-251 | `done`'s update makes the job success with progress 100, after which it is never eligible or leased again; nothing else changes |
| Jobs.FailJob | src/mongodb-queue.js:277-297 | `fail`'s update records time and reason; the job is failed iff tries exceed maxRetries, keeping its `visible`, and otherwise waiting with `visible` set to now, so eligible at once; nothing else changes; well-formedness is kept |
| Jobs.RetryCeilingIgnoredAsWritten | src/mongodb-queue.js:293 | the branch reading the unstored field `maxRetires` chooses requeue for every job; reading `maxRetries` it makes FailJob's decision, so the two differ for every job past its ceiling |
| Jobs.FailUpdateRefusedAsWritten | src/mongodb-queue.js:293-298 | with `status` (and `visible`) placed beside `$set`, the update is refused for every job, while the intended update always records the failure |
| Jobs.IsEligible | src/mongodb-queue.js:130-133 | `get`'s query (and `waiting`'s at 354-357): status waiting and visible no later than now |
| Jobs.HoldsLease | src/mongodb-queue.js:182-186 | the query of `touch`, `progress`, `done` and `fail` (211-215, 241-245, 272-276): status running and visible later than now |
| Jobs.QueriesOverTime | src/mongodb-queue.js:130-133 | as time passes an eligible job stays eligible and a lease only lapses; no job matches both queries |
| Jobs.TerminalIsFinal | src/mongodb-queue.js:182-186 | a success, failed or cancelled job matches neither `get`'s query nor the lease query, so no operation except `clean`'s delete touches it again |
| Jobs.StaleJobIsStranded | src/mongodb-queue.js:317-331 | a running job whose lease has expired matches neither query from then on, since `failStaleJobs` does nothing |
| Jobs.RetriesExhaust | src/mongodb-queue.js:277-297 | a fresh job failing every round is eligible again after each of its first maxRetries rounds and leased in each; the (maxRetries+1)-th failure makes it failed; payload and ceiling are kept |
| Table.Leased | src/mongodb-queue.js:272-276 | the whole guard of `touch`, `progress`, `done` and `fail` (also 182-186, 211-215, 241-245): `_id` names a stored job that is running with `visible` later than now |
| Table.Precedes | src/mongodb-queue.js:134-137 | the sort of `get`: higher priority first, then lower id |
| Table.IsNext | src/mongodb-queue.js:148-151 | the job the sorted `findOneAndUpdate` takes: eligible and first in sort order among the eligible |
| Table.FirstEligible | src/mongodb-queue.js:130-137 | the pick among ids below `n` is eligible and precedes every other eligible job in the sort; there is no pick iff no job below `n` is eligible |
| Table.FirstEligibleIsNext | src/mongodb-queue.js:148-151 | with every id below the bound, the pick is exactly the job `get` must take, and there is none iff nothing is eligible |
| Table.NextIsUnique | src/mongodb-queue.js:134-137 | the sort order is total, so at most one job is the next for `get` |
| Table.SuccessiveGetsInOrder | src/mongodb-queue.js:134-137 | two `get`s at the same instant return different jobs; the second has lower priority, or equal priority and a larger id |
| Table.OnlyJobLeased | src/mongodb-queue.js:130-133 | once `get` has leased the only eligible job, the next `get` finds nothing |
| Table.PriorityExample | src/mongodb-queue.js:134-137 | waiting jobs of priorities 3, 5, 1 are taken as 5, then 3, then 1 |
| Table.IdSeq | src/mongodb-queue.js:116-117 | `add` reports one id per payload, in input order and strictly increasing |
| Table.Inserted | src/mongodb-queue.js:114 | `insertMany` stores exactly one document per message, the i-th one under the i-th new id |
| Table.InsertKeepsExisting | src/mongodb-queue.js:114-119 | inserting above every existing id adds exactly one document per message and changes no existing document |
| Table.InsertWellFormed | src/mongodb-queue.js:74-114 | inserting well-formed documents keeps every document well-formed and every id below the new counter |
| Table.KeepRunning | src/mongodb-queue.js:337-340 | `clean` as intended keeps exactly the running jobs, unchanged, so none is left eligible |
| Table.CleanIntendedKeepsRunning | src/mongodb-queue.js:337-340 | with `$not` over `{ $eq: 'running' }` the delete leaves exactly the running jobs, as KeepRunning states |
| Table.CleanAsWrittenKeepsFinished | src/mongodb-queue.js:338 | `$not` over the plain string 'running' is refused, so `clean` as written deletes nothing and a succeeded job survives it; the intended filter deletes that job |
| Table.FailAsWrittenChangesNothing | src/mongodb-queue.js:284-298 | for a job holding a live lease `findOne` hands over the bare document, whose `msg.value` is undefined, so `fail` as written answers an error; for any other id `msg` is null and line 286 throws (reported by the model as the same error); either way the table is unchanged |
| Table.FailAsWrittenRejectsLease | src/mongodb-queue.js:286 | a job with a live lease stays running under `fail` as written, and the update of line 298 would be refused even past the guard; the intended update moves it out of running |
| Census.Count | src/mongodb-queue.js:359-362 | `count(query)` never exceeds the number of documents |
| Census.TotalCount | src/mongodb-queue.js:342-349 | `total` is the number of documents |
| Census.WaitingCount | src/mongodb-queue.js:351-363 | `waiting` counts only waiting jobs, and is zero iff no job is eligible at `now` |
| Census.InFlightCount | src/mongodb-queue.js:365-376 | `inFlight` is at most `total` |
| Census.SucceededCount | src/mongodb-queue.js:378-389 | `succeeded` is at most `total` |
| Census.FailedCount | src/mongodb-queue.js:391-402 | `failed` is at most `total` |
| Census.CancelledCount | src/mongodb-queue.js:404-415 | `cancelled` is at most `total` |
| Census.StatusPartition | src/mongodb-queue.js:342-415 | the waiting, running, success, failed and cancelled counts add up to `total` |
| Census.CountAfterUpdate | src/mongodb-queue.js:148-151 | a one-document update moves any count by exactly what the old and the new document contribute |
| Census.GetCensus | src/mongodb-queue.js:138-151 | `get` lowers `waiting` by one, raises `inFlight` by one, and keeps `total` |
| Census.TouchProgressKeepCensus | src/mongodb-queue.js:187-222 | `touch` and `progress` change no count |
| Census.DoneCensus | src/mongodb-queue.js:246-253 | `done` moves one job from `inFlight` to `succeeded` |
| Census.FailCensus | src/mongodb-queue.js:277-297 | `fail` moves one job out of `inFlight`, into `failed` past the ceiling and into `waiting` otherwise |
| Census.CleanCensus | src/mongodb-queue.js:334-341 | after `clean` all remaining jobs are in flight, none in flight is lost, and every other job is deleted |
| Census.AddCensus | src/mongodb-queue.js:114-119 | `add` raises `total` by the number of documents inserted |
| MongoQueue.PayloadList | src/mongodb-queue.js:75-112 | the `instanceof Array` split: an array gives its payloads, anything else one payload |
| MongoQueue.Project | src/mongodb-queue.js:157-168 | the external form `get` answers: id, created, status, `visible` as lockedUntil, payload, tries, maxRetries and progress |
| MongoQueue.NewJobs | src/mongodb-queue.js:74-96 | one new document per payload, in order, each the enqueued form of its payload |
| MongoQueue.BuildMessages | src/mongodb-queue.js:74-96 | the `forEach` loop builds exactly the documents `NewJobs` describes |
| MongoQueue.Queue.constructor | src/mongodb-queue.js:23-38 | a named queue's defaults are the options, falling back to 10 s lock, no delay, 5 retries and priority 5 |
| MongoQueue.Queue.LockFor | src/mongodb-queue.js:129 | the lease length is the call's option, else the queue's; it is always positive |
| MongoQueue.Queue.Add | src/mongodb-queue.js:63-120 | an empty array is refused and nothing changes; otherwise one waiting document per payload is stored under the next ids, existing ones are kept, and those ids are returned in order |
| MongoQueue.Queue.InsertMany | src/mongodb-queue.js:114-119 | the documents are stored under consecutive new ids and the counter advances by their number |
| MongoQueue.Queue.Get | src/mongodb-queue.js:122-172 | nothing is returned iff no job is eligible, and then nothing changes; otherwise the next job in sort order is leased and its external form is returned, running, one more try, locked until now + lock |
| MongoQueue.Queue.Touch | src/mongodb-queue.js:174-206 | a live lease is extended to now + lock; any other id is NotFound and nothing changes |
| MongoQueue.Queue.Progress | src/mongodb-queue.js:208-237 | a job with a live lease stores the clamped value; any other id is NotFound and nothing changes |
| MongoQueue.Queue.Done | src/mongodb-queue.js:239-267 | a job with a live lease succeeds; any other id, a finished job included, is NotFound and nothing changes |
| MongoQueue.Queue.Fail | src/mongodb-queue.js:269-315 | a job with a live lease records the failure and is requeued or failed by its retry ceiling; any other id is NotFound and nothing changes |
| MongoQueue.Queue.Clean | src/mongodb-queue.js:334-341 | every job that is not running is deleted, running jobs are kept, and the number deleted is reported |
| MongoQueue.SingleRoundTrip | test/default.js:56-102 | add, then get, returns the payload running on its first try; the first `done` succeeds and a second `done` is refused |

## Left out

- The MongoDB client, `createIndexes` and the index it builds: storage is the `jobs` map, and each store call is one atomic step on it.
- Concurrency between workers: each operation is modelled as atomic. This includes `fail`, whose `findOne` and `findOneAndUpdate` could see different documents.
- Storage errors passed to callbacks (`if (err) return callback(err)`) are not modelled; every store call succeeds.
- ObjectIDs: ids are naturals from a counter that only grows. For one producer this matches the `_id` order in `get`'s sort.
- `queueId` is the host name and process id; here it is an opaque string given to the constructor.
- The wall clock: `now` is a parameter. All documents of one `add` share the same `created` instant.
- Payloads are opaque, of type `P`.
- The callback and optional-argument conventions, and options that are not numbers (`'bad data'`). Option values are naturals, and priority is an integer. `Progress` takes an integer, where JavaScript also admits fractions.
- MongoQueue.Queue.constructor: the check for a missing client has no counterpart, since there is no client. A missing name is a precondition.
- MongoQueue.Queue.constructor: the documents already in the collection are assumed to be well-formed and below the first new id.
- Table.FailAsWritten: when no job matches the lease query, `findOne` hands over null and reading `msg.value` at line 286 throws a TypeError inside the driver callback, so no error reaches the caller; the model reports that case as NotFound with the table unchanged.
- MongoQueue.Queue.Done: the source answers the id as a string (`'' + id`); the model answers the id itself.
- MongoQueue.Queue.Fail: the intended path answers the id as a string (`'' + id`, line 311); the model answers the id itself.
- MongoQueue.Queue.Clean: the source hands the driver's raw result to the callback; the model reports the number of deleted documents.
- `failStaleJobs` has an empty body and changes nothing. Jobs.StaleJobIsStranded states what that leaves behind.
- No operation sets the `cancelled` status. It is modelled only as a status the counters can count.
- The error message text is left out. `fail`'s messages, which say `Queue.done()`, are among them.

## Findings

| source | as written | input that shows it | evidently intended | confidence | as-written member | corrected member |
|---|---|---|---|---|---|---|
| src/mongodb-queue.js:284-292 | `fail` uses `findOne`, whose callback receives the document itself, then tests `msg.value`. For a matching job that is undefined, so `fail` reports that no such job exists and never updates; for any other id `msg` is null and line 286 throws | any id of a running job whose lease is live | record the failure, then requeue the job or fail it | high (not executed) | Table.FailAsWrittenChangesNothing, Table.FailAsWrittenRejectsLease | MongoQueue.Queue.Fail |
| src/mongodb-queue.js:293-298 | compares `tries` with the misspelt `msg.maxRetires` (undefined), so the test is always false and the requeue branch is always chosen. That branch puts `status` and `visible` beside `$set` rather than inside it, and MongoDB refuses an update mixing operators and plain fields, so the update itself is refused | a leased job with tries 6 and maxRetries 5 (branch); any leased job (update) | status `failed` once tries exceed maxRetries, else `waiting` and visible now, all inside `$set` | high (not executed) | Jobs.RetryCeilingIgnoredAsWritten, Jobs.FailUpdateRefusedAsWritten | Jobs.FailJob |
| src/mongodb-queue.js:337-340 | `clean` filters on `{ status: { $not: 'running' } }`. MongoDB refuses `$not` with a plain string, so `deleteMany` fails and nothing is deleted | a collection holding one succeeded job | delete every job whose status is not `running` | medium (not executed) | Table.CleanAsWrittenKeepsFinished | Table.CleanIntendedKeepsRunning, MongoQueue.Queue.Clean |
