# Offline task sync: a Dafny model

This project models the core of an offline-first task backend: a local task
store and the sync engine that drains its outbox to a remote server.

- **Task store** (`TaskService`): reads that hide soft-deleted rows, plus
  create, update and soft-delete. Each mutation stamps `updated_at` and
  marks the row `pending`. None of them enqueues anything.
- **Sync engine** (`SyncService`):
  - `addToSyncQueue` appends an outbox row with retry count 0.
  - `sync` takes a snapshot of the queue in `created_at` order and walks it in
    consecutive batches of `SYNC_BATCH_SIZE` items. Each batch goes through
    `processBatch`. A batch that returns counts as synced; one that throws
    counts as failed and records one `'batch'` error.
  - `processBatch` posts the batch and rejects any reply that is not
    `200`/`success`. For each processed item, a conflict is first resolved
    last-writer-wins and the winner written back through `updateTask`; then
    the queue row named by the item's `client_id` is deleted.

Modules:

- `Domain` (domain.dfy): the records — tasks, queue rows, the remote's
  reply, sync errors and results.
- `Database` (database.dfy): the two shared tables as a class with a
  `tasks` map and a `queue` sequence. It holds the invariant that the queue
  is ordered by `created_at` with unique ids, and the `DELETE` as a filter.
- `Batching` (batching.dfy): how the loop of `sync` cuts the snapshot into
  batches.
- `Tasks` (tasks.dfy): the reads as functions, the rows the three
  mutations write, and the class `TaskService` whose methods perform them on
  the database.
- `Sync` (sync.dfy): the conflict policy and a functional description of a
  pass. That description covers `ApplyItems` for the loop over one reply,
  `ProcessBatchSpec` for one batch, `Step`/`RunPass` for the batch loop and
  `SyncPass` for a whole pass. The class `SyncService` has the methods
  `AddToSyncQueue`, `ProcessBatch` and `Sync`. Each is proved to leave
  exactly the state the functions compute.
- `SyncProperties` (sync_properties.dfy): the guarantees of a pass, proved
  about those functions. They cover count conservation, one error per failed
  batch, a queue that only loses rows named by accepted replies, and tasks
  that keep their ids and deletion flags.

Environment and effects become parameters:

- The remote is a function from the call's position in the pass and the
  batch to a response (`Remote`). A `TransportFailure` stands for a request
  that threw.
- The clock is an integer `now`.
- Fresh UUIDs are id parameters with a freshness precondition.
- `SYNC_BATCH_SIZE` is a parameter of `Sync`.

### Two behaviours that are easy to misread

The model states what the code does in both cases.

- **Ties in conflict resolution.** A local-bias tie-break would keep the
  local copy when the two timestamps are equal. The code (`>` at
  src/services/syncService.ts:71) gives a tie to the server.
  `ResolveConflict` and `ResolveOrder` state the code's behaviour.
- **Conflict with a missing local task.** One might expect that queue
  entry to be deleted anyway, or to count as a single failed entry. In the
  code, the throw at src/services/syncService.ts:62 comes before the
  delete at line 66. So that entry and the later ones stay queued, the
  earlier entries of the batch stay deleted, and the whole batch counts as
  failed. `MissingLocalTaskFailsBatch` states this.

## Model

| member | source | states |
|---|---|---|
| Database.FilterOut | src/services/syncService.ts:66 | the set generalisation of `DELETE FROM sync_queue WHERE id = ?`: deleting every id of `ids` leaves exactly the rows whose id is not in `ids`, never adds a row and never lengthens the queue |
| Database.RemoveId | src/services/syncService.ts:66 | `DELETE FROM sync_queue WHERE id = ?` leaves exactly the rows whose id differs from the given one |
| Database.FilterOutTwice | src/services/syncService.ts:59-67 | deleting the ids `a` and then the ids `b` is deleting `a + b` |
| Database.RemoveIdIdempotent | src/services/syncService.ts:66 | acknowledging the same `client_id` twice deletes no more than acknowledging it once |
| Database.FilterOutWellFormed | src/services/syncService.ts:18 | deleting rows keeps the queue in `created_at` order with unique ids |
| Database.AppendWellFormed | src/services/syncService.ts:43-50 | appending a row with a fresh id and a timestamp no earlier than any queued row keeps the queue ordered with unique ids |
| Batching.Batches | src/services/syncService.ts:24-25 | defines the slices `slice(i, i + B)` for i = 0, B, 2B, … below the length; its contract: there are no batches exactly when the snapshot is empty (sizes, count and order are `BatchSizes`, `BatchCount` and `BatchesFlatten`) |
| Batching.BatchesFlatten | src/services/syncService.ts:24-25 | the batches, concatenated in order, are exactly the snapshot: consecutive, order-preserving slices that skip and repeat nothing |
| Batching.BatchSizes | src/services/syncService.ts:24-25 | every batch holds between 1 and `batchSize` items, and every batch but the last holds exactly `batchSize` |
| Batching.BatchCount | src/services/syncService.ts:24-25 | a snapshot of n rows gives ceil(n / batchSize) batches |
| Batching.BatchesFrom | src/services/syncService.ts:24-25 | the slice `[i, i + batchSize)` is the first batch of what remains from index `i` |
| Tasks.GetTask | src/services/taskService.ts:13-16 | a task is returned exactly when a row with that id exists and is not soft-deleted, and it is that row |
| Tasks.GetAllTasks | src/services/taskService.ts:8-11 | no soft-deleted row is returned |
| Tasks.AllTasksAreVisible | src/services/taskService.ts:8-16 | `getAllTasks` returns exactly the tasks `getTask` finds |
| Tasks.NewTask | src/services/taskService.ts:18-30 | a new row has the given id and title, `''` for an absent description, `completed` and `is_deleted` false, `created_at == updated_at ==` the clock, and status `pending` |
| Tasks.Merge | src/services/taskService.ts:43-52 | an update keeps the row's id, deletion flag and creation time, stamps `updated_at` with the clock and sets status `pending` |
| Tasks.SoftDeleted | src/services/taskService.ts:60-64 | a soft delete sets `is_deleted`, stamps `updated_at`, sets `pending` and keeps every other column |
| Tasks.PatchOf | src/services/syncService.ts:63-64 | a whole task passed as `updates` carries all three persisted keys |
| Tasks.TaskService.constructor | src/services/taskService.ts:6 | the service works on the database it is given |
| Tasks.TaskService.CreateTask | src/services/taskService.ts:18-38 | inserts exactly the new row under its fresh id, returns it and leaves every other row and the queue unchanged |
| Tasks.TaskService.UpdateTask | src/services/taskService.ts:40-55 | fails with "Task not found", changing nothing, exactly when the id is missing or soft-deleted; otherwise replaces only that row with the merged row |
| Tasks.TaskService.DeleteTask | src/services/taskService.ts:57-65 | fails with "Task not found", changing nothing, exactly when the id is missing or soft-deleted; otherwise replaces only that row with its soft-deleted form |
| Tasks.CreateAddsOne | src/services/taskService.ts:18-37 | after a create, `getTask` finds the new row and `getAllTasks` gains exactly that row |
| Tasks.UpdateReplaces | src/services/taskService.ts:40-55 | after an update, `getAllTasks` has the old row replaced by the new one and nothing else changed |
| Tasks.DeleteHides | src/services/taskService.ts:57-65 | after a delete, `getTask` finds nothing (so a second delete fails) and `getAllTasks` loses exactly that row |
| Tasks.MergeWholeTask | src/services/taskService.ts:43-52 | writing a whole task copies its title, description and completed flag onto the target row and nothing else but the clock and status |
| Sync.ResolveConflict | src/services/syncService.ts:70-72 | the local copy wins exactly when its `updated_at` is strictly later; otherwise the server copy wins |
| Sync.Accepted | src/services/syncService.ts:55-57 | a reply is accepted only if it is an HTTP reply with status 200 and `success` true; a request that threw is never accepted |
| Sync.ApplyItems | src/services/syncService.ts:59-67 | defines the loop over `processed_items`: a conflict item loads its local task, throws if it is missing or soft-deleted or has no `resolved_data`, otherwise writes the winner back; then every item deletes the row named by its `client_id`. No contract of its own: `ApplyItemsQueue` and `ApplyItemsTasks` state what it does to the two tables |
| Sync.ProcessBatchSpec | src/services/syncService.ts:52-58 | a request that throws, or a reply other than 200 with `success`, changes neither table and fails; a rejected reply fails with "Batch sync failed" |
| Sync.BatchError | src/services/syncService.ts:31-36 | the error a failed batch records: blank task id, operation `'batch'`, the thrown message and the clock |
| Sync.Tally | src/services/syncService.ts:26-37 | after a batch, the tables are what processing it left; its length goes to exactly one counter; the error list grows exactly when it threw, by one batch error carrying the message, and then the whole length goes to `failed` |
| Sync.Step | src/services/syncService.ts:26-37 | defines one iteration of the loop as the k-th call to the remote on the batch, processed and tallied. No contract of its own: `RejectedBatchFails`, `MissingLocalTaskFailsBatch`, `UnlistedItemsCountAsSynced` and `StepTables` state it |
| Sync.RunPass | src/services/syncService.ts:24-38 | defines a run of batches as their steps in order. No contract of its own: `RunPassCounts`, `RunPassErrors`, `RunPassFailures`, `RunPassTables` and `RunPassAppend` state it |
| Sync.SyncPass | src/services/syncService.ts:18-38 | defines a whole pass as the run over `Batches` of the snapshot from zeroed counters. No contract of its own: `SyncCounts`, `SyncErrors`, `SyncQueue` and `SyncTasks` state it |
| Sync.RunFrom | src/services/syncService.ts:24-25 | defines the indexed loop as written (`i += batchSize` while `i < queue.length`). No contract of its own: `RunFromBatches` ties it to `RunPass` |
| Sync.ResultOf | src/services/syncService.ts:40 | the returned object: `success` exactly when `failed` is 0, with the two counters and the error list of the pass |
| Sync.RunPassFrom | src/services/syncService.ts:24-25 | the batches from index `i` are the slice at `i` followed by the batches from `i + batchSize` |
| Sync.RunFromStep | src/services/syncService.ts:24-37 | one iteration of the `sync` loop is one step of the pass |
| Sync.RunFromBatches | src/services/syncService.ts:24-25 | the indexed loop of `sync` visits exactly the batches `Batches` cuts, in order |
| Sync.SyncService.constructor | src/services/syncService.ts:9-15 | the service works on the given database and task service |
| Sync.SyncService.AddToSyncQueue | src/services/syncService.ts:43-50 | appends exactly one row (fresh id, given task id, operation and payload, the clock, retry count 0); existing rows and tasks are unchanged |
| Sync.SyncService.ProcessBatch | src/services/syncService.ts:52-68 | leaves exactly the tables `ProcessBatchSpec` describes and throws exactly its error |
| Sync.SyncService.Sync | src/services/syncService.ts:17-41 | leaves exactly the tables of `SyncPass` over the snapshot and returns its result |
| SyncProperties.ResolveLatestWins | src/services/syncService.ts:70-72 | the winner is one of the two copies and its timestamp is the later one |
| SyncProperties.ResolveOrder | src/services/syncService.ts:70-72 | with distinct timestamps the policy is symmetric; on a tie the second argument (the server) wins |
| SyncProperties.ResolvedRow | src/services/syncService.ts:60-64 | a resolved conflict leaves the local row with the winner's title, description and completed flag, re-stamped and `pending` even when the server won |
| SyncProperties.ConflictWriteKeeps | src/services/syncService.ts:63-64 | writing back the winner keeps the table's keys and visibility and touches only the row named by the item |
| SyncProperties.FirstFailure | src/services/syncService.ts:59-62 | the index of the first item that throws: none before it throws, it does |
| SyncProperties.ApplyItemsQueue | src/services/syncService.ts:59-67 | an accepted reply deletes exactly the rows named by the items before the first one that throws; the batch fails exactly when some item throws, with that item's message |
| SyncProperties.ApplyItemsTasks | src/services/syncService.ts:59-67 | an accepted reply neither adds, removes nor un-deletes a task and rewrites only tasks named by conflict items |
| SyncProperties.BatchDeleted | src/services/syncService.ts:53-57 | a rejected or failed request deletes no row |
| SyncProperties.MissingLocalTaskFailsBatch | src/services/syncService.ts:59-66 | a conflict item whose local task is missing or soft-deleted fails the whole batch: earlier items stay deleted, it and later ones stay queued, one batch error is recorded |
| SyncProperties.RejectedBatchFails | src/services/syncService.ts:53-57 | a thrown request or rejected reply deletes nothing, writes no task, counts the whole batch as failed and records one batch error with the message |
| SyncProperties.UnlistedItemsCountAsSynced | src/services/syncService.ts:26-28 | an accepted reply in which no item throws adds the whole batch length to `synced`, however few items it lists; exactly the rows it names are deleted and every other row stays queued |
| SyncProperties.RunPassCounts | src/services/syncService.ts:24-38 | each batch's full length goes to exactly one of the two counters |
| SyncProperties.RunPassErrors | src/services/syncService.ts:29-37 | errors are only appended, each with operation `'batch'`, blank task id and the clock; each accounts for between 1 and `batchSize` failed items |
| SyncProperties.RunPassFailures | src/services/syncService.ts:26-37 | exactly one error per failed batch; the failed count is the total length of the failed batches |
| SyncProperties.StepTables | src/services/syncService.ts:52-68 | one batch deletes exactly the rows `BatchDeleted` names, all named by an accepted reply, and keeps task keys and visibility |
| SyncProperties.RunPassTables | src/services/syncService.ts:24-37 | a run of batches only deletes rows named by accepted replies and only rewrites tasks named by their conflict items |
| SyncProperties.RunPassAppend | src/services/syncService.ts:24-37 | the pass over `a + b` is the pass over `a` followed by the pass over `b`: a failed batch never stops the later ones |
| SyncProperties.SyncCounts | src/services/syncService.ts:24-40 | `synced_items + failed_items` is the snapshot length |
| SyncProperties.SyncErrors | src/services/syncService.ts:29-40 | `success` holds exactly when no batch failed, exactly when `errors` is empty; one batch error per failed batch, at most ceil(n / batchSize) of them; `failed_items` is the total length of the failed batches |
| SyncProperties.SyncQueue | src/services/syncService.ts:17-41 | a pass never inserts: the queue afterwards is the snapshot with rows removed, in order, still ordered with unique ids, and every removed id was named by an accepted reply |
| SyncProperties.SyncTasks | src/services/syncService.ts:17-41 | a pass keeps every task id and deletion flag and changes only tasks named by conflict items of accepted replies |

## Left out

- HTTP routes, server bootstrap and `checkConnectivity` are not modelled. They are request plumbing and a network probe with no logic.
- The route's check that `title` is present is not modelled. `CreateTask` takes a title, so a create without one (stored as NULL) is not modelled.
- The axios request and its URL are not modelled. The remote is the `Remote` parameter. Its reply depends only on the batch and its position in the pass, so the server's own state is not modelled.
- A reply whose `processed_items` is absent (which makes the loop throw) is not modelled: every reply carries a list.
- An item status other than `conflict` is not modelled separately: all of them are handled like an acknowledgement.
- The SQLite `Database` class is not part of this model. Its two tables are a map and a sequence. The payload `JSON.stringify(data)` is an opaque string.
- UUIDs are id parameters. `AddToSyncQueue` requires the id to be fresh, and `CreateTask` requires the id to be unused.
- ISO-8601 timestamps are integers from a clock that never runs behind a queued row. Ties in `created_at` keep insertion order.
- Sync: one clock reading `now` stands for every `new Date()` of a pass (conflict write-backs and error timestamps).
- Sync: requires `batchSize >= 1`. A `SYNC_BATCH_SIZE` that parses to NaN, to 0 or to a negative number is not modelled. With NaN and an empty queue nothing is posted. With NaN and a non-empty queue, one empty batch is posted and the loop ends. If that batch throws, the pass returns `success: true` with one error recorded, the one case where `success` holds although `errors` is not empty (`SyncErrors` excludes it by its precondition). With 0 or a negative size the loop never ends.
- Async interleavings are not modelled: every operation runs to completion, one after another.
- Tasks.TaskService.UpdateTask: returns the row as persisted. The source's returned object also carries any extra keys of `updates`, which the UPDATE statement does not write.
- Tasks.Merge: a `completed` key present with value `undefined` is passed as `false`, the value the UPDATE writes. A `title` or `description` key present with value `undefined` is `Some(Null)` and writes NULL.
- Tasks.GetAllTasks: returns a set. The SELECT fixes no row order, so no order is modelled.
