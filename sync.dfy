/** The sync engine: one pass drains the queue snapshot in batches, posts each
    batch to the remote, applies last-writer-wins to reported conflicts and
    deletes the queue rows the reply names.

    The functions below describe a pass on values; the methods of
    `SyncService` perform it on the shared `Database` and are proved to leave
    exactly the state those functions compute. */
module Sync {
  import opened Domain
  import opened Database
  import opened Batching
  import opened Tasks

  /** The remote service: what the k-th POST of a pass, carrying `batch`,
      yields. */
  type Remote = (nat, seq<QueueItem>) -> Response

  /** Last-writer-wins: the local copy survives only when it was updated
      strictly later; on equal timestamps the server's copy wins. */
  function ResolveConflict(local: Task, server: Task): (winner: Task)
    ensures local.updatedAt > server.updatedAt ==> winner == local
    ensures local.updatedAt <= server.updatedAt ==> winner == server
  {
    if local.updatedAt > server.updatedAt then local else server
  }

  /** A reply the engine accepts: HTTP 200 with `success: true`. */
  predicate Accepted(response: Response)
    ensures Accepted(response) ==> response.Reply? && response.status == 200 && response.success
    ensures response.TransportFailure? ==> !Accepted(response)
  {
    response.Reply? && response.status == 200 && response.success
  }

  /** What processing one batch leaves behind: the two tables, and the message
      of the error it threw, if any. Rows deleted before a throw stay deleted. */
  datatype Effect = Effect(tasks: map<string, Task>, queue: seq<QueueItem>, error: Option<string>)

  /** The loop over `processed_items` of an accepted reply. A conflict item
      loads the local task by `client_id`, resolves it against `resolved_data`
      and writes the winner back; then every item deletes the queue row whose
      id is its `client_id`. A conflict item whose local task is missing or
      soft-deleted, or which carries no `resolved_data`, throws before its
      delete and ends the loop. */
  function ApplyItems(tasks: map<string, Task>, queue: seq<QueueItem>, items: seq<Processed>, now: int): Effect
    decreases |items|
  {
    if items == [] then Effect(tasks, queue, None)
    else
      var processed := items[0];
      if processed.status == Conflict then
        match GetTask(tasks, processed.clientId)
        case None => Effect(tasks, queue, Some(LocalTaskMissing))
        case Some(local) =>
          match processed.resolvedData
          case None => Effect(tasks, queue, Some(ResolvedDataMissing))
          case Some(server) =>
            var resolved := ResolveConflict(local, server);
            ApplyItems(tasks[local.id := Merge(local, PatchOf(resolved), now)],
                       RemoveId(queue, processed.clientId), items[1..], now)
      else
        ApplyItems(tasks, RemoveId(queue, processed.clientId), items[1..], now)
  }

  /** `processBatch` given the remote's response. */
  function ProcessBatchSpec(tasks: map<string, Task>, queue: seq<QueueItem>, response: Response, now: int): (e: Effect)
    ensures !Accepted(response) ==> e.tasks == tasks && e.queue == queue && e.error.Some?
    ensures response.Reply? && !Accepted(response) ==> e.error == Some(BatchSyncFailed)
  {
    match response
    case TransportFailure(message) => Effect(tasks, queue, Some(message))
    case Reply(status, success, items) =>
      if status != 200 || !success then Effect(tasks, queue, Some(BatchSyncFailed))
      else ApplyItems(tasks, queue, items, now)
  }

  /** The state of a pass between batches: the tables and the three
      accumulators of `sync`. */
  datatype Pass = Pass(
    tasks: map<string, Task>,
    queue: seq<QueueItem>,
    synced: nat,
    failed: nat,
    errors: seq<SyncError>)

  /** The error `sync` records for a failed batch. */
  function BatchError(message: string, now: int): (err: SyncError)
    ensures err.taskId == "" && err.operation == "batch"
    ensures err.error == message && err.timestamp == now
  {
    SyncError("", "batch", message, now)
  }

  /** One iteration of the loop in `sync`: the k-th batch is processed; if that
      returns, the whole batch counts as synced, and if it throws, the whole
      batch counts as failed and one error is recorded. */
  function Step(p: Pass, k: nat, batch: seq<QueueItem>, remote: Remote, now: int): Pass
  {
    Tally(p, |batch|, ProcessBatchSpec(p.tasks, p.queue, remote(k, batch), now), now)
  }

  /** The counters after a batch of `size` items whose processing had effect `e`. */
  function Tally(p: Pass, size: nat, e: Effect, now: int): (q: Pass)
    ensures q.tasks == e.tasks && q.queue == e.queue
    ensures q.synced + q.failed == p.synced + p.failed + size
    ensures e.error.None? <==> q.errors == p.errors
    ensures e.error.Some? ==> q.synced == p.synced && q.failed == p.failed + size
                              && q.errors == p.errors + [BatchError(e.error.value, now)]
  {
    if e.error.None? then Pass(e.tasks, e.queue, p.synced + size, p.failed, p.errors)
    else Pass(e.tasks, e.queue, p.synced, p.failed + size, p.errors + [BatchError(e.error.value, now)])
  }

  /** The batches `bs`, numbered from `k`, processed in order from `p`. */
  function RunPass(bs: seq<seq<QueueItem>>, k: nat, p: Pass, remote: Remote, now: int): Pass
    decreases |bs|
  {
    if bs == [] then p else RunPass(bs[1..], k + 1, Step(p, k, bs[0], remote, now), remote, now)
  }

  /** A whole pass over the snapshot `queue`. */
  function SyncPass(tasks: map<string, Task>, queue: seq<QueueItem>, batchSize: nat, remote: Remote, now: int): Pass
    requires batchSize >= 1
  {
    RunPass(Batches(queue, batchSize), 0, Pass(tasks, queue, 0, 0, []), remote, now)
  }

  /** The loop of `sync` from index `i` on, batch `k` next: the slice
      `[i, i + batchSize)` is taken while `i` is below the length. */
  function RunFrom(queue: seq<QueueItem>, i: nat, batchSize: nat, k: nat, p: Pass, remote: Remote, now: int): Pass
    requires batchSize >= 1
    decreases |queue| - i
  {
    if i < |queue| then
      RunFrom(queue, i + batchSize, batchSize, k + 1,
              Step(p, k, queue[i..Min(i + batchSize, |queue|)], remote, now), remote, now)
    else p
  }

  /** One iteration of the loop, for a batch whose processing has effect `e`. */
  lemma RunFromStep(queue: seq<QueueItem>, i: nat, nextI: nat, batchSize: nat, k: nat, nextK: nat, p: Pass,
                    batch: seq<QueueItem>, e: Effect, next: Pass, remote: Remote, now: int)
    requires batchSize >= 1 && i < |queue| && nextI == i + batchSize && nextK == k + 1
    requires batch == queue[i..Min(nextI, |queue|)]
    requires e == ProcessBatchSpec(p.tasks, p.queue, remote(k, batch), now)
    requires next == Tally(p, |batch|, e, now)
    ensures RunFrom(queue, i, batchSize, k, p, remote, now) == RunFrom(queue, nextI, batchSize, nextK, next, remote, now)
  {
  }

  /** The pass over the batches from index `i` is the k-th step on the slice
      at `i` followed by the pass over the batches from `i + batchSize`. */
  lemma RunPassFrom(queue: seq<QueueItem>, i: nat, batchSize: nat, k: nat, p: Pass, remote: Remote, now: int)
    requires batchSize >= 1 && i < |queue|
    ensures RunPass(Batches(Drop(queue, i), batchSize), k, p, remote, now)
         == RunPass(Batches(Drop(queue, i + batchSize), batchSize), k + 1,
                    Step(p, k, queue[i..Min(i + batchSize, |queue|)], remote, now), remote, now)
  {
    BatchesFrom(queue, i, batchSize);
    var bs := Batches(Drop(queue, i), batchSize);
    assert bs[0] == queue[i..Min(i + batchSize, |queue|)];
    assert bs[1..] == Batches(Drop(queue, i + batchSize), batchSize);
  }

  /** The loop visits exactly the batches `Batches` cuts from the rest of the
      snapshot. */
  lemma {:induction false} RunFromBatches(queue: seq<QueueItem>, i: nat, batchSize: nat, k: nat, p: Pass, remote: Remote, now: int)
    requires batchSize >= 1
    ensures RunFrom(queue, i, batchSize, k, p, remote, now) == RunPass(Batches(Drop(queue, i), batchSize), k, p, remote, now)
    decreases |queue| - i
  {
    if i < |queue| {
      var next := Step(p, k, queue[i..Min(i + batchSize, |queue|)], remote, now);
      RunPassFrom(queue, i, batchSize, k, p, remote, now);
      RunFromBatches(queue, i + batchSize, batchSize, k + 1, next, remote, now);
    } else {
      assert Batches(Drop(queue, i), batchSize) == [];
    }
  }

  /** The object `sync` returns. */
  function ResultOf(p: Pass): (r: SyncResult)
    ensures r.success <==> p.failed == 0
    ensures r.syncedItems == p.synced && r.failedItems == p.failed && r.errors == p.errors
  {
    SyncResult(p.failed == 0, p.synced, p.failed, p.errors)
  }

  class SyncService {
    const db: Database
    const taskService: TaskService

    ghost predicate Valid()
      reads db
    {
      taskService.db == db && db.Valid()
    }

    constructor (db: Database, taskService: TaskService)
      requires taskService.db == db
      ensures this.db == db && this.taskService == taskService
    {
      this.db := db;
      this.taskService := taskService;
    }

    /** Appends one row with retry count 0. `id` stands for the fresh UUID and
        `now` for the clock, which never runs behind a queued row. */
    method AddToSyncQueue(taskId: string, operation: Operation, data: string, id: string, now: int)
      requires Valid()
      requires forall x :: x in db.queue ==> x.id != id && x.createdAt <= now
      modifies db
      ensures Valid()
      ensures db.queue == old(db.queue) + [QueueItem(id, taskId, operation, data, now, 0)]
      ensures db.tasks == old(db.tasks)
    {
      var item := QueueItem(id, taskId, operation, data, now, 0);
      AppendWellFormed(db.queue, item);
      db.queue := db.queue + [item];
    }

    /** Posts the k-th batch and processes the reply; returns the message of
        the error it throws, or `None` when it returns normally. */
    method ProcessBatch(k: nat, batch: seq<QueueItem>, remote: Remote, now: int) returns (error: Option<string>)
      requires Valid()
      modifies db
      ensures Valid()
      ensures var e := ProcessBatchSpec(old(db.tasks), old(db.queue), remote(k, batch), now);
        db.tasks == e.tasks && db.queue == e.queue && error == e.error
    {
      var response := remote(k, batch);
      if response.TransportFailure? {
        return Some(response.message);
      }
      if response.status != 200 || !response.success {
        return Some(BatchSyncFailed);
      }
      var items := response.processedItems;
      ghost var goal := ApplyItems(db.tasks, db.queue, items, now);
      var i := 0;
      while i < |items|
        invariant 0 <= i <= |items|
        invariant Valid()
        invariant ApplyItems(db.tasks, db.queue, items[i..], now) == goal
      {
        var processed := items[i];
        assert items[i..][0] == processed && items[i..][1..] == items[i + 1..];
        if processed.status == Conflict {
          var localTask := GetTask(db.tasks, processed.clientId);
          if localTask.None? {
            return Some(LocalTaskMissing);
          }
          if processed.resolvedData.None? {
            return Some(ResolvedDataMissing);
          }
          var resolved := ResolveConflict(localTask.value, processed.resolvedData.value);
          var updated := taskService.UpdateTask(localTask.value.id, PatchOf(resolved), now);
        }
        FilterOutWellFormed(db.queue, {processed.clientId});
        db.queue := RemoveId(db.queue, processed.clientId);
        i := i + 1;
      }
      assert items[i..] == [];
      error := None;
    }

    /** One sync pass over the queue as it stands when the pass begins;
        `batchSize` is `SYNC_BATCH_SIZE` as the pass reads it. */
    method Sync(batchSize: nat, remote: Remote, now: int) returns (result: SyncResult)
      requires Valid() && batchSize >= 1
      modifies db
      ensures Valid()
      ensures var fin := SyncPass(old(db.tasks), old(db.queue), batchSize, remote, now);
        db.tasks == fin.tasks && db.queue == fin.queue && result == ResultOf(fin)
    {
      // SELECT ... ORDER BY created_at: the table is held in that order
      var queue := db.queue;
      var synced: nat, failed: nat := 0, 0;
      var errors: seq<SyncError> := [];
      ghost var fin := RunFrom(queue, 0, batchSize, 0, Pass(db.tasks, queue, 0, 0, []), remote, now);
      var i: nat, k: nat := 0, 0;
      while i < |queue|
        invariant Valid()
        invariant RunFrom(queue, i, batchSize, k, Pass(db.tasks, db.queue, synced, failed, errors), remote, now) == fin
        decreases |queue| - i
      {
        var batch := queue[i..Min(i + batchSize, |queue|)];
        ghost var before := Pass(db.tasks, db.queue, synced, failed, errors);
        ghost var e := ProcessBatchSpec(before.tasks, before.queue, remote(k, batch), now);
        var error := ProcessBatch(k, batch, remote, now);
        if error.None? {
          synced := synced + |batch|;
        } else {
          failed := failed + |batch|;
          errors := errors + [BatchError(error.value, now)];
        }
        var nextI, nextK := i + batchSize, k + 1;
        RunFromStep(queue, i, nextI, batchSize, k, nextK, before, batch, e,
                    Pass(db.tasks, db.queue, synced, failed, errors), remote, now);
        i, k := nextI, nextK;
      }
      RunFromBatches(queue, 0, batchSize, 0, Pass(old(db.tasks), queue, 0, 0, []), remote, now);
      result := SyncResult(failed == 0, synced, failed, errors);
    }
  }
}
