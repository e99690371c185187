/** What a sync pass guarantees, proved about the functions of `Sync`: the
    conflict policy, the effect of one reply on the two tables, and the
    accounting, error list, queue and task table after a whole pass. */
module SyncProperties {
  import opened Domain
  import opened Database
  import opened Batching
  import opened Tasks
  import opened Sync

  // ---------------------------------------------------------------------------
  // Conflict resolution

  /** The winner is one of the two copies and carries the later timestamp. */
  lemma ResolveLatestWins(local: Task, server: Task)
    ensures var w := ResolveConflict(local, server);
      (w == local || w == server)
      && w.updatedAt >= local.updatedAt && w.updatedAt >= server.updatedAt
  {
  }

  /** With distinct timestamps the policy does not depend on which copy is
      called local; on a tie it does: the second argument (the server) wins. */
  lemma ResolveOrder(a: Task, b: Task)
    ensures a.updatedAt != b.updatedAt ==> ResolveConflict(a, b) == ResolveConflict(b, a)
    ensures a.updatedAt == b.updatedAt ==> ResolveConflict(a, b) == b && ResolveConflict(b, a) == a
  {
  }

  /** The row a resolved conflict leaves: the local row with the winner's
      title, description and completed flag, stamped with the clock and
      marked pending again even when the server's copy won. */
  lemma ResolvedRow(local: Task, server: Task, now: int)
    ensures var t := Merge(local, PatchOf(ResolveConflict(local, server)), now);
      t.id == local.id && t.isDeleted == local.isDeleted && t.createdAt == local.createdAt
      && t.updatedAt == now && t.syncStatus == Pending
      && (local.updatedAt > server.updatedAt ==>
            t.title == local.title && t.description == local.description && t.completed == local.completed)
      && (local.updatedAt <= server.updatedAt ==>
            t.title == server.title && t.description == server.description && t.completed == server.completed)
  {
    MergeWholeTask(local, ResolveConflict(local, server), now);
  }

  // ---------------------------------------------------------------------------
  // One accepted reply

  /** The ids a list of processed items names. */
  function ClientIds(items: seq<Processed>): (ids: set<string>)
    ensures forall p :: p in items ==> p.clientId in ids
  {
    set p | p in items :: p.clientId
  }

  /** The ids of the conflict items in the list. */
  function ConflictIds(items: seq<Processed>): (ids: set<string>)
    ensures forall p :: p in items && p.status == Conflict ==> p.clientId in ids
  {
    set p | p in items && p.status == Conflict :: p.clientId
  }

  /** The item throws: a conflict whose local task is missing or soft-deleted,
      or which carries no resolved copy. */
  predicate FailsAt(tasks: map<string, Task>, processed: Processed)
  {
    processed.status == Conflict && (GetTask(tasks, processed.clientId).None? || processed.resolvedData.None?)
  }

  /** The index of the first item that throws, or the number of items. */
  function FirstFailure(tasks: map<string, Task>, items: seq<Processed>): (f: nat)
    ensures f <= |items|
    ensures forall i :: 0 <= i < f ==> !FailsAt(tasks, items[i])
    ensures f < |items| ==> FailsAt(tasks, items[f])
  {
    if items == [] then 0
    else if FailsAt(tasks, items[0]) then 0
    else 1 + FirstFailure(tasks, items[1..])
  }

  /** Two task tables with the same rows visible to `getTask`. */
  ghost predicate SameVisible(t1: map<string, Task>, t2: map<string, Task>)
  {
    t1.Keys == t2.Keys && forall id :: id in t1 ==> t1[id].isDeleted == t2[id].isDeleted
  }

  lemma {:induction false} FirstFailureVisible(t1: map<string, Task>, t2: map<string, Task>, items: seq<Processed>)
    requires SameVisible(t1, t2)
    ensures FirstFailure(t1, items) == FirstFailure(t2, items)
    decreases |items|
  {
    if items != [] {
      assert GetTask(t1, items[0].clientId).None? == GetTask(t2, items[0].clientId).None?;
      FirstFailureVisible(t1, t2, items[1..]);
    }
  }

  lemma ClientIdsCons(x: Processed, s: seq<Processed>)
    ensures ClientIds([x] + s) == {x.clientId} + ClientIds(s)
    ensures ConflictIds([x] + s) == (if x.status == Conflict then {x.clientId} else {}) + ConflictIds(s)
  {
    assert forall p :: p in [x] + s <==> p == x || p in s;
  }

  /** The write a resolved conflict makes keeps the table's keys and what
      `getTask` sees, and touches only the row named by the item. */
  lemma ConflictWriteKeeps(tasks: map<string, Task>, id: string, server: Task, now: int)
    requires KeysMatch(tasks) && GetTask(tasks, id).Some?
    ensures var local := GetTask(tasks, id).value;
      var after := tasks[local.id := Merge(local, PatchOf(ResolveConflict(local, server)), now)];
      local.id == id && KeysMatch(after) && SameVisible(tasks, after)
      && forall other :: other in tasks && other != id ==> after[other] == tasks[other]
  {
  }

  /** Processing an accepted reply deletes the queue rows named by the items
      before the first one that throws, and no others; the batch fails exactly
      when some item throws, with the message of that item. */
  lemma {:induction false} ApplyItemsQueue(tasks: map<string, Task>, queue: seq<QueueItem>, items: seq<Processed>, now: int)
    requires KeysMatch(tasks)
    ensures var e := ApplyItems(tasks, queue, items, now);
      var f := FirstFailure(tasks, items);
      e.queue == FilterOut(queue, ClientIds(items[..f]))
      && (e.error.None? <==> f == |items|)
      && (f < |items| ==> e.error == Some(if GetTask(tasks, items[f].clientId).None?
                                           then LocalTaskMissing else ResolvedDataMissing))
    decreases |items|
  {
    var f := FirstFailure(tasks, items);
    if items == [] || FailsAt(tasks, items[0]) {
      assert items[..f] == [];
      assert ClientIds(items[..f]) == {};
      assert ApplyItems(tasks, queue, items, now).queue == queue;
      FilterOutNothing(queue);
    } else {
      var p := items[0];
      var tasks' := tasks;
      if p.status == Conflict {
        ConflictWriteKeeps(tasks, p.clientId, p.resolvedData.value, now);
        var local := GetTask(tasks, p.clientId).value;
        tasks' := tasks[local.id := Merge(local, PatchOf(ResolveConflict(local, p.resolvedData.value)), now)];
      }
      assert ApplyItems(tasks, queue, items, now) == ApplyItems(tasks', RemoveId(queue, p.clientId), items[1..], now);
      ApplyItemsQueue(tasks', RemoveId(queue, p.clientId), items[1..], now);
      FirstFailureTail(tasks, tasks', queue, items);
    }
  }

  /** After an item that does not throw, the first failure of the rest is one
      index earlier, and deleting its row first then the rows the rest names
      deletes the rows the whole list names. */
  lemma FirstFailureTail(tasks: map<string, Task>, tasks': map<string, Task>, queue: seq<QueueItem>, items: seq<Processed>)
    requires items != [] && !FailsAt(tasks, items[0]) && SameVisible(tasks, tasks')
    ensures var f := FirstFailure(tasks, items);
      var f' := FirstFailure(tasks', items[1..]);
      f == f' + 1
      && FilterOut(RemoveId(queue, items[0].clientId), ClientIds(items[1..][..f'])) == FilterOut(queue, ClientIds(items[..f]))
      && (f < |items| ==> items[1..][f'] == items[f]
                          && GetTask(tasks', items[f].clientId).None? == GetTask(tasks, items[f].clientId).None?)
  {
    var p := items[0];
    var f := FirstFailure(tasks, items);
    FirstFailureVisible(tasks, tasks', items[1..]);
    var f' := FirstFailure(tasks', items[1..]);
    assert f == f' + 1;
    var tail := items[1..][..f'];
    assert items[..f] == [p] + tail by {
      assert items[..f][0] == p && items[..f][1..] == tail;
    }
    ClientIdsCons(p, tail);
    FilterOutTwice(queue, {p.clientId}, ClientIds(tail));
  }

  /** Processing an accepted reply neither adds, removes nor un-deletes a
      task, and rewrites only tasks named by conflict items. */
  lemma {:induction false} ApplyItemsTasks(tasks: map<string, Task>, queue: seq<QueueItem>, items: seq<Processed>, now: int)
    requires KeysMatch(tasks)
    ensures var e := ApplyItems(tasks, queue, items, now);
      KeysMatch(e.tasks) && SameVisible(tasks, e.tasks)
      && forall id :: id in tasks && id !in ConflictIds(items) ==> e.tasks[id] == tasks[id]
    decreases |items|
  {
    if items != [] && !FailsAt(tasks, items[0]) {
      var p := items[0];
      var tasks' := tasks;
      if p.status == Conflict {
        ConflictWriteKeeps(tasks, p.clientId, p.resolvedData.value, now);
        var local := GetTask(tasks, p.clientId).value;
        tasks' := tasks[local.id := Merge(local, PatchOf(ResolveConflict(local, p.resolvedData.value)), now)];
      }
      assert ApplyItems(tasks, queue, items, now) == ApplyItems(tasks', RemoveId(queue, p.clientId), items[1..], now);
      ApplyItemsTasks(tasks', RemoveId(queue, p.clientId), items[1..], now);
      assert items == [p] + items[1..];
      ClientIdsCons(p, items[1..]);
    }
  }

  /** The ids one batch's reply gets deleted from the queue. */
  function BatchDeleted(tasks: map<string, Task>, response: Response): (ids: set<string>)
    ensures !Accepted(response) ==> ids == {}
  {
    if Accepted(response) then
      ClientIds(response.processedItems[..FirstFailure(tasks, response.processedItems)])
    else {}
  }

  /** A conflict item whose local task is missing or soft-deleted fails the
      whole batch: the rows named by the items before it stay deleted, its own
      row and the later ones are not deleted, the batch's full length is added
      to the failed count, and one batch error is recorded. */
  lemma MissingLocalTaskFailsBatch(p: Pass, k: nat, batch: seq<QueueItem>, remote: Remote, now: int, j: nat)
    requires KeysMatch(p.tasks)
    requires Accepted(remote(k, batch))
    requires j < |remote(k, batch).processedItems|
    requires forall i :: 0 <= i < j ==> !FailsAt(p.tasks, remote(k, batch).processedItems[i])
    requires remote(k, batch).processedItems[j].status == Conflict
    requires GetTask(p.tasks, remote(k, batch).processedItems[j].clientId).None?
    ensures var items := remote(k, batch).processedItems;
      var q := Step(p, k, batch, remote, now);
      q.queue == FilterOut(p.queue, ClientIds(items[..j]))
      && q.synced == p.synced && q.failed == p.failed + |batch|
      && q.errors == p.errors + [BatchError(LocalTaskMissing, now)]
  {
    var items := remote(k, batch).processedItems;
    ApplyItemsQueue(p.tasks, p.queue, items, now);
    assert FailsAt(p.tasks, items[j]);
    assert FirstFailure(p.tasks, items) == j;
  }

  /** A request that throws, or a reply other than 200 with `success: true`,
      deletes no queue row and writes no task; the whole batch counts as
      failed and one batch error carries the message. */
  lemma RejectedBatchFails(p: Pass, k: nat, batch: seq<QueueItem>, remote: Remote, now: int)
    requires !Accepted(remote(k, batch))
    ensures var response := remote(k, batch);
      var q := Step(p, k, batch, remote, now);
      q.tasks == p.tasks && q.queue == p.queue
      && q.synced == p.synced && q.failed == p.failed + |batch|
      && q.errors == p.errors + [BatchError(if response.Reply? then BatchSyncFailed else response.message, now)]
  {
  }

  /** An accepted reply in which no item throws counts the whole batch as
      synced, however few items it lists: the rows it names are deleted and
      every other row, of this batch or not, stays queued. */
  lemma UnlistedItemsCountAsSynced(p: Pass, k: nat, batch: seq<QueueItem>, remote: Remote, now: int)
    requires KeysMatch(p.tasks)
    requires Accepted(remote(k, batch))
    requires FirstFailure(p.tasks, remote(k, batch).processedItems) == |remote(k, batch).processedItems|
    ensures var items := remote(k, batch).processedItems;
      var q := Step(p, k, batch, remote, now);
      q.synced == p.synced + |batch| && q.failed == p.failed && q.errors == p.errors
      && q.queue == FilterOut(p.queue, ClientIds(items))
      && forall x :: x in p.queue && x.id !in ClientIds(items) ==> x in q.queue
  {
    var items := remote(k, batch).processedItems;
    ApplyItemsQueue(p.tasks, p.queue, items, now);
    assert items[..|items|] == items;
  }

  // ---------------------------------------------------------------------------
  // A run of batches

  /** Every batch's length goes to exactly one of the two counters. */
  lemma {:induction false} RunPassCounts(bs: seq<seq<QueueItem>>, k: nat, p: Pass, remote: Remote, now: int)
    ensures var r := RunPass(bs, k, p, remote, now);
      r.synced + r.failed == p.synced + p.failed + |Flatten(bs)|
    decreases |bs|
  {
    if bs != [] {
      RunPassCounts(bs[1..], k + 1, Step(p, k, bs[0], remote, now), remote, now);
    }
  }

  /** Each failed batch appends one batch error and adds between 1 and `b`
      to the failed count; nothing else touches either. */
  lemma {:induction false} RunPassErrors(bs: seq<seq<QueueItem>>, b: nat, k: nat, p: Pass, remote: Remote, now: int)
    requires forall j :: 0 <= j < |bs| ==> 1 <= |bs[j]| <= b
    ensures var r := RunPass(bs, k, p, remote, now);
      var added := |r.errors| - |p.errors|;
      p.errors <= r.errors
      && (forall i :: |p.errors| <= i < |r.errors| ==>
            r.errors[i].taskId == "" && r.errors[i].operation == "batch" && r.errors[i].timestamp == now)
      && added <= |bs|
      && added <= r.failed - p.failed <= b * added
    decreases |bs|
  {
    if bs != [] {
      var p1 := Step(p, k, bs[0], remote, now);
      RunPassErrors(bs[1..], b, k + 1, p1, remote, now);
      var r := RunPass(bs, k, p, remote, now);
      var added1 := |r.errors| - |p1.errors|;
      if |p1.errors| == |p.errors| + 1 {
        assert b * (added1 + 1) == b * added1 + b;
      }
    }
  }

  /** The batches of `bs` whose processing threw, in order. */
  function FailedBatches(bs: seq<seq<QueueItem>>, k: nat, p: Pass, remote: Remote, now: int): seq<seq<QueueItem>>
    decreases |bs|
  {
    if bs == [] then []
    else
      var threw := ProcessBatchSpec(p.tasks, p.queue, remote(k, bs[0]), now).error.Some?;
      (if threw then [bs[0]] else []) + FailedBatches(bs[1..], k + 1, Step(p, k, bs[0], remote, now), remote, now)
  }

  /** Exactly one error per failed batch, and the failed count is the total
      length of the failed batches. */
  lemma {:induction false} RunPassFailures(bs: seq<seq<QueueItem>>, k: nat, p: Pass, remote: Remote, now: int)
    ensures var r := RunPass(bs, k, p, remote, now);
      var fs := FailedBatches(bs, k, p, remote, now);
      |r.errors| == |p.errors| + |fs| && r.failed == p.failed + |Flatten(fs)|
    decreases |bs|
  {
    if bs != [] {
      var p1 := Step(p, k, bs[0], remote, now);
      RunPassFailures(bs[1..], k + 1, p1, remote, now);
      var fs := FailedBatches(bs, k, p, remote, now);
      var rest := FailedBatches(bs[1..], k + 1, p1, remote, now);
      if ProcessBatchSpec(p.tasks, p.queue, remote(k, bs[0]), now).error.Some? {
        assert fs[0] == bs[0] && fs[1..] == rest;
      } else {
        assert fs == rest;
      }
    }
  }

  /** The ids named by the accepted replies of the batches `bs`. */
  function Named(bs: seq<seq<QueueItem>>, k: nat, remote: Remote): set<string>
    decreases |bs|
  {
    if bs == [] then {}
    else
      var response := remote(k, bs[0]);
      (if Accepted(response) then ClientIds(response.processedItems) else {}) + Named(bs[1..], k + 1, remote)
  }

  /** The ids named by conflict items of the accepted replies of `bs`. */
  function ConflictNamed(bs: seq<seq<QueueItem>>, k: nat, remote: Remote): set<string>
    decreases |bs|
  {
    if bs == [] then {}
    else
      var response := remote(k, bs[0]);
      (if Accepted(response) then ConflictIds(response.processedItems) else {}) + ConflictNamed(bs[1..], k + 1, remote)
  }

  /** The ids a run of batches deletes from the queue. */
  function Deleted(bs: seq<seq<QueueItem>>, k: nat, p: Pass, remote: Remote, now: int): set<string>
    decreases |bs|
  {
    if bs == [] then {}
    else BatchDeleted(p.tasks, remote(k, bs[0])) + Deleted(bs[1..], k + 1, Step(p, k, bs[0], remote, now), remote, now)
  }

  /** One batch: the queue loses exactly the rows `BatchDeleted` names, and
      the task table keeps its keys and visibility. */
  lemma StepTables(p: Pass, k: nat, batch: seq<QueueItem>, remote: Remote, now: int)
    requires KeysMatch(p.tasks)
    ensures var q := Step(p, k, batch, remote, now);
      var response := remote(k, batch);
      q.queue == FilterOut(p.queue, BatchDeleted(p.tasks, response))
      && BatchDeleted(p.tasks, response) <= (if Accepted(response) then ClientIds(response.processedItems) else {})
      && KeysMatch(q.tasks) && SameVisible(p.tasks, q.tasks)
      && forall id :: id in p.tasks && (Accepted(response) ==> id !in ConflictIds(response.processedItems))
           ==> q.tasks[id] == p.tasks[id]
  {
    var response := remote(k, batch);
    if Accepted(response) {
      var items := response.processedItems;
      ApplyItemsQueue(p.tasks, p.queue, items, now);
      ApplyItemsTasks(p.tasks, p.queue, items, now);
      var f := FirstFailure(p.tasks, items);
      assert forall x :: x in items[..f] ==> x in items;
    } else {
      FilterOutNothing(p.queue);
    }
  }

  /** A run of batches only deletes queue rows, and only rows whose id an
      accepted reply named; it rewrites only tasks that a conflict item of an
      accepted reply named, and never adds, removes or un-deletes a task. */
  lemma {:induction false} RunPassTables(bs: seq<seq<QueueItem>>, k: nat, p: Pass, remote: Remote, now: int)
    requires KeysMatch(p.tasks)
    ensures var r := RunPass(bs, k, p, remote, now);
      r.queue == FilterOut(p.queue, Deleted(bs, k, p, remote, now))
      && Deleted(bs, k, p, remote, now) <= Named(bs, k, remote)
      && KeysMatch(r.tasks) && SameVisible(p.tasks, r.tasks)
      && forall id :: id in p.tasks && id !in ConflictNamed(bs, k, remote) ==> r.tasks[id] == p.tasks[id]
    decreases |bs|
  {
    if bs == [] {
      FilterOutNothing(p.queue);
    } else {
      var p1 := Step(p, k, bs[0], remote, now);
      StepTables(p, k, bs[0], remote, now);
      RunPassTables(bs[1..], k + 1, p1, remote, now);
      FilterOutTwice(p.queue, BatchDeleted(p.tasks, remote(k, bs[0])), Deleted(bs[1..], k + 1, p1, remote, now));
    }
  }

  /** Batches are independent runs: the pass over `a + b` is the pass over
      `a` followed by the pass over `b`, so a failed batch never stops the
      batches after it. */
  lemma {:induction false} RunPassAppend(a: seq<seq<QueueItem>>, b: seq<seq<QueueItem>>, k: nat, p: Pass, remote: Remote, now: int)
    ensures RunPass(a + b, k, p, remote, now) == RunPass(b, k + |a|, RunPass(a, k, p, remote, now), remote, now)
    decreases |a|
  {
    if a != [] {
      assert (a + b)[0] == a[0] && (a + b)[1..] == a[1..] + b;
      RunPassAppend(a[1..], b, k + 1, Step(p, k, a[0], remote, now), remote, now);
    } else {
      assert a + b == b;
    }
  }

  // ---------------------------------------------------------------------------
  // A whole pass

  /** `synced_items + failed_items` is the length of the snapshot. */
  lemma SyncCounts(tasks: map<string, Task>, queue: seq<QueueItem>, batchSize: nat, remote: Remote, now: int)
    requires batchSize >= 1
    ensures var r := ResultOf(SyncPass(tasks, queue, batchSize, remote, now));
      r.syncedItems + r.failedItems == |queue|
  {
    RunPassCounts(Batches(queue, batchSize), 0, Pass(tasks, queue, 0, 0, []), remote, now);
    BatchesFlatten(queue, batchSize);
  }

  /** The pass succeeds exactly when no batch failed, i.e. when the error list
      is empty; there is exactly one error per failed batch, each a batch
      error, so at most one per batch; `failed_items` is the total length of
      the failed batches, between 1 and `batchSize` items per error. */
  lemma SyncErrors(tasks: map<string, Task>, queue: seq<QueueItem>, batchSize: nat, remote: Remote, now: int)
    requires batchSize >= 1
    ensures var r := ResultOf(SyncPass(tasks, queue, batchSize, remote, now));
      var fs := FailedBatches(Batches(queue, batchSize), 0, Pass(tasks, queue, 0, 0, []), remote, now);
      (r.success <==> fs == []) && (r.success <==> r.errors == [])
      && |r.errors| == |fs| && r.failedItems == |Flatten(fs)|
      && (forall e :: e in r.errors ==> e == BatchError(e.error, now))
      && |r.errors| <= (|queue| + batchSize - 1) / batchSize
      && |r.errors| <= r.failedItems <= batchSize * |r.errors|
  {
    var bs := Batches(queue, batchSize);
    BatchSizes(queue, batchSize);
    BatchCount(queue, batchSize);
    RunPassErrors(bs, batchSize, 0, Pass(tasks, queue, 0, 0, []), remote, now);
    RunPassFailures(bs, 0, Pass(tasks, queue, 0, 0, []), remote, now);
    var r := ResultOf(SyncPass(tasks, queue, batchSize, remote, now));
    forall e | e in r.errors
      ensures e == BatchError(e.error, now)
    {
      var i :| 0 <= i < |r.errors| && r.errors[i] == e;
    }
  }

  /** The pass never inserts into the queue: what remains is the snapshot with
      the rows of some deleted ids removed, in order, still ordered by
      `created_at` with unique ids, and every deleted id was named as a
      `client_id` by an accepted reply. */
  lemma SyncQueue(tasks: map<string, Task>, queue: seq<QueueItem>, batchSize: nat, remote: Remote, now: int)
    requires batchSize >= 1 && KeysMatch(tasks) && WellFormedQueue(queue)
    ensures var bs := Batches(queue, batchSize);
      var p0 := Pass(tasks, queue, 0, 0, []);
      var r := SyncPass(tasks, queue, batchSize, remote, now);
      r.queue == FilterOut(queue, Deleted(bs, 0, p0, remote, now))
      && Deleted(bs, 0, p0, remote, now) <= Named(bs, 0, remote)
      && WellFormedQueue(r.queue)
  {
    var bs := Batches(queue, batchSize);
    var p0 := Pass(tasks, queue, 0, 0, []);
    RunPassTables(bs, 0, p0, remote, now);
    FilterOutWellFormed(queue, Deleted(bs, 0, p0, remote, now));
  }

  /** The pass keeps every task id and deletion flag, and changes only tasks
      named by conflict items of accepted replies. */
  lemma SyncTasks(tasks: map<string, Task>, queue: seq<QueueItem>, batchSize: nat, remote: Remote, now: int)
    requires batchSize >= 1 && KeysMatch(tasks)
    ensures var bs := Batches(queue, batchSize);
      var r := SyncPass(tasks, queue, batchSize, remote, now);
      KeysMatch(r.tasks) && SameVisible(tasks, r.tasks)
      && forall id :: id in tasks && id !in ConflictNamed(bs, 0, remote) ==> r.tasks[id] == tasks[id]
  {
    RunPassTables(Batches(queue, batchSize), 0, Pass(tasks, queue, 0, 0, []), remote, now);
  }
}
