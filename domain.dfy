/** Records shared by the local task store and the sync engine: tasks, rows of
    the sync queue, the remote's batch response and the result of a sync pass.
    Timestamps are integers (milliseconds of a monotone clock) rather than
    ISO-8601 strings; comparing them is comparing the instants they denote. */
module Domain {

  datatype Option<T> = None | Some(value: T)

  /** A thrown `Error` becomes `Err` carrying its message. */
  datatype Result<T> = Ok(value: T) | Err(message: string)

  /** A SQL text column: `Null` is what a JavaScript `undefined` or `null` is stored as. */
  datatype Text = Null | Str(chars: string)

  datatype SyncStatus = Pending | Synced

  datatype Task = Task(
    id: string,
    title: Text,
    description: Text,
    completed: bool,
    isDeleted: bool,
    createdAt: int,
    updatedAt: int,
    syncStatus: SyncStatus)

  /** The keys of a `Partial<Task>` that an update persists. `None` means the
      key is absent from the object; `Some(Null)` means it is present with the
      value `undefined` (object spread copies such a key too). */
  datatype TaskPatch = TaskPatch(
    title: Option<Text>,
    description: Option<Text>,
    completed: Option<bool>)

  datatype Operation = Create | Update | Delete

  /** A row of the sync queue. `data` is the serialized payload, kept opaque. */
  datatype QueueItem = QueueItem(
    id: string,
    taskId: string,
    operation: Operation,
    data: string,
    createdAt: int,
    retryCount: int)

  /** The status of one processed item; every status other than "conflict"
      is handled alike, so one constructor stands for all of them. */
  datatype ItemStatus = Acknowledged | Conflict

  /** One entry of `processed_items` in the remote's reply. */
  datatype Processed = Processed(
    clientId: string,
    status: ItemStatus,
    resolvedData: Option<Task>)

  /** What posting one batch yields: the request threw (network failure,
      timeout or a status the HTTP client rejects), or an HTTP reply. */
  datatype Response =
    | TransportFailure(message: string)
    | Reply(status: int, success: bool, processedItems: seq<Processed>)

  datatype SyncError = SyncError(
    taskId: string,
    operation: string,
    error: string,
    timestamp: int)

  datatype SyncResult = SyncResult(
    success: bool,
    syncedItems: nat,
    failedItems: nat,
    errors: seq<SyncError>)

  const TaskNotFound: string := "Task not found"
  const BatchSyncFailed: string := "Batch sync failed"
  const LocalTaskMissing: string := "Local task missing during conflict resolution"
  /** The TypeError a conflict item without `resolved_data` raises when its
      `updated_at` is read. */
  const ResolvedDataMissing: string := "Cannot read properties of undefined (reading 'updated_at')"
}
