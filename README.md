# SaveManager, modelled in Dafny

A model of the Unity save manager's core: the static `SaveManager` class, the
`SavedGameMetadata` record and the `AsyncActionHelper` game-thread buffer.

- `Common`: nullable values (`Option`), results, and the exceptions the code
  throws, by kind and parameter name.
- `Metadata`: `SavedGameMetadata` as a class with its four mutable fields. Its
  four throwing constructors become factory methods that return either the
  fresh object or the `ArgumentException` for a missing file name.
- `Sorting`: `SortMetadata`. LINQ's stable `OrderBy`/`OrderByDescending` is a
  stable insertion sort keyed by the mode. The result is proved ordered, a
  permutation of the input, and stable: for every key value, the elements
  with that key keep their input order.
- `Paths`: the saves folder, the `.save`/`.meta` sibling pair, and the raw
  prefixing done by `SaveData`, `LoadData`, `LoadDataMultiple` and
  `DeleteData`. `LoadData` is the one that inserts a separator, so for the
  same argument it builds a different path string than `SaveData` does. That
  is stated as `Paths.LoadDataPath`'s contract; whether the two strings name
  the same file (they do when the argument itself starts with a separator)
  is up to the file system and not modelled.
- `Dispatch`: the asynchronous engine as a state machine over explicit
  events.
  - The state is the worker slot (null, busy, or not busy) and the FIFO
    queue.
  - A submission keeps the guards every `*Async` method opens with.
  - A completion runs the two `RunWorkerCompleted` handlers in subscription
    order: first the shared handler of `InitializeBackgroundWorker`, then the
    operation's own.
  - Runs over sequences of events record which requests started and which
    actions were posted.
  - The lemmas show what the guards do (see Findings). They also prove the
    FIFO drain of a corrected completion.
- `ActionHelper`: `AsyncActionHelper` as a class. `RunInGameThread` appends
  and raises the flag. `Update` takes the whole batch, clears the list, lowers
  the flag and runs the batch in order. An action that throws ends the batch.
  The flag is set exactly when actions are pending, and every method keeps
  that invariant.
- `Manager`: `SaveManager` as a class.
  - Its static state (async flag, sort mode, worker slot, queue) becomes
    fields.
  - Each public method checks its arguments in the source's order, builds
    the source's paths, then either submits a request (async) or performs the
    job in line and calls back (sync).
  - `trace` records each job performed and each callback called in line.
  - What the file system returns is a parameter: `io` in sync mode, the job's
    outcome given to `WorkerCompleted` in async mode.

## Model

| member | source | states |
|---|---|---|
| Metadata.SavedGameMetadata.Assign | SaveManager/Assets/SaveManager/Scripts/SavedGameMetadata.cs:16-30 | the fields a constructor assigns get the given values; `timeStamp` keeps its default |
| Metadata.New | SaveManager/Assets/SaveManager/Scripts/SavedGameMetadata.cs:37-48 | fails with `ArgumentException("savedGameFileName")` exactly when the name is null or empty; otherwise a fresh object with that name, slot 0, zero play time and the default time stamp |
| Metadata.NewWithTimePlayed | SaveManager/Assets/SaveManager/Scripts/SavedGameMetadata.cs:57-69 | the same check; on success the name and play time given, slot 0, default time stamp |
| Metadata.NewWithSlot | SaveManager/Assets/SaveManager/Scripts/SavedGameMetadata.cs:77-89 | the same check; on success the name and slot given, zero play time, default time stamp |
| Metadata.NewWithTimePlayedAndSlot | SaveManager/Assets/SaveManager/Scripts/SavedGameMetadata.cs:99-112 | the same check; on success the name, play time and slot given, default time stamp |
| Sorting.Insert | SaveManager/Assets/SaveManager/Scripts/SaveManager.cs:730-738 | inserting adds exactly the new element: the result's multiset is the old one plus it |
| Sorting.SortByKey | SaveManager/Assets/SaveManager/Scripts/SaveManager.cs:730-738 | the sort returns a permutation of its input |
| Sorting.InsertOrdered | SaveManager/Assets/SaveManager/Scripts/SaveManager.cs:730-738 | inserting into an ordered list keeps it ordered |
| Sorting.WithKeyInsert | SaveManager/Assets/SaveManager/Scripts/SaveManager.cs:730-738 | an inserted element lands before every element of an ordered list that has its key, so its run of equal keys gains it at the front |
| Sorting.SortByKeyOrdered | SaveManager/Assets/SaveManager/Scripts/SaveManager.cs:730-738 | the sort's result is ordered by the mode's key, ascending or descending as the mode says |
| Sorting.SortByKeyStable | SaveManager/Assets/SaveManager/Scripts/SaveManager.cs:730-738 | the sort is stable: the elements with any given key appear in their input order |
| Sorting.SortByKeyStableForEveryKey | SaveManager/Assets/SaveManager/Scripts/SaveManager.cs:730-738 | stability for all keys at once |
| Sorting.SortMetadata | SaveManager/Assets/SaveManager/Scripts/SaveManager.cs:723-740 | `None` returns the list as given. Every mode returns a permutation of its input. The modes order by non-decreasing slot, non-increasing play time, or non-increasing time stamp. Every mode is stable |
| Sorting.Key | SaveManager/Assets/SaveManager/Scripts/SaveManager.cs:731-737 | the field each mode orders by: time stamp, play time or slot |
| Sorting.Precedes | SaveManager/Assets/SaveManager/Scripts/SaveManager.cs:730-738 | the order of each mode: descending by key for the two `OrderByDescending` modes, ascending for `OrderBy` |
| Paths.SavedGameRootPath | SaveManager/Assets/SaveManager/Scripts/SaveManager.cs:85-94 | the saves folder starts with the persistent data path, is 13 characters longer, and ends with the separator |
| Paths.GameDataPath | SaveManager/Assets/SaveManager/Scripts/SaveManager.cs:162-163 | a data file path starts with the saves folder, then the base name, and ends with ".save" |
| Paths.MetadataPath | SaveManager/Assets/SaveManager/Scripts/SaveManager.cs:164-165 | a metadata file path starts with the saves folder, then the base name, and ends with ".meta" |
| Paths.DataPath | SaveManager/Assets/SaveManager/Scripts/SaveManager.cs:201 | definition of the path `SaveData`, `LoadDataMultiple` and `DeleteData` build (the persistent data path followed directly by the argument); the separator difference from `LoadData` is `Paths.LoadDataPath`'s contract |
| Paths.LoadDataPath | SaveManager/Assets/SaveManager/Scripts/SaveManager.cs:391 | `LoadData`'s path is the data path of the separator followed by the argument, and never the path `SaveData` uses for the same argument |
| Paths.SiblingPaths | SaveManager/Assets/SaveManager/Scripts/SaveManager.cs:162-165 | a saved game's two files share the root and base name, differ only in the suffix, and are distinct |
| Paths.DataPathIsNeverMetadataPath | SaveManager/Assets/SaveManager/Scripts/SaveManager.cs:162-165 | no data file path equals any metadata file path |
| Paths.PathsDetermineName | SaveManager/Assets/SaveManager/Scripts/SaveManager.cs:162-165 | the data path and the metadata path each determine the base name |
| Dispatch.Submit | SaveManager/Assets/SaveManager/Scripts/SaveManager.cs:218-251 | the guards of every `*Async` method: an empty slot starts a busy worker on the request, a busy worker queues it at the back, and a worker that is no longer busy makes the call do nothing |
| Dispatch.Posted | SaveManager/Assets/SaveManager/Scripts/SaveManager.cs:746-754 | a completion posts the rethrow of a failed job first, then what the operation's handler posts |
| Dispatch.HandlerPost | SaveManager/Assets/SaveManager/Scripts/SaveManager.cs:229-240 | a write or delete posts its callback when there is one; a read posts its continuation with the result, and nothing when reading the result throws (447-457) |
| Dispatch.Complete | SaveManager/Assets/SaveManager/Scripts/SaveManager.cs:746-760 | the completion as written: the worker is no longer busy, the shared handler re-submits the head of the queue, then the operation's handler clears the slot unless it threw |
| Dispatch.CompleteFifo | SaveManager/Assets/SaveManager/Scripts/SaveManager.cs:100-105 | the corrected completion: the slot is cleared, then the oldest queued request starts |
| Dispatch.SubmitWhileBusyQueues | SaveManager/Assets/SaveManager/Scripts/SaveManager.cs:244-250 | with a busy worker, a submission goes to the back of the queue; the slot is unchanged and nothing starts |
| Dispatch.CompleteDropsDequeued | SaveManager/Assets/SaveManager/Scripts/SaveManager.cs:746-760 | a completion removes at most the head of the queue and starts nothing. The slot ends empty unless a read failed, in which case it ends stalled |
| Dispatch.QueuedRequestNeverStarts | SaveManager/Assets/SaveManager/Scripts/SaveManager.cs:756-758 | a request that is not started and not submitted again is never started, whatever events follow |
| Dispatch.AsWrittenDrainStartsNothing | SaveManager/Assets/SaveManager/Scripts/SaveManager.cs:746-760 | from a busy worker, completions start nothing; the head of the queue is discarded and the rest stays queued |
| Dispatch.StalledEngineIgnoresEverything | SaveManager/Assets/SaveManager/Scripts/SaveManager.cs:447-457 | once a failed read has left its worker in the slot, no sequence of events changes the state, starts anything or posts anything |
| Dispatch.SecondRequestIsLost | SaveManager/Assets/SaveManager/Scripts/SaveManager.cs:218-251 | two submissions and one completion leave the engine idle, with only the first request started and only its callback posted |
| Dispatch.FifoKeepsConsistent | SaveManager/Assets/SaveManager/Scripts/SaveManager.cs:100-105 | under the corrected completion the slot is never stalled, and requests wait only behind a busy worker |
| Dispatch.FifoDrainsInOrder | SaveManager/Assets/SaveManager/Scripts/SaveManager.cs:100-105 | under the corrected completion, completions alone start every queued request once, in submission order, post their notifications in that order, and end idle |
| ActionHelper.RunLength | SaveManager/Assets/SaveManager/Scripts/AsyncActionHelper.cs:39-42 | a drain runs a prefix of the batch. It runs at least one action when there is one, no action before the last one run throws, and it stops early only after a throw |
| ActionHelper.QuietBatchRunsCompletely | SaveManager/Assets/SaveManager/Scripts/AsyncActionHelper.cs:39-42 | when no action throws, the drain runs the whole batch |
| ActionHelper.RunLengthReaches | SaveManager/Assets/SaveManager/Scripts/AsyncActionHelper.cs:39-42 | the drain reaches every action that only quiet actions precede, and ends right after it if it throws |
| ActionHelper.RunLengthStopsAt | SaveManager/Assets/SaveManager/Scripts/AsyncActionHelper.cs:39-42 | the drain never runs past an action that throws |
| ActionHelper.AsyncActionHelper.constructor | SaveManager/Assets/SaveManager/Scripts/AsyncActionHelper.cs:19-24 | starts with no pending actions and the flag down |
| ActionHelper.AsyncActionHelper.RunInGameThread | SaveManager/Assets/SaveManager/Scripts/AsyncActionHelper.cs:51-58 | appends the action at the end of the pending list, raises the flag, and keeps the flag-iff-pending invariant |
| ActionHelper.AsyncActionHelper.RunAllInGameThread | SaveManager/Assets/SaveManager/Scripts/AsyncActionHelper.cs:51-58 | posting several actions appends them in order |
| ActionHelper.AsyncActionHelper.Update | SaveManager/Assets/SaveManager/Scripts/AsyncActionHelper.cs:26-44 | With the flag down nothing changes. Otherwise the actions run are exactly the batch's prefix up to the first throw, in order. Only what other threads posted meanwhile stays pending. The invariant holds after |
| Manager.SaveAndDeleteUseSamePaths | SaveManager/Assets/SaveManager/Scripts/SaveManager.cs:581-584 | deleting a saved game removes exactly the two distinct files saving it wrote |
| Manager.FailedJobIsNeverCalledBack | SaveManager/Assets/SaveManager/Scripts/SaveManager.cs:746-754 | when a job fails, its posted rethrow comes before its callback; when both reach the same `Update`, it stops at the rethrow and the callback does not run |
| Manager.DeserializeFromBytes | SaveManager/Assets/SaveManager/Scripts/Serialization.cs:50-74 | definition: an empty buffer is `ArgumentException("data")`, otherwise whatever the formatter `format` decodes (a failure when it cannot); `Manager.ReadAndDeserializeMultiple` is stated in its terms |
| Manager.ReadAndDeserializeMultiple | SaveManager/Assets/SaveManager/Scripts/SaveManager.cs:515-538 | succeeds exactly when every file deserializes, with one object per file in listing order; otherwise it fails with the error of the first file that does not |
| Manager.SaveManager.constructor | SaveManager/Assets/SaveManager/Scripts/SaveManager.cs:61-66 | async on, sort mode `None`, no worker, empty queue |
| Manager.SaveManager.SetAsync | SaveManager/Assets/SaveManager/Scripts/SaveManager.cs:33-58 | the flag takes the value given |
| Manager.SaveManager.EnqueueAction | SaveManager/Assets/SaveManager/Scripts/SaveManager.cs:765-773 | appends at the back of the queue |
| Manager.SaveManager.DispatchAsync | SaveManager/Assets/SaveManager/Scripts/SaveManager.cs:218-251 | the new state is `Dispatch.Submit` of the old one |
| Manager.SaveManager.WorkerCompleted | SaveManager/Assets/SaveManager/Scripts/SaveManager.cs:746-760 | the new state is `Dispatch.Complete` of the old one. The game thread receives `Dispatch.Posted`. An exception escapes exactly when a read failed |
| Manager.SaveManager.WorkerCompletedFifo | SaveManager/Assets/SaveManager/Scripts/SaveManager.cs:100-105 | the corrected completion: the new state is `Dispatch.CompleteFifo` of the old one, with the same posts |
| Manager.SaveManager.PerformInLine | SaveManager/Assets/SaveManager/Scripts/SaveManager.cs:207-215 | the job is performed; the callback runs exactly once, after it, when there is one and the job did not throw |
| Manager.SaveManager.ReadInLine | SaveManager/Assets/SaveManager/Scripts/SaveManager.cs:397-401 | the read is performed; the callback gets its result exactly when it did not throw |
| Manager.SaveManager.SaveGame | SaveManager/Assets/SaveManager/Scripts/SaveManager.cs:142-181 | Null metadata, then null data, throws `ArgumentNullException("savedGame")`, and nothing changes. Otherwise only the time stamp is set to now. Then either a submission of both sibling paths, or both writes in line followed by the callback |
| Manager.SaveManager.SaveGameFrom | SaveManager/Assets/SaveManager/Scripts/SaveManager.cs:131-134 | the same checks and the same effects as `SaveGame` on a new `SavedGame` of its arguments: a missing half throws and leaves the manager and the metadata untouched; otherwise the stamp is set, the other fields kept, then a submission or both writes in line followed by the callback |
| Manager.SaveManager.SaveData | SaveManager/Assets/SaveManager/Scripts/SaveManager.cs:189-216 | Null data, then a null or empty path, throws, and nothing changes. Otherwise it writes to the persistent data path followed directly by the path |
| Manager.SaveManager.LoadMetadata | SaveManager/Assets/SaveManager/Scripts/SaveManager.cs:309-337 | A null callback throws. In sync mode the callback gets the loaded metadata sorted by the mode in force. In async mode the sorting wrapper is the request's continuation |
| Manager.SaveManager.LoadSavedGame | SaveManager/Assets/SaveManager/Scripts/SaveManager.cs:344-371 | A null callback, then null metadata, throws. Otherwise the data file named by the metadata is read and paired with that metadata |
| Manager.SaveManager.LoadData | SaveManager/Assets/SaveManager/Scripts/SaveManager.cs:379-402 | A null or empty path, then a null callback, throws `ArgumentException`. Otherwise it reads the path with the separator inserted |
| Manager.SaveManager.LoadDataMultiple | SaveManager/Assets/SaveManager/Scripts/SaveManager.cs:411-434 | A null or empty root path, then a null callback, throws. Otherwise it reads the folder prefixed without a separator |
| Manager.SaveManager.DeleteAllSavedGames | SaveManager/Assets/SaveManager/Scripts/SaveManager.cs:546-561 | no checks; deletes the saves folder's files, in line or by submission |
| Manager.SaveManager.DeleteSave | SaveManager/Assets/SaveManager/Scripts/SaveManager.cs:579-599 | Null metadata fails with a null dereference, and nothing changes. Otherwise it deletes the same two paths saving wrote |
| Manager.SaveManager.DeleteSavedGame | SaveManager/Assets/SaveManager/Scripts/SaveManager.cs:569-572 | `DeleteSave` on the saved game's metadata: null fails with a null dereference; otherwise a submission of the two sibling paths, or their deletion in line followed by the callback |
| Manager.SaveManager.DeleteData | SaveManager/Assets/SaveManager/Scripts/SaveManager.cs:607-632 | A null array throws `ArgumentNullException("paths")`. Otherwise each element is rewritten in place to the persistent data path followed by its old value, and the rewritten paths are deleted |

## Left out

- File system calls (`File.*`, `Directory.*`) are not modelled. What a read
  returns or whether an operation throws is a parameter, and a performed job
  is logged in `trace`. The static constructor's `Directory.CreateDirectory`
  is not modelled.
- The binary formatter and `Serialization.cs` are not modelled.
  `Manager.DeserializeFromBytes` keeps only its empty-buffer check; whether
  other bytes decode is the parameter `format`. `SerializeAndWrite` is part
  of a performed job. `savedGamesSerializationFormat` is not modelled,
  because only the binary branch exists.
- Threads, `lock` and `volatile` are not modelled. A worker's completion and
  the game thread's `Update` are sequential steps. What other threads post
  while a batch runs is the `arrivals` parameter of `Update`.
- Unity object management in the `Async` setter and the static constructor
  is not modelled; `SetAsync` only sets the flag.
- `DateTime.Now` is the parameter `now`. `Application.persistentDataPath` and
  `Path.DirectorySeparatorChar` are the `Host` value.
- `TimeSpan` and `DateTime` are tick counts (`int`); the defaults are 0.
- User callbacks are identities and are assumed not to throw. The wrappers
  of `LoadMetadata` and `LoadSavedGame` are recorded as continuations, not
  run. In particular, the sort mode an async `LoadMetadata` wrapper uses is
  the one in force when it runs.
- A `SavedGame` is a value, so a null `SavedGame` argument (a null
  dereference in `SaveGame` and `DeleteSave(SavedGame, …)`) is not modelled.
- `LoadDataMultiple`'s `searchPattern` is taken as non-null.
- `Manager.ReadAndDeserializeMultiple` is not connected to the public
  methods: the sync-mode result of `LoadMetadata` and `LoadDataMultiple`
  (and the outcome of an async read) is the free parameter `io`, not built
  from it.
- A C# `string[]` passed to `DeleteData` may hold null elements, which the
  prefixing turns into the persistent data path itself; `array<string>`
  has no null elements, so that case is not modelled.
- The queue is a sequence; a null queue and an empty one behave alike under
  the guards.
- Manager.SaveManager.DeleteData: the submitted job holds the array's
  contents when it was submitted. In the source the worker reads the caller's
  array later, so a caller that writes to the array before the job runs
  changes what is deleted.
- ActionHelper.AsyncActionHelper.Update: running every pending action is
  proved only for batches in which no action throws
  (`ActionHelper.QuietBatchRunsCompletely`). A posted rethrow ends the batch,
  as it does in the source.

## Findings

| source | as written | input that shows it | evidently intended | confidence | as-written member | corrected member |
|---|---|---|---|---|---|---|
| SaveManager/Assets/SaveManager/Scripts/SaveManager.cs:756-758 | The shared completion handler runs first and invokes the dequeued `*Async` call. At that moment the slot still holds the finished worker, which is no longer busy, so the call takes neither branch and is dropped | `SaveData` twice in async mode, the second call while the first write is running: the first job completes and the second is never written | the queue drains in FIFO order, as the comment at lines 100-105 says | not executed | Dispatch.QueuedRequestNeverStarts | Dispatch.FifoDrainsInOrder |
| SaveManager/Assets/SaveManager/Scripts/SaveManager.cs:449 | When the read job failed, `args.Result` rethrows in the read's completion handler. `backgroundWorker = null` is then never reached, and every later `*Async` call sees a non-busy worker and does nothing | `LoadMetadata` in async mode with an empty `.meta` file (deserialization throws): no later asynchronous save, load or delete ever runs | the slot is cleared after every completion, failed or not | not executed | Dispatch.StalledEngineIgnoresEverything | Dispatch.FifoKeepsConsistent |
