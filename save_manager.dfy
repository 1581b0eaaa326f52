/** The static `SaveManager` class (SaveManager.cs), as an object: its static
    state becomes fields, and its public methods become methods that check
    their arguments, then either hand a request to the background worker
    (async mode) or perform it in line and call back (sync mode).

    File system work is not modelled. A job that is performed is logged in
    `trace`. What the file system returns in sync mode is a parameter named
    `io`; in async mode it is the outcome given to `WorkerCompleted`. */
module Manager {
  import opened Common
  import opened Metadata
  import opened Paths
  import opened Dispatch
  import opened ActionHelper
  import Sorting

  /** SavedGame.cs: a metadata object and the game's data, both nullable. */
  datatype SavedGame = SavedGame(metadata: SavedGameMetadata?, gameSpecificData: Option<GameData>)

  /** What the save manager does, in order: a job performed (in line, or by
      the worker before its completion), or a callback called in line. */
  datatype Effect = Performed(job: Job) | Called(action: GameAction)

  /** A nullable `Action` callback as a continuation. */
  function Notify(callback: Option<CallbackId>): Option<Continuation>
  {
    if callback.Some? then Some(ToCaller(callback.value)) else None
  }

  // The requests the public methods build.

  function SaveGameRequest(h: Host, m: SavedGameMetadata, data: GameData, callback: Option<CallbackId>): Request
    reads m
  {
    Request(WriteSavedGame(data, m, GameDataPath(h, m.savedGameFileName), MetadataPath(h, m.savedGameFileName)),
            Notify(callback))
  }

  function DeleteSaveRequest(h: Host, m: SavedGameMetadata, callback: Option<CallbackId>): Request
    reads m
  {
    Request(DeleteFiles([GameDataPath(h, m.savedGameFileName), MetadataPath(h, m.savedGameFileName)]),
            Notify(callback))
  }

  /** Saving and deleting a saved game touch the same two files: the data
      file and the metadata file named after its base name. */
  lemma SaveAndDeleteUseSamePaths(h: Host, m: SavedGameMetadata, data: GameData, callback: Option<CallbackId>)
    ensures DeleteSaveRequest(h, m, callback).job.paths
         == [SaveGameRequest(h, m, data, callback).job.gameDataPath,
             SaveGameRequest(h, m, data, callback).job.metadataPath]
    ensures SaveGameRequest(h, m, data, callback).job.gameDataPath
         != SaveGameRequest(h, m, data, callback).job.metadataPath
  {
    SiblingPaths(h, m.savedGameFileName);
  }

  /** A failed job's completion posts a rethrow ahead of the callback. When
      both posts reach the same `Update` of the game thread, that `Update`
      runs no action posted after the rethrow, whatever was pending before
      it: as in sync mode, the caller of the failed job is not called back.
      (If an `Update` falls between the two posts, the callback runs in the
      next one; a completion is one step here.) */
  lemma {:induction false} FailedJobIsNeverCalledBack(pending: seq<GameAction>, e: Engine, err: Error)
    requires Busy(e)
    ensures RunLength(pending + Posted(e, Failed(err)), (a: GameAction) => a.Rethrow?) <= |pending| + 1
    ensures |pending + Posted(e, Failed(err))| > |pending| + 1
         ==> (pending + Posted(e, Failed(err)))[|pending| + 1].Invoke?
  {
    var batch := pending + Posted(e, Failed(err));
    assert batch[|pending|] == Rethrow(err);
    RunLengthStopsAt(batch, (a: GameAction) => a.Rethrow?, |pending|);
  }

  /** `Serialization.DeserializeFromBytes`: an empty buffer is refused before
      the binary formatter (the parameter `format`, which yields nothing for
      bytes it cannot read) is asked. */
  function DeserializeFromBytes<T>(data: seq<bv8>, format: seq<bv8> -> Option<T>): Result<T, Error>
  {
    if |data| == 0 then Failure(ArgumentError("data"))
    else if format(data).None? then Failure(DeserializationError)
    else Success(format(data).value)
  }

  /** `ReadAndDeserializeMultiple`'s loop: `files` holds the bytes of each file
      the directory listing returned, in listing order. Every file is
      deserialized in turn; the first failure is thrown and ends the loop. */
  method ReadAndDeserializeMultiple<T>(files: seq<seq<bv8>>, format: seq<bv8> -> Option<T>)
    returns (r: Result<seq<T>, Error>)
    ensures r.Success? <==> forall i :: 0 <= i < |files| ==> DeserializeFromBytes(files[i], format).Success?
    ensures r.Success? ==> (|r.value| == |files|
      && forall i :: 0 <= i < |files| ==> DeserializeFromBytes(files[i], format) == Success(r.value[i]))
    ensures r.Failure? ==> exists i :: (0 <= i < |files|
      && (forall j :: 0 <= j < i ==> DeserializeFromBytes(files[j], format).Success?)
      && DeserializeFromBytes(files[i], format) == Failure(r.error))
  {
    var loaded: seq<T> := [];
    for i := 0 to |files|
      invariant |loaded| == i
      invariant forall j :: 0 <= j < i ==> DeserializeFromBytes(files[j], format) == Success(loaded[j])
    {
      var d := DeserializeFromBytes(files[i], format);
      if d.Failure? {
        return Failure(d.error);
      }
      loaded := loaded + [d.value];
    }
    r := Success(loaded);
  }

  class SaveManager {
    /** `Application.persistentDataPath` and `Path.DirectorySeparatorChar`. */
    const host: Host
    /** The game-thread helper the callbacks are posted to. */
    const helper: AsyncActionHelper<GameAction>
    /** `async` (the `Async` property). */
    var asyncMode: bool
    /** `savedGameSortMode`. */
    var sortMode: Sorting.SortMode
    /** `backgroundWorker`. */
    var worker: Option<Worker>
    /** `backgroundWorkQueue`. */
    var workQueue: seq<Request>
    /** What has been performed and called, in order. */
    ghost var trace: seq<Effect>

    ghost predicate Valid()
      reads this, helper
    {
      helper.Valid()
    }

    /** The dispatch state. */
    function State(): Engine
      reads this
    {
      Engine(worker, workQueue)
    }

    /** The static initial values: async on, no sorting, no worker, no queue. */
    constructor (host: Host, helper: AsyncActionHelper<GameAction>)
      requires helper.Valid()
      ensures Valid()
      ensures this.host == host && this.helper == helper
      ensures asyncMode && sortMode == Sorting.None
      ensures State() == Idle && trace == []
    {
      this.host := host;
      this.helper := helper;
      asyncMode := true;
      sortMode := Sorting.None;
      worker := None;
      workQueue := [];
      trace := [];
    }

    /** The `Async` setter (creating and destroying the helper's game object
        is not modelled). */
    method SetAsync(value: bool)
      modifies this`asyncMode
      ensures asyncMode == value
    {
      asyncMode := value;
    }

    /** `EnqueueAction`. */
    method EnqueueAction(r: Request)
      modifies this`workQueue
      ensures workQueue == old(workQueue) + [r]
    {
      workQueue := workQueue + [r];
    }

    /** The guards shared by the six `*Async` methods (`SaveGameAsync`,
        `SaveDataAsync`, `ReadFilesAsync`, `ReadFileAsync`,
        `DeleteSaveDirectoryAsync`, `DeleteFilesAsync`), which differ only in
        the job and the completion they attach. */
    method DispatchAsync(r: Request)
      modifies this`worker, this`workQueue
      ensures State() == Submit(old(State()), r)
    {
      if worker.None? {
        // InitializeBackgroundWorker, attach the handlers, RunWorkerAsync
        worker := Some(Worker(r, true));
      } else if worker.Some? && worker.value.isBusy {
        EnqueueAction(r);
      }
    }

    /** The running worker's `RunWorkerCompleted`, `o` being how its job
        ended. The handler attached by `InitializeBackgroundWorker` runs
        first, then the operation's own. Returns the exception that escapes
        the handlers, if any. */
    method WorkerCompleted(o: JobOutcome) returns (escaped: Option<Error>)
      requires Valid() && Busy(State())
      modifies this`worker, this`workQueue, this`trace, helper`gameThreadActions, helper`actionsAwaiting
      ensures Valid()
      ensures State() == Complete(old(State()), o)
      ensures helper.gameThreadActions == old(helper.gameThreadActions) + Posted(old(State()), o)
      ensures trace == old(trace) + [Performed(old(worker).value.request.job)]
      ensures escaped.Some? <==> HandlerThrows(old(worker).value.request, o)
    {
      var w := worker.value;
      trace := trace + [Performed(w.request.job)];
      worker := Some(w.(isBusy := false));
      // the shared handler
      if o.Failed? {
        helper.RunInGameThread(Rethrow(o.error));
      }
      if |workQueue| > 0 {
        var next := workQueue[0];
        workQueue := workQueue[1..];
        DispatchAsync(next);
      }
      // the operation's handler
      if IsRead(w.request.job) {
        if o.Failed? {
          // reading args.Result rethrows the job's error
          return Some(o.error);
        }
        helper.RunInGameThread(Invoke(w.request.continuation, o.result));
      } else if w.request.continuation.Some? {
        helper.RunInGameThread(Invoke(w.request.continuation, NoResult));
      }
      worker := None;
      escaped := None;
    }

    /** The completion the comment on `backgroundWorkQueue` describes: the
        same posts, but the slot is cleared before the oldest queued request
        is started, and a failed read does not escape before that. */
    method WorkerCompletedFifo(o: JobOutcome)
      requires Valid() && Busy(State())
      modifies this`worker, this`workQueue, this`trace, helper`gameThreadActions, helper`actionsAwaiting
      ensures Valid()
      ensures State() == CompleteFifo(old(State()), o)
      ensures helper.gameThreadActions == old(helper.gameThreadActions) + Posted(old(State()), o)
      ensures trace == old(trace) + [Performed(old(worker).value.request.job)]
    {
      var w := worker.value;
      trace := trace + [Performed(w.request.job)];
      if o.Failed? {
        helper.RunInGameThread(Rethrow(o.error));
      }
      if IsRead(w.request.job) {
        if o.Succeeded? {
          helper.RunInGameThread(Invoke(w.request.continuation, o.result));
        }
      } else if w.request.continuation.Some? {
        helper.RunInGameThread(Invoke(w.request.continuation, NoResult));
      }
      worker := None;
      if |workQueue| > 0 {
        var next := workQueue[0];
        workQueue := workQueue[1..];
        DispatchAsync(next);
      }
    }

    /** The sync branch of every write and delete: perform the job; if it
        did not throw, call the callback when there is one. */
    method PerformInLine(job: Job, callback: Option<CallbackId>, io: Outcome<Error>) returns (r: Outcome<Error>)
      modifies this`trace
      ensures r == io
      ensures trace == old(trace) + [Performed(job)]
        + (if io.Pass? && callback.Some? then [Called(Invoke(Notify(callback), NoResult))] else [])
    {
      trace := trace + [Performed(job)];
      if io.Fail? {
        return io;
      }
      if callback.Some? {
        trace := trace + [Called(Invoke(Notify(callback), NoResult))];
      }
      r := Pass;
    }

    /** The sync branch of every read: perform the job; if it did not throw,
        call the callback with the result. */
    method ReadInLine(job: Job, callback: Continuation, io: Result<Payload, Error>) returns (r: Outcome<Error>)
      modifies this`trace
      ensures r == (if io.Failure? then Fail(io.error) else Pass)
      ensures trace == old(trace) + [Performed(job)]
        + (if io.Success? then [Called(Invoke(Some(callback), io.value))] else [])
    {
      trace := trace + [Performed(job)];
      if io.Failure? {
        return Fail(io.error);
      }
      trace := trace + [Called(Invoke(Some(callback), io.value))];
      r := Pass;
    }

    /** `SaveGame(SavedGame, Action)`. Both halves of the saved game must be
        present; the metadata is then stamped with `now` (`DateTime.Now`)
        before anything is written or dispatched. */
    method SaveGame(savedGame: SavedGame, callback: Option<CallbackId>, now: int, io: Outcome<Error>)
      returns (r: Outcome<Error>)
      modifies this`worker, this`workQueue, this`trace, savedGame.metadata
      ensures savedGame.metadata == null ==>
        r == Fail(ArgumentNullError("savedGame")) && unchanged(this)
      ensures savedGame.metadata != null && savedGame.gameSpecificData.None? ==>
        r == Fail(ArgumentNullError("savedGame")) && unchanged(this, savedGame.metadata)
      ensures savedGame.metadata != null && savedGame.gameSpecificData.Some? ==>
        var m := savedGame.metadata;
        var req := SaveGameRequest(host, m, savedGame.gameSpecificData.value, callback);
        && m.timeStamp == now
        && m.savedGameFileName == old(m.savedGameFileName)
        && m.slot == old(m.slot) && m.timePlayed == old(m.timePlayed)
        && (asyncMode ==> r == Pass && State() == Submit(old(State()), req) && trace == old(trace))
        && (!asyncMode ==> (r == io && State() == old(State())
             && trace == old(trace) + [Performed(req.job)]
                + (if io.Pass? && callback.Some? then [Called(Invoke(Notify(callback), NoResult))] else [])))
    {
      if savedGame.metadata == null {
        return Fail(ArgumentNullError("savedGame"));
      }
      if savedGame.gameSpecificData.None? {
        return Fail(ArgumentNullError("savedGame"));
      }
      var m := savedGame.metadata;
      m.timeStamp := now;
      var req := SaveGameRequest(host, m, savedGame.gameSpecificData.value, callback);
      if asyncMode {
        DispatchAsync(req);
        r := Pass;
      } else {
        r := PerformInLine(req.job, callback, io);
      }
    }

    /** `SaveGame(SavedGameMetadata, object, Action)`: wraps its arguments in
        a SavedGame and saves that. */
    method SaveGameFrom(metadata: SavedGameMetadata?, gameData: Option<GameData>, callback: Option<CallbackId>,
                        now: int, io: Outcome<Error>) returns (r: Outcome<Error>)
      modifies this`worker, this`workQueue, this`trace, metadata
      ensures (metadata == null || gameData.None?) ==>
        r == Fail(ArgumentNullError("savedGame")) && unchanged(this)
      ensures metadata != null && gameData.None? ==> unchanged(metadata)
      ensures metadata != null && gameData.Some? ==>
        var req := SaveGameRequest(host, metadata, gameData.value, callback);
        && metadata.timeStamp == now
        && metadata.savedGameFileName == old(metadata.savedGameFileName)
        && metadata.slot == old(metadata.slot) && metadata.timePlayed == old(metadata.timePlayed)
        && (asyncMode ==> r == Pass && State() == Submit(old(State()), req) && trace == old(trace))
        && (!asyncMode ==> (r == io && State() == old(State())
             && trace == old(trace) + [Performed(req.job)]
                + (if io.Pass? && callback.Some? then [Called(Invoke(Notify(callback), NoResult))] else [])))
    {
      r := SaveGame(SavedGame(metadata, gameData), callback, now, io);
    }

    /** `SaveData`: the data must be present and the path non-empty; the
        file is persistent storage followed directly by the path. */
    method SaveData(data: Option<GameData>, path: Option<string>, callback: Option<CallbackId>, io: Outcome<Error>)
      returns (r: Outcome<Error>)
      modifies this`worker, this`workQueue, this`trace
      ensures data.None? ==> r == Fail(ArgumentNullError("data")) && unchanged(this)
      ensures data.Some? && IsNullOrEmpty(path) ==> r == Fail(ArgumentError("path")) && unchanged(this)
      ensures data.Some? && !IsNullOrEmpty(path) ==>
        var req := Request(WriteData(data.value, DataPath(host, path.value)), Notify(callback));
        && (asyncMode ==> r == Pass && State() == Submit(old(State()), req) && trace == old(trace))
        && (!asyncMode ==> (r == io && State() == old(State())
             && trace == old(trace) + [Performed(req.job)]
                + (if io.Pass? && callback.Some? then [Called(Invoke(Notify(callback), NoResult))] else [])))
    {
      if data.None? {
        return Fail(ArgumentNullError("data"));
      }
      if IsNullOrEmpty(path) {
        return Fail(ArgumentError("path"));
      }
      var req := Request(WriteData(data.value, DataPath(host, path.value)), Notify(callback));
      if asyncMode {
        DispatchAsync(req);
        r := Pass;
      } else {
        r := PerformInLine(req.job, callback, io);
      }
    }

    /** `LoadMetadata`: lists the metadata files under the saves folder; the
        caller's callback gets them sorted by the sort mode (in sync mode,
        here; in async mode, by the wrapper when it runs on the game thread). */
    method LoadMetadata(callback: Option<CallbackId>, io: Result<seq<SavedGameMetadata>, Error>)
      returns (r: Outcome<Error>)
      modifies this`worker, this`workQueue, this`trace
      ensures callback.None? ==> r == Fail(ArgumentNullError("callback")) && unchanged(this)
      ensures callback.Some? ==>
        var job := ReadFiles(SavedGameRootPath(host), MetadataSearchPattern);
        && (asyncMode ==> (r == Pass && trace == old(trace)
             && State() == Submit(old(State()), Request(job, Some(SortedToCaller(callback.value))))))
        && (!asyncMode ==> (State() == old(State())
             && r == (if io.Failure? then Fail(io.error) else Pass)
             && trace == old(trace) + [Performed(job)]
                + (if io.Success?
                   then [Called(Invoke(Some(ToCaller(callback.value)),
                                       LoadedMetadata(Sorting.SortMetadata(sortMode, io.value))))]
                   else [])))
    {
      if callback.None? {
        return Fail(ArgumentNullError("callback"));
      }
      var job := ReadFiles(SavedGameRootPath(host), MetadataSearchPattern);
      if asyncMode {
        DispatchAsync(Request(job, Some(SortedToCaller(callback.value))));
        r := Pass;
      } else {
        var sorted := if io.Success? then Success(LoadedMetadata(Sorting.SortMetadata(sortMode, io.value)))
                      else Failure(io.error);
        r := ReadInLine(job, ToCaller(callback.value), sorted);
      }
    }

    /** `LoadSavedGame`: the callback and the metadata must be present; the
        data file named by the metadata is read and handed back paired with
        that metadata. */
    method LoadSavedGame(metadata: SavedGameMetadata?, callback: Option<CallbackId>, io: Result<GameData, Error>)
      returns (r: Outcome<Error>)
      modifies this`worker, this`workQueue, this`trace
      ensures callback.None? ==> r == Fail(ArgumentNullError("callback")) && unchanged(this)
      ensures callback.Some? && metadata == null ==> r == Fail(ArgumentNullError("metadata")) && unchanged(this)
      ensures callback.Some? && metadata != null ==>
        var job := ReadFile(GameDataPath(host, metadata.savedGameFileName));
        var k := AsSavedGameToCaller(metadata, callback.value);
        && (asyncMode ==> r == Pass && trace == old(trace) && State() == Submit(old(State()), Request(job, Some(k))))
        && (!asyncMode ==> (State() == old(State())
             && r == (if io.Failure? then Fail(io.error) else Pass)
             && trace == old(trace) + [Performed(job)]
                + (if io.Success? then [Called(Invoke(Some(k), Loaded(io.value)))] else [])))
    {
      if callback.None? {
        return Fail(ArgumentNullError("callback"));
      }
      if metadata == null {
        return Fail(ArgumentNullError("metadata"));
      }
      var job := ReadFile(GameDataPath(host, metadata.savedGameFileName));
      var k := AsSavedGameToCaller(metadata, callback.value);
      if asyncMode {
        DispatchAsync(Request(job, Some(k)));
        r := Pass;
      } else {
        var loaded := if io.Success? then Success(Loaded(io.value)) else Failure(io.error);
        r := ReadInLine(job, k, loaded);
      }
    }

    /** `LoadData`: the path must be non-empty and the callback present; the
        file is persistent storage, a separator, then the path. */
    method LoadData(path: Option<string>, callback: Option<CallbackId>, io: Result<GameData, Error>)
      returns (r: Outcome<Error>)
      modifies this`worker, this`workQueue, this`trace
      ensures IsNullOrEmpty(path) ==> r == Fail(ArgumentError("path")) && unchanged(this)
      ensures !IsNullOrEmpty(path) && callback.None? ==> r == Fail(ArgumentError("callback")) && unchanged(this)
      ensures !IsNullOrEmpty(path) && callback.Some? ==>
        var job := ReadFile(LoadDataPath(host, path.value));
        && (asyncMode ==> (r == Pass && trace == old(trace)
             && State() == Submit(old(State()), Request(job, Some(ToCaller(callback.value))))))
        && (!asyncMode ==> (State() == old(State())
             && r == (if io.Failure? then Fail(io.error) else Pass)
             && trace == old(trace) + [Performed(job)]
                + (if io.Success? then [Called(Invoke(Some(ToCaller(callback.value)), Loaded(io.value)))] else [])))
    {
      if IsNullOrEmpty(path) {
        return Fail(ArgumentError("path"));
      }
      if callback.None? {
        return Fail(ArgumentError("callback"));
      }
      var job := ReadFile(LoadDataPath(host, path.value));
      if asyncMode {
        DispatchAsync(Request(job, Some(ToCaller(callback.value))));
        r := Pass;
      } else {
        var loaded := if io.Success? then Success(Loaded(io.value)) else Failure(io.error);
        r := ReadInLine(job, ToCaller(callback.value), loaded);
      }
    }

    /** `LoadDataMultiple`: the root path must be non-empty and the callback
        present; the folder is persistent storage followed directly by the
        root path. */
    method LoadDataMultiple(rootPath: Option<string>, searchPattern: string, callback: Option<CallbackId>,
                            io: Result<seq<GameData>, Error>) returns (r: Outcome<Error>)
      modifies this`worker, this`workQueue, this`trace
      ensures IsNullOrEmpty(rootPath) ==> r == Fail(ArgumentError("rootPath")) && unchanged(this)
      ensures !IsNullOrEmpty(rootPath) && callback.None? ==> r == Fail(ArgumentError("callback")) && unchanged(this)
      ensures !IsNullOrEmpty(rootPath) && callback.Some? ==>
        var job := ReadFiles(DataPath(host, rootPath.value), searchPattern);
        && (asyncMode ==> (r == Pass && trace == old(trace)
             && State() == Submit(old(State()), Request(job, Some(ToCaller(callback.value))))))
        && (!asyncMode ==> (State() == old(State())
             && r == (if io.Failure? then Fail(io.error) else Pass)
             && trace == old(trace) + [Performed(job)]
                + (if io.Success? then [Called(Invoke(Some(ToCaller(callback.value)), LoadedList(io.value)))] else [])))
    {
      if IsNullOrEmpty(rootPath) {
        return Fail(ArgumentError("rootPath"));
      }
      if callback.None? {
        return Fail(ArgumentError("callback"));
      }
      var job := ReadFiles(DataPath(host, rootPath.value), searchPattern);
      if asyncMode {
        DispatchAsync(Request(job, Some(ToCaller(callback.value))));
        r := Pass;
      } else {
        var loaded := if io.Success? then Success(LoadedList(io.value)) else Failure(io.error);
        r := ReadInLine(job, ToCaller(callback.value), loaded);
      }
    }

    /** `DeleteAllSavedGames`: deletes every file in the saves folder. */
    method DeleteAllSavedGames(callback: Option<CallbackId>, io: Outcome<Error>) returns (r: Outcome<Error>)
      modifies this`worker, this`workQueue, this`trace
      ensures
        var req := Request(DeleteDirectoryFiles(SavedGameRootPath(host)), Notify(callback));
        && (asyncMode ==> r == Pass && State() == Submit(old(State()), req) && trace == old(trace))
        && (!asyncMode ==> (r == io && State() == old(State())
             && trace == old(trace) + [Performed(req.job)]
                + (if io.Pass? && callback.Some? then [Called(Invoke(Notify(callback), NoResult))] else [])))
    {
      var req := Request(DeleteDirectoryFiles(SavedGameRootPath(host)), Notify(callback));
      if asyncMode {
        DispatchAsync(req);
        r := Pass;
      } else {
        r := PerformInLine(req.job, callback, io);
      }
    }

    /** `DeleteSave(SavedGameMetadata, Action)`: deletes the data file and the
        metadata file of one saved game. The metadata is not checked; a null
        one fails when its file name is read. */
    method DeleteSave(metadata: SavedGameMetadata?, callback: Option<CallbackId>, io: Outcome<Error>)
      returns (r: Outcome<Error>)
      modifies this`worker, this`workQueue, this`trace
      ensures metadata == null ==> r == Fail(NullReferenceError) && unchanged(this)
      ensures metadata != null ==>
        var req := DeleteSaveRequest(host, metadata, callback);
        && (asyncMode ==> r == Pass && State() == Submit(old(State()), req) && trace == old(trace))
        && (!asyncMode ==> (r == io && State() == old(State())
             && trace == old(trace) + [Performed(req.job)]
                + (if io.Pass? && callback.Some? then [Called(Invoke(Notify(callback), NoResult))] else [])))
    {
      if metadata == null {
        return Fail(NullReferenceError);
      }
      var req := DeleteSaveRequest(host, metadata, callback);
      if asyncMode {
        DispatchAsync(req);
        r := Pass;
      } else {
        r := PerformInLine(req.job, callback, io);
      }
    }

    /** `DeleteSave(SavedGame, Action)`: deletes by the saved game's metadata. */
    method DeleteSavedGame(savedGame: SavedGame, callback: Option<CallbackId>, io: Outcome<Error>)
      returns (r: Outcome<Error>)
      modifies this`worker, this`workQueue, this`trace
      ensures savedGame.metadata == null ==> r == Fail(NullReferenceError) && unchanged(this)
      ensures savedGame.metadata != null && asyncMode ==>
        r == Pass && State() == Submit(old(State()), DeleteSaveRequest(host, savedGame.metadata, callback))
        && trace == old(trace)
      ensures savedGame.metadata != null && !asyncMode ==>
        r == io && State() == old(State())
        && trace == old(trace) + [Performed(DeleteSaveRequest(host, savedGame.metadata, callback).job)]
           + (if io.Pass? && callback.Some? then [Called(Invoke(Notify(callback), NoResult))] else [])
    {
      r := DeleteSave(savedGame.metadata, callback, io);
    }

    /** `DeleteData`: the array must be present. Each element is rewritten in
        place to persistent storage followed directly by it; the rewritten
        paths are then deleted. The caller's array keeps its new contents. */
    method DeleteData(paths: array?<string>, callback: Option<CallbackId>, io: Outcome<Error>)
      returns (r: Outcome<Error>)
      modifies this`worker, this`workQueue, this`trace, paths
      ensures paths == null ==> r == Fail(ArgumentNullError("paths")) && unchanged(this)
      ensures paths != null ==>
        var req := Request(DeleteFiles(paths[..]), Notify(callback));
        && paths[..] == Prefixed(host.persistentDataPath, old(paths[..]))
        && (asyncMode ==> r == Pass && State() == Submit(old(State()), req) && trace == old(trace))
        && (!asyncMode ==> (r == io && State() == old(State())
             && trace == old(trace) + [Performed(req.job)]
                + (if io.Pass? && callback.Some? then [Called(Invoke(Notify(callback), NoResult))] else [])))
    {
      if paths == null {
        return Fail(ArgumentNullError("paths"));
      }
      for i := 0 to paths.Length
        modifies paths
        invariant forall k :: 0 <= k < i ==> paths[k] == host.persistentDataPath + old(paths[k])
        invariant forall k :: i <= k < paths.Length ==> paths[k] == old(paths[k])
      {
        paths[i] := host.persistentDataPath + paths[i];
      }
      assert paths[..] == Prefixed(host.persistentDataPath, old(paths[..]));
      var req := Request(DeleteFiles(paths[..]), Notify(callback));
      if asyncMode {
        DispatchAsync(req);
        r := Pass;
      } else {
        r := PerformInLine(req.job, callback, io);
      }
    }
  }
}
