/** The asynchronous dispatch of SaveManager.cs as a state machine over
    explicit events. The state is the single worker slot (`backgroundWorker`:
    null, or a worker that is busy or not) and the FIFO `backgroundWorkQueue`.
    Two events change it: a submission (one of the six `*Async` methods) and
    the completion of the running worker (its `RunWorkerCompleted` handlers).

    The completion handlers run in subscription order. The shared handler of
    `InitializeBackgroundWorker` was subscribed first: it forwards an error
    and dequeues one queued action and invokes it. The per-operation handler
    comes second: it posts the callback and clears the slot. When they run,
    `IsBusy` is already false. So the dequeued action re-enters its `*Async`
    method while the slot holds a worker that is not busy, and takes neither
    branch. `Complete` keeps those guards exactly, and the lemmas below show
    what they do. `CompleteFifo` is the completion the comment on
    `backgroundWorkQueue` describes, with its FIFO drain proved. */
module Dispatch {
  import opened Common
  import opened Metadata

  /** The work a background worker does in its `DoWork` handler. */
  datatype Job =
    | WriteSavedGame(gameSpecificData: GameData, metadata: SavedGameMetadata,
                     gameDataPath: string, metadataPath: string)  // SaveGameAsync
    | WriteData(data: GameData, path: string)                     // SaveDataAsync
    | ReadFiles(rootPath: string, searchPattern: string)          // ReadFilesAsync
    | ReadFile(path: string)                                      // ReadFileAsync
    | DeleteDirectoryFiles(rootPath: string)                      // DeleteSaveDirectoryAsync
    | DeleteFiles(paths: seq<string>)                             // DeleteFilesAsync

  /** The jobs whose completion handler reads `args.Result`. */
  predicate IsRead(j: Job)
  {
    j.ReadFiles? || j.ReadFile?
  }

  /** What receives a job's completion on the game thread. */
  datatype Continuation =
    | ToCaller(callback: CallbackId)
      // the caller's callback itself (the writes, LoadData, LoadDataMultiple)
    | SortedToCaller(callback: CallbackId)
      // LoadMetadata's wrapper: sorts by the mode in force, then calls back
    | AsSavedGameToCaller(metadata: SavedGameMetadata, callback: CallbackId)
      // LoadSavedGame's wrapper: pairs the data with the metadata, then calls back

  /** One `*Async` call: its job and its (possibly null) continuation. */
  datatype Request = Request(job: Job, continuation: Option<Continuation>)

  /** What a read hands to its continuation. */
  datatype Payload =
    | NoResult
    | Loaded(value: GameData)
    | LoadedList(values: seq<GameData>)
    | LoadedMetadata(metadata: seq<SavedGameMetadata>)

  /** How a worker's `DoWork` ended: `args.Result`, or `args.Error`. */
  datatype JobOutcome = Succeeded(result: Payload) | Failed(error: Error)

  /** An action posted to the game thread with `AsyncActionHelper.RunInGameThread`:
      either rethrowing a background error, or running a continuation. */
  datatype GameAction = Rethrow(error: Error) | Invoke(continuation: Option<Continuation>, result: Payload)

  /** A worker holds the request it runs; `isBusy` is `BackgroundWorker.IsBusy`. */
  datatype Worker = Worker(request: Request, isBusy: bool)

  /** `backgroundWorker` (None for null) and `backgroundWorkQueue` (a null
      queue and an empty one behave alike under the guards). */
  datatype Engine = Engine(worker: Option<Worker>, queue: seq<Request>)

  const Idle: Engine := Engine(None, [])

  predicate Busy(e: Engine)
  {
    e.worker.Some? && e.worker.value.isBusy
  }

  /** A worker is present but no longer busy: its completion handlers are
      running, or one of them threw before clearing the slot. */
  predicate Stalled(e: Engine)
  {
    e.worker.Some? && !e.worker.value.isBusy
  }

  /** The guards every `*Async` method opens with: start a worker when the
      slot is empty, queue the call when the worker is busy, and otherwise do
      nothing at all. */
  function Submit(e: Engine, r: Request): Engine
  {
    if e.worker.None? then Engine(Some(Worker(r, true)), e.queue)
    else if e.worker.value.isBusy then Engine(e.worker, e.queue + [r])
    else e
  }

  /** The requests a submission starts. */
  function Launched(e: Engine, r: Request): seq<Request>
  {
    if e.worker.None? then [r] else []
  }

  /** The state the completion handlers see: the worker is no longer busy. */
  function Settled(e: Engine): Engine
    requires Busy(e)
  {
    Engine(Some(e.worker.value.(isBusy := false)), e.queue)
  }

  /** The shared handler's `backgroundWorkQueue.Dequeue().Invoke()`. */
  function RunQueued(e: Engine): Engine
  {
    if |e.queue| > 0 then Submit(Engine(e.worker, e.queue[1..]), e.queue[0]) else e
  }

  /** The requests the dequeued invocation starts. */
  function Relaunched(e: Engine): seq<Request>
    requires Busy(e)
  {
    var s := Settled(e);
    if |s.queue| > 0 then Launched(Engine(s.worker, s.queue[1..]), s.queue[0]) else []
  }

  /** A read's per-operation handler reads `args.Result`, which rethrows the
      job's error; the handler then stops before it clears the slot. */
  predicate HandlerThrows(r: Request, o: JobOutcome)
  {
    IsRead(r.job) && o.Failed?
  }

  /** The shared handler posts a rethrow of any error. */
  function ForwardedError(o: JobOutcome): seq<GameAction>
  {
    if o.Failed? then [Rethrow(o.error)] else []
  }

  /** What the per-operation handler posts: a read always posts its
      continuation with the result (unless reading the result threw); a
      write posts its callback when there is one. */
  function HandlerPost(r: Request, o: JobOutcome): seq<GameAction>
  {
    if IsRead(r.job) then (if o.Failed? then [] else [Invoke(r.continuation, o.result)])
    else if r.continuation.Some? then [Invoke(r.continuation, NoResult)]
    else []
  }

  /** Everything a completion posts to the game thread, in order. */
  function Posted(e: Engine, o: JobOutcome): seq<GameAction>
    requires Busy(e)
  {
    ForwardedError(o) + HandlerPost(e.worker.value.request, o)
  }

  /** The completion as written: both handlers in subscription order. */
  function Complete(e: Engine, o: JobOutcome): Engine
    requires Busy(e)
  {
    var s := RunQueued(Settled(e));
    if HandlerThrows(e.worker.value.request, o) then s else Engine(None, s.queue)
  }

  /** The completion the comment on `backgroundWorkQueue` describes: clear the
      slot, then start the oldest queued request. */
  function CompleteFifo(e: Engine, o: JobOutcome): Engine
    requires Busy(e)
  {
    RunQueued(Engine(None, e.queue))
  }

  function RelaunchedFifo(e: Engine): seq<Request>
    requires Busy(e)
  {
    if |e.queue| > 0 then [e.queue[0]] else []
  }

  // ---------------------------------------------------------------------
  // Runs: an engine together with the requests started so far and the
  // actions posted so far, driven by a sequence of events.

  datatype Event = SubmitEvent(request: Request) | WorkerDone(outcome: JobOutcome)

  datatype History = History(engine: Engine, started: seq<Request>, posted: seq<GameAction>)

  /** One event under the code as written. A completion only happens while a
      worker is busy; at any other moment the event is ignored. */
  function Step(h: History, ev: Event): History
  {
    match ev
    case SubmitEvent(r) =>
      History(Submit(h.engine, r), h.started + Launched(h.engine, r), h.posted)
    case WorkerDone(o) =>
      if !Busy(h.engine) then h
      else History(Complete(h.engine, o), h.started + Relaunched(h.engine),
                   h.posted + Posted(h.engine, o))
  }

  function Run(h: History, evs: seq<Event>): History
    decreases |evs|
  {
    if evs == [] then h else Run(Step(h, evs[0]), evs[1..])
  }

  /** One event under the corrected completion. */
  function StepFifo(h: History, ev: Event): History
  {
    match ev
    case SubmitEvent(r) =>
      History(Submit(h.engine, r), h.started + Launched(h.engine, r), h.posted)
    case WorkerDone(o) =>
      if !Busy(h.engine) then h
      else History(CompleteFifo(h.engine, o), h.started + RelaunchedFifo(h.engine),
                   h.posted + Posted(h.engine, o))
  }

  function RunFifo(h: History, evs: seq<Event>): History
    decreases |evs|
  {
    if evs == [] then h else RunFifo(StepFifo(h, evs[0]), evs[1..])
  }

  /** A completion event for each outcome, in order. */
  function Dones(os: seq<JobOutcome>): seq<Event>
  {
    seq(|os|, i requires 0 <= i < |os| => WorkerDone(os[i]))
  }

  /** The actions that completing the requests `rs` with the outcomes `os`,
      one after the other, posts. */
  function Notifications(rs: seq<Request>, os: seq<JobOutcome>): seq<GameAction>
    requires |rs| == |os|
    decreases |rs|
  {
    if rs == [] then []
    else ForwardedError(os[0]) + HandlerPost(rs[0], os[0]) + Notifications(rs[1..], os[1..])
  }

  // ---------------------------------------------------------------------
  // The code as written.

  /** A submission while the worker is busy goes to the back of the queue;
      nothing starts and the slot is unchanged. */
  lemma SubmitWhileBusyQueues(e: Engine, r: Request)
    requires Busy(e)
    ensures Submit(e, r) == Engine(e.worker, e.queue + [r])
    ensures Launched(e, r) == []
  {
  }

  /** A completion removes at most one request from the front of the queue,
      starts nothing, and (unless a read failed) leaves the slot empty. */
  lemma CompleteDropsDequeued(e: Engine, o: JobOutcome)
    requires Busy(e)
    ensures Complete(e, o).queue == if |e.queue| > 0 then e.queue[1..] else e.queue
    ensures Relaunched(e) == []
    ensures HandlerThrows(e.worker.value.request, o) <==> Complete(e, o).worker.Some?
    ensures Complete(e, o).worker.Some? ==> Stalled(Complete(e, o))
  {
  }

  /** A request sitting in the queue is never started: completions drop
      queued requests instead of running them, whatever else happens. */
  lemma {:induction false} QueuedRequestNeverStarts(h: History, evs: seq<Event>, r: Request)
    requires r !in h.started
    requires forall i :: 0 <= i < |evs| ==> evs[i] != SubmitEvent(r)
    ensures r !in Run(h, evs).started
    decreases |evs|
  {
    if evs != [] {
      var h' := Step(h, evs[0]);
      if evs[0].WorkerDone? && Busy(h.engine) {
        CompleteDropsDequeued(h.engine, evs[0].outcome);
      }
      assert r !in h'.started;
      QueuedRequestNeverStarts(h', evs[1..], r);
    }
  }

  /** Completions alone start nothing: from a busy worker and whatever queue,
      any number of completions leave the started requests as they were,
      and the first one discards the head of the queue. */
  lemma {:induction false} AsWrittenDrainStartsNothing(h: History, os: seq<JobOutcome>)
    requires Busy(h.engine) && |os| > 0
    ensures Run(h, Dones(os)).started == h.started
    ensures Run(h, Dones(os)).engine.queue
         == if |h.engine.queue| > 0 then h.engine.queue[1..] else []
  {
    var h' := Step(h, WorkerDone(os[0]));
    assert Dones(os)[1..] == Dones(os[1..]);
    CompleteDropsDequeued(h.engine, os[0]);
    IgnoredCompletions(h', os[1..]);
  }

  /** Completion events when no worker is busy change nothing. */
  lemma {:induction false} IgnoredCompletions(h: History, os: seq<JobOutcome>)
    requires !Busy(h.engine)
    ensures Run(h, Dones(os)) == h
    decreases |os|
  {
    if os != [] {
      assert Dones(os)[1..] == Dones(os[1..]);
      IgnoredCompletions(h, os[1..]);
    }
  }

  /** Once a failed read has left its worker in the slot, no event changes
      anything any more: every later submission is silently ignored, nothing
      starts, and nothing is posted. */
  lemma {:induction false} StalledEngineIgnoresEverything(h: History, evs: seq<Event>)
    requires Stalled(h.engine)
    ensures Run(h, evs) == h
    decreases |evs|
  {
    if evs != [] {
      assert Step(h, evs[0]) == h;
      StalledEngineIgnoresEverything(h, evs[1..]);
    }
  }

  /** The smallest run that loses a request: two submissions and one
      completion. The second request never ran, nothing is left to run it,
      and only the first request's callback was posted. */
  lemma SecondRequestIsLost(r1: Request, r2: Request, cb1: CallbackId, o: JobOutcome)
    requires r1 == Request(WriteData(GameData(1), "a"), Some(ToCaller(cb1)))
    requires r1 != r2 && o == Succeeded(NoResult)
    ensures Run(History(Idle, [], []), [SubmitEvent(r1), SubmitEvent(r2), WorkerDone(o)])
         == History(Idle, [r1], [Invoke(Some(ToCaller(cb1)), NoResult)])
  {
    var h0 := History(Idle, [], []);
    var h1 := Step(h0, SubmitEvent(r1));
    var h2 := Step(h1, SubmitEvent(r2));
    var h3 := Step(h2, WorkerDone(o));
    assert h3 == History(Idle, [r1], [Invoke(Some(ToCaller(cb1)), NoResult)]);
    var evs := [SubmitEvent(r1), SubmitEvent(r2), WorkerDone(o)];
    assert evs[1..] == [SubmitEvent(r2), WorkerDone(o)];
    assert evs[1..][1..] == [WorkerDone(o)];
    assert Run(h0, evs) == Run(h1, evs[1..]) == Run(h2, evs[1..][1..]) == Run(h3, []);
  }

  // ---------------------------------------------------------------------
  // The corrected completion.

  /** The state the corrected engine keeps: a worker in the slot is busy, and
      requests wait only behind a busy worker. */
  ghost predicate Consistent(e: Engine)
  {
    (e.worker.Some? ==> e.worker.value.isBusy) && (e.worker.None? ==> e.queue == [])
  }

  lemma {:induction false} FifoKeepsConsistent(h: History, evs: seq<Event>)
    requires Consistent(h.engine)
    ensures Consistent(RunFifo(h, evs).engine)
    decreases |evs|
  {
    if evs != [] {
      var h' := StepFifo(h, evs[0]);
      assert Consistent(h'.engine);
      FifoKeepsConsistent(h', evs[1..]);
    }
  }

  /** With the corrected completion, completions alone run the queue to the
      end in submission order: each queued request starts once, after those
      queued before it, every request's notification is posted in that same
      order, and the engine ends idle. */
  lemma {:induction false} FifoDrainsInOrder(h: History, os: seq<JobOutcome>)
    requires Busy(h.engine)
    requires |os| == |h.engine.queue| + 1
    ensures RunFifo(h, Dones(os)).engine == Idle
    ensures RunFifo(h, Dones(os)).started == h.started + h.engine.queue
    ensures RunFifo(h, Dones(os)).posted
         == h.posted + Notifications([h.engine.worker.value.request] + h.engine.queue, os)
    decreases |os|
  {
    var w, q := h.engine.worker.value.request, h.engine.queue;
    var h' := StepFifo(h, WorkerDone(os[0]));
    assert Dones(os)[1..] == Dones(os[1..]);
    assert RunFifo(h, Dones(os)) == RunFifo(h', Dones(os[1..]));
    var rs := [w] + q;
    assert rs[0] == w && rs[1..] == q;
    if q == [] {
      assert h'.engine == Idle;
      assert Dones(os[1..]) == [];
    } else {
      assert h'.engine == Engine(Some(Worker(q[0], true)), q[1..]);
      assert h'.started == h.started + [q[0]];
      FifoDrainsInOrder(h', os[1..]);
      assert [q[0]] + q[1..] == q;
      assert h.started + [q[0]] + q[1..] == h.started + q;
    }
  }
}
