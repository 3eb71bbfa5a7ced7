/** The task record store of src/api/api_service.py and the operations on
    it: create_task, execute_task, get_task_result and list_tasks.

    The global dict `tasks_store` becomes the class TaskStore; the order in
    which the dict was filled is kept beside it. The automation engine
    (browser, context, language model, agent) is reached only through
    `engine`, whose answer says either what the run produced or at which
    point an exception struck; configuration loading is reached through
    `load`. */
module Tasks {
  import opened Base
  import opened TaskText

  datatype Status = Pending | Completed | Failed

  /** The status text stored in a record. */
  function StatusName(s: Status): (r: string)
    ensures r == "pending" <==> s == Pending
    ensures r == "completed" <==> s == Completed
    ensures r == "failed" <==> s == Failed
  {
    match s
    case Pending => "pending"
    case Completed => "completed"
    case Failed => "failed"
  }

  /** One entry of `tasks_store`. */
  datatype TaskRecord = TaskRecord(
    status: Status,
    createdAt: string,
    finalResult: Option<string>,
    errors: Option<string>,
    modelActions: Option<string>,
    modelThoughts: Option<string>,
    recordingPath: Option<string>,
    traceFile: Option<string>,
    historyFile: Option<string>)

  /** Every field a run writes on success is still None. */
  predicate ResultsEmpty(rec: TaskRecord)
  {
    && rec.finalResult.None? && rec.modelActions.None? && rec.modelThoughts.None?
    && rec.recordingPath.None? && rec.traceFile.None? && rec.historyFile.None?
  }

  /** The body of POST /tasks. */
  datatype TaskRequest = TaskRequest(task: string, addInfos: Option<string>, configFile: Option<string>)

  /** The answer of POST /tasks. */
  datatype TaskResponse = TaskResponse(taskId: string, status: string, createdAt: string)

  /** The view of one record returned by GET /tasks and GET /tasks/{id};
      it carries the id and has no created_at. */
  datatype TaskResult = TaskResult(
    taskId: string,
    status: string,
    finalResult: Option<string>,
    errors: Option<string>,
    modelActions: Option<string>,
    modelThoughts: Option<string>,
    recordingPath: Option<string>,
    traceFile: Option<string>,
    historyFile: Option<string>)

  /** Where the configuration comes from: the named file, or the built-in
      default. */
  datatype ConfigSource = FromFile(path: string) | Default

  /** The items of an agent's run history. */
  datatype History = History(finalResult: Item, errors: Trace, modelActions: Trace, modelThoughts: Trace)

  /** Which engine resources had been bound when an exception struck. */
  datatype Held = Nothing | BrowserOnly | BrowserAndContext

  /** What the engine's part of execute_task came to: the agent's history
      and id, or an exception with its text. */
  datatype EngineRun = Finished(history: History, agentId: string) | Raised(held: Held, message: string)

  datatype Resource = BrowserContext | Browser

  /** What the finally block did: the resources closed, in order, and the
      name of the unbound local variable whose use raised there, if any. */
  datatype Cleanup = Cleanup(closed: seq<Resource>, escaped: Option<string>)

  /** A record with its cleanup. */
  datatype Execution = Execution(record: TaskRecord, cleanup: Cleanup)

  /** The record create_task inserts. */
  function PendingRecord(createdAt: string): (r: TaskRecord)
    ensures r.status == Pending && r.createdAt == createdAt
    ensures ResultsEmpty(r) && r.errors.None?
  {
    TaskRecord(Pending, createdAt, None, None, None, None, None, None, None)
  }

  /** `if task_request.config_file:` picks the file only for a non-empty
      name. */
  function ConfigSourceOf(req: TaskRequest): (r: ConfigSource)
    ensures r.FromFile? <==> req.configFile.Some? && req.configFile.value != ""
    ensures r.FromFile? ==> r.path == req.configFile.value
  {
    if req.configFile.Some? && req.configFile.value != "" then FromFile(req.configFile.value) else Default
  }

  /** The success update: every result field rewritten from the history and
      the configuration; created_at kept. */
  function CompletedRecord(rec: TaskRecord, h: History, agentId: string, cfg: Config, enc: Encoders): (r: TaskRecord)
    ensures r.status == Completed && r.createdAt == rec.createdAt
    ensures r.finalResult == Some(FinalResultText(enc, h.finalResult))
    ensures r.errors == Some(Transcript(enc, h.errors))
    ensures r.modelActions == Some(Transcript(enc, h.modelActions))
    ensures r.modelThoughts == Some(Transcript(enc, h.modelThoughts))
    ensures r.recordingPath == RecordingPath(cfg) && r.traceFile == TraceFile(cfg)
    ensures r.historyFile == Some(HistoryFile(cfg, agentId))
  {
    rec.(
      status := Completed,
      finalResult := Some(FinalResultText(enc, h.finalResult)),
      errors := Some(Transcript(enc, h.errors)),
      modelActions := Some(Transcript(enc, h.modelActions)),
      modelThoughts := Some(Transcript(enc, h.modelThoughts)),
      recordingPath := RecordingPath(cfg),
      traceFile := TraceFile(cfg),
      historyFile := Some(HistoryFile(cfg, agentId)))
  }

  /** The except-branch update: only status and errors are written. */
  function FailedRecord(rec: TaskRecord, message: string): (r: TaskRecord)
    ensures r.status == Failed && r.errors == Some(message)
    ensures r.(status := rec.status, errors := rec.errors) == rec
  {
    rec.(status := Failed, errors := Some(message))
  }

  /** The finally block. `config` is None when `config_dict` was never
      bound. Unless keep_browser_open is set, the context is closed and then
      the browser; when the context was never bound, testing it raises
      before anything is closed. */
  function Release(config: Option<Config>, held: Held): (r: Cleanup)
    ensures r.closed == [] || r.closed == [BrowserContext, Browser]
    ensures r.closed != [] <==> config.Some? && !KeepBrowserOpen(config.value) && held == BrowserAndContext
    ensures r.escaped.Some? <==> config.None? || (!KeepBrowserOpen(config.value) && held != BrowserAndContext)
    ensures config.None? ==> r.escaped == Some("config_dict")
    ensures config.Some? && r.escaped.Some? ==> r.escaped == Some("browser_context")
  {
    if config.None? then Cleanup([], Some("config_dict"))
    else if KeepBrowserOpen(config.value) then Cleanup([], None)
    else if held != BrowserAndContext then Cleanup([], Some("browser_context"))
    else Cleanup([BrowserContext, Browser], None)
  }

  /** execute_task as one step on a record: load the configuration, run the
      engine, write the outcome, release. */
  function Executed(
    rec: TaskRecord,
    request: TaskRequest,
    load: ConfigSource -> Result<Config, string>,
    engine: (TaskRequest, Config) -> EngineRun,
    enc: Encoders): (r: Execution)
    ensures r.record.createdAt == rec.createdAt
    ensures r.record.status == Completed || r.record.status == Failed
    ensures r.record.status == Completed <==>
      load(ConfigSourceOf(request)).Ok? && engine(request, load(ConfigSourceOf(request)).value).Finished?
    ensures r.record.status == Failed ==>
      r.record == rec.(status := Failed, errors := r.record.errors) && r.record.errors.Some?
    ensures load(ConfigSourceOf(request)).Err? ==>
      r.record.errors == Some(load(ConfigSourceOf(request)).error) && r.cleanup == Cleanup([], Some("config_dict"))
    ensures load(ConfigSourceOf(request)).Ok? ==> r.cleanup.escaped != Some("config_dict")
    ensures var l := load(ConfigSourceOf(request));
      l.Ok? && engine(request, l.value).Raised? ==>
        && r.record == FailedRecord(rec, engine(request, l.value).message)
        && r.record.errors == Some(engine(request, l.value).message)
        && r.cleanup == Release(Some(l.value), engine(request, l.value).held)
    ensures var l := load(ConfigSourceOf(request));
      l.Ok? && engine(request, l.value).Finished? ==>
        && r.record == CompletedRecord(rec, engine(request, l.value).history, engine(request, l.value).agentId, l.value, enc)
        && r.cleanup == Release(Some(l.value), BrowserAndContext)
        && (!KeepBrowserOpen(l.value) ==> r.cleanup == Cleanup([BrowserContext, Browser], None))
        && (KeepBrowserOpen(l.value) ==> r.cleanup == Cleanup([], None))
  {
    var loaded := load(ConfigSourceOf(request));
    if loaded.Err? then
      Execution(FailedRecord(rec, loaded.error), Release(None, Nothing))
    else
      var cfg := loaded.value;
      match engine(request, cfg)
      case Finished(h, agentId) =>
        Execution(CompletedRecord(rec, h, agentId, cfg, enc), Release(Some(cfg), BrowserAndContext))
      case Raised(held, message) =>
        Execution(FailedRecord(rec, message), Release(Some(cfg), held))
  }

  /** The view of a stored record. */
  function View(taskId: string, rec: TaskRecord): (r: TaskResult)
    ensures r.taskId == taskId && r.status == StatusName(rec.status)
    ensures r.finalResult == rec.finalResult && r.errors == rec.errors
    ensures r.modelActions == rec.modelActions && r.modelThoughts == rec.modelThoughts
    ensures r.recordingPath == rec.recordingPath && r.traceFile == rec.traceFile
    ensures r.historyFile == rec.historyFile
  {
    TaskResult(taskId, StatusName(rec.status), rec.finalResult, rec.errors, rec.modelActions,
      rec.modelThoughts, rec.recordingPath, rec.traceFile, rec.historyFile)
  }

  /** The views of `ids`, in the order of `ids`. */
  function Views(ids: seq<string>, records: map<string, TaskRecord>): (r: seq<TaskResult>)
    requires forall i | 0 <= i < |ids| :: ids[i] in records
    ensures |r| == |ids|
    ensures forall i | 0 <= i < |ids| :: r[i] == View(ids[i], records[ids[i]])
  {
    if ids == [] then [] else [View(ids[0], records[ids[0]])] + Views(ids[1..], records)
  }

  /** The global `tasks_store` dict. `order` lists its keys in insertion
      order, as iterating over the dict yields them. */
  class TaskStore {
    var order: seq<string>
    var records: map<string, TaskRecord>

    ghost predicate Valid()
      reads this
    {
      && (forall i | 0 <= i < |order| :: order[i] in records)
      && (forall id | id in records :: id in order)
      && (forall i, j | 0 <= i < j < |order| :: order[i] != order[j])
    }

    constructor ()
      ensures Valid() && order == [] && records == map[]
    {
      order := [];
      records := map[];
    }

    /** create_task: `taskId` stands for the fresh `uuid4()` and `now` for
        the clock's isoformat text. Scheduling execute_task is left to the
        caller. */
    method CreateTask(request: TaskRequest, taskId: string, now: string) returns (response: TaskResponse)
      requires Valid()
      requires taskId !in records
      modifies this
      ensures Valid()
      ensures records == old(records)[taskId := PendingRecord(now)]
      ensures order == old(order) + [taskId]
      ensures response == TaskResponse(taskId, "pending", now)
    {
      records := records[taskId := TaskRecord(Pending, now, None, None, None, None, None, None, None)];
      order := order + [taskId];
      response := TaskResponse(taskId, StatusName(records[taskId].status), records[taskId].createdAt);
    }

    /** execute_task for a task that create_task has stored. Only the
        record of `taskId` is written. */
    method ExecuteTask(
      taskId: string,
      request: TaskRequest,
      load: ConfigSource -> Result<Config, string>,
      engine: (TaskRequest, Config) -> EngineRun,
      enc: Encoders) returns (cleanup: Cleanup)
      requires Valid()
      requires taskId in records
      modifies this
      ensures Valid() && order == old(order)
      ensures records.Keys == old(records).Keys
      ensures records == old(records)[taskId := Executed(old(records[taskId]), request, load, engine, enc).record]
      ensures cleanup == Executed(old(records[taskId]), request, load, engine, enc).cleanup
    {
      var configDict: Option<Config> := None;
      var held := Nothing;
      // try
      var loaded := load(ConfigSourceOf(request));
      if loaded.Err? {
        // except
        records := records[taskId := records[taskId].(status := Failed, errors := Some(loaded.error))];
      } else {
        configDict := Some(loaded.value);
        var run := engine(request, loaded.value);
        match run {
          case Finished(h, agentId) =>
            held := BrowserAndContext;
            var rec := records[taskId];
            records := records[taskId := rec.(
              status := Completed,
              finalResult := Some(FinalResultText(enc, h.finalResult)),
              errors := Some(Transcript(enc, h.errors)),
              modelActions := Some(Transcript(enc, h.modelActions)),
              modelThoughts := Some(Transcript(enc, h.modelThoughts)),
              recordingPath := RecordingPath(loaded.value),
              traceFile := TraceFile(loaded.value),
              historyFile := Some(HistoryFile(loaded.value, agentId)))];
          case Raised(at, message) =>
            held := at;
            // except
            records := records[taskId := records[taskId].(status := Failed, errors := Some(message))];
        }
      }
      // finally
      var closed: seq<Resource> := [];
      var escaped: Option<string> := None;
      if configDict.None? {
        escaped := Some("config_dict");
      } else if !KeepBrowserOpen(configDict.value) {
        if held == BrowserAndContext {
          closed := closed + [BrowserContext];
          closed := closed + [Browser];
        } else {
          escaped := Some("browser_context");
        }
      }
      cleanup := Cleanup(closed, escaped);
    }

    /** get_task_result: the view of the stored record, or 404. */
    function GetTaskResult(taskId: string): (r: Result<TaskResult, HttpError>)
      reads this
      ensures r.Err? <==> taskId !in records
      ensures r.Err? ==> r.error == HttpError(404, "Task not found")
      ensures r.Ok? ==> r.value == View(taskId, records[taskId])
    {
      if taskId !in records then Err(HttpError(404, "Task not found")) else Ok(View(taskId, records[taskId]))
    }

    /** list_tasks: one view per stored record, in insertion order. */
    function ListTasks(): (r: seq<TaskResult>)
      reads this
      requires Valid()
      ensures |r| == |order|
      ensures forall i | 0 <= i < |r| :: r[i] == View(order[i], records[order[i]])
      ensures forall id | id in records :: exists i | 0 <= i < |r| :: r[i].taskId == id
      ensures forall i, j | 0 <= i < j < |r| :: r[i].taskId != r[j].taskId
    {
      Views(order, records)
    }
  }
}
