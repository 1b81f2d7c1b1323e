/** The task execution harness every agent inherits: tasks, results, and an
    agent object that runs one task at a time, tracks its status and caches
    completed results by task id. */
module BaseAgent {
  import opened Wrappers
  import opened Records

  datatype AgentStatus = Idle | Processing | Completed | Error

  /** The enum's string value, as reported by `get_status`. */
  function StatusValue(s: AgentStatus): string {
    match s
    case Idle => "idle"
    case Processing => "processing"
    case Completed => "completed"
    case Error => "error"
  }

  datatype AgentTask = AgentTask(
    id: string,
    taskType: string,
    data: TaskData,
    priority: int,
    dependencies: seq<string>)

  /** `AgentTask(id=..., type=..., data=...)`: the dataclass defaults give
      priority 1 and an empty dependency list. */
  function NewTask(id: string, taskType: string, data: TaskData): (t: AgentTask)
    ensures t.id == id && t.taskType == taskType && t.data == data
    ensures t.priority == 1 && t.dependencies == []
  {
    AgentTask(id, taskType, data, 1, [])
  }

  /** A result; its execution time is not modelled. */
  datatype AgentResult = AgentResult(
    taskId: string,
    agentId: string,
    status: AgentStatus,
    data: ResultData,
    error: Option<string>)

  /** `AgentResult(task_id=..., agent_id=..., status=ERROR, error=...)`: the
      dataclass default makes `data` the empty dictionary. */
  function ErrorResult(taskId: string, agentId: string, error: string): (r: AgentResult)
    ensures r.taskId == taskId && r.agentId == agentId
    ensures r.status == Error && r.error == Some(error) && r.data == NoData
  {
    AgentResult(taskId, agentId, Error, NoData, Some(error))
  }

  /** `AgentResult(..., status=COMPLETED, data=...)` with no error. */
  function CompletedResult(taskId: string, agentId: string, data: ResultData): (r: AgentResult)
    ensures r.taskId == taskId && r.agentId == agentId
    ensures r.status == Completed && r.error == None && r.data == data
  {
    AgentResult(taskId, agentId, Completed, data, None)
  }

  /** The message `execute_task` puts in the result when `process_task` raises. */
  function FailureMessage(name: string, taskId: string, message: string): string {
    "Agent " + name + " failed task " + taskId + ": " + message
  }

  datatype StatusReport = StatusReport(
    agentId: string,
    name: string,
    status: string,
    queuedTasks: nat,
    cachedResults: nat)

  class Agent {
    const agentId: string
    const name: string
    var status: AgentStatus
    var tasksQueue: seq<AgentTask>
    var resultsCache: map<string, AgentResult>
    /** Every value `status` has held, in order. */
    ghost var statusLog: seq<AgentStatus>

    /** The cache only ever holds completed results, and the log ends with
        the current status. */
    ghost predicate Valid()
      reads this
    {
      && (forall id | id in resultsCache :: resultsCache[id].status == Completed)
      && statusLog != [] && statusLog[|statusLog| - 1] == status
    }

    constructor (agentId: string, name: string)
      ensures Valid()
      ensures this.agentId == agentId && this.name == name
      ensures status == Idle && tasksQueue == [] && resultsCache == map[]
      ensures statusLog == [Idle]
    {
      this.agentId := agentId;
      this.name := name;
      status := Idle;
      tasksQueue := [];
      resultsCache := map[];
      statusLog := [Idle];
    }

    /** `execute_task`: `process` is the agent's `process_task`. The status is
        PROCESSING while it runs and COMPLETED whenever it returns, whatever
        the status of the result it returned; a returned COMPLETED result is
        cached under the task's id (replacing an earlier one). When it raises,
        the result is an ERROR result naming the agent and task, the status
        becomes ERROR, and the cache is left alone. */
    method ExecuteTask(task: AgentTask, process: AgentTask -> Outcome<AgentResult>) returns (r: AgentResult)
      requires Valid()
      modifies this
      ensures Valid()
      ensures statusLog == old(statusLog) + [Processing, status]
      ensures tasksQueue == old(tasksQueue)
      ensures process(task).Returned? ==>
        && r == process(task).value
        && status == Completed
        && resultsCache == (if r.status == Completed then old(resultsCache)[task.id := r] else old(resultsCache))
      ensures process(task).Raised? ==>
        && r == ErrorResult(task.id, agentId, FailureMessage(name, task.id, process(task).message))
        && status == Error
        && resultsCache == old(resultsCache)
    {
      status := Processing;
      statusLog := statusLog + [Processing];
      var outcome := process(task);
      match outcome {
        case Returned(result) =>
          if result.status == Completed {
            resultsCache := resultsCache[task.id := result];
          }
          status := Completed;
          statusLog := statusLog + [Completed];
          r := result;
        case Raised(message) =>
          status := Error;
          statusLog := statusLog + [Error];
          r := ErrorResult(task.id, agentId, FailureMessage(name, task.id, message));
      }
    }

    /** `add_task`: appends to the queue and touches nothing else. */
    method AddTask(task: AgentTask)
      requires Valid()
      modifies this
      ensures Valid()
      ensures tasksQueue == old(tasksQueue) + [task]
      ensures resultsCache == old(resultsCache) && status == old(status) && statusLog == old(statusLog)
    {
      tasksQueue := tasksQueue + [task];
    }

    /** `get_cached_result`: a lookup that gives None for an unknown id; a
        cached result is always a completed one. */
    function GetCachedResult(taskId: string): (r: Option<AgentResult>)
      reads this
      ensures r.Some? <==> taskId in resultsCache
      ensures r.Some? ==> r.value == resultsCache[taskId]
      ensures Valid() && r.Some? ==> r.value.status == Completed
    {
      if taskId in resultsCache then Some(resultsCache[taskId]) else None
    }

    /** `clear_cache`: empties the cache and leaves the queue and status alone. */
    method ClearCache()
      requires Valid()
      modifies this
      ensures Valid()
      ensures resultsCache == map[]
      ensures tasksQueue == old(tasksQueue) && status == old(status) && statusLog == old(statusLog)
    {
      resultsCache := map[];
    }

    /** `get_status` */
    function GetStatus(): (s: StatusReport)
      reads this
      ensures s.agentId == agentId && s.name == name && s.status == StatusValue(status)
      ensures s.queuedTasks == |tasksQueue| && s.cachedResults == |resultsCache|
    {
      StatusReport(agentId, name, StatusValue(status), |tasksQueue|, |resultsCache|)
    }
  }
}
