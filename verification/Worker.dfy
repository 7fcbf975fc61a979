/**
 The worker's task service as a step system. Every access to the tables and to a task's
 changing fields happens under one lock, so each critical section is one step; the
 environment chooses which thread moves next, when a join times out, what a runner
 announces and how it ends.
 */
module Worker {
  import opened Common
  import opened Phases
  import opened RateLimits

  type TaskId = nat
  type RequestId = string

  datatype Mode = DryRunMode | ExistingContainerMode | JobContainerMode | OtherMode(name: string)

  /** The text of `runner_mode`. */
  function NameOf(mode: Mode): string {
    match mode
    case DryRunMode => "dry_run"
    case ExistingContainerMode => "existing_container"
    case JobContainerMode => "job_container"
    case OtherMode(name) => name
  }

  datatype Config = Config(runnerUrl: bool, globalLimit: int, userLimit: int)

  /** The runner for a task, if the mode is known; with a daemon configured the mode is not looked at. */
  function CreateRunner(runnerUrl: bool, mode: Mode): Option<Program> {
    if runnerUrl then Some(DaemonClient)
    else match mode
      case DryRunMode => Some(DryRun)
      case ExistingContainerMode => Some(ExistingContainer)
      case JobContainerMode => Some(JobContainer)
      case OtherMode(_) => None
  }

  datatype Task = Task(
    requestId: RequestId, user: int, fingerprint: string, mode: Mode, timeout: int,
    state: Phase, phase: Phase, phaseMessage: string,
    summary: Option<string>, data: Data, artifacts: seq<string>, warnings: seq<string>,
    errorCode: Option<ErrorCode>, message: Option<string>,
    createdAt: real, startedAt: Option<real>, finishedAt: Option<real>, updatedAt: real)
  {
    function SetState(next: Phase, text: string, now: real): Task {
      this.(
        state := next, phase := next, phaseMessage := text, updatedAt := now,
        startedAt := if next != Created && startedAt.None? then Some(now) else startedAt,
        finishedAt := if Terminal(next) && finishedAt.None? then Some(now) else finishedAt)
    }

    function Duration(now: real): Option<int> {
      var end := if finishedAt.Some? then finishedAt.value else now;
      var start := if startedAt.Some? then startedAt.value else createdAt;
      if Terminal(state) || startedAt.Some? then Some(NonNegative(Truncated(end - start))) else None
    }

    function Result(): RunnerResult
      requires summary.Some?
    {
      RunnerResult(summary.value, data, artifacts, warnings)
    }
  }

  /** Python's `int` of a float drops the fraction. */
  function Truncated(x: real): int {
    if x < 0.0 then -(-x).Floor else x.Floor
  }

  function NewTask(requestId: RequestId, user: int, fingerprint: string, mode: Mode, timeout: int, now: real): Task {
    Task(requestId, user, fingerprint, mode, timeout, Created, Created, "created", None, map[], [], [], None, None,
      now, None, None, now)
  }

  // The writes of `_execute_task`, each a single critical section.

  function TimedOut(t: Task, now: real): Task {
    t.(errorCode := Some(OperationTimeout), message := Some("timeout"))
     .SetState(Cleanup, "cleanup after timeout", now).SetState(Timeout, "timeout", now)
  }

  function RunnerRefused(t: Task, code: ErrorCode, message: string, now: real): Task {
    t.(errorCode := Some(code), message := Some(message))
     .SetState(Cleanup, "cleanup after error", now).SetState(Failed, message, now)
  }

  function Completed(t: Task, r: RunnerResult, now: real): Task {
    t.(summary := Some(r.summary), data := r.data, artifacts := r.artifacts, warnings := t.warnings + r.warnings)
     .SetState(Cleanup, "cleanup", now).SetState(Finished, "done", now)
  }

  function Normalized(t: Task, text: string, now: real): Task {
    t.(errorCode := Some(InternalError), message := Some(text))
     .SetState(Cleanup, "cleanup after error", now).SetState(Failed, "internal error", now)
  }

  function WithoutResult(t: Task, now: real): Task {
    t.SetState(Cleanup, "cleanup", now).SetState(Failed, "no result", now)
  }

  const TOO_LONG := "the timeout is too long"

  /** Where the executor thread of a task stands. */
  datatype Executor =
    | Unborn                   // its thread could not be started, after the tables were written
    | Loading                  // about to look the task and its credentials up
    | Creating                 // about to create the runner and start its thread
    | Joining                  // about to wait for the runner thread
    | Raising(text: string)    // about to normalise an unexpected exception
    | Finalising               // about to run the `finally` block
    | Ended

  datatype Entry = Entry(task: Task, executor: Executor, thread: Thread)

  datatype Credentials = Credentials(username: string, password: string)

  datatype AuditRecord = AuditRecord(task: TaskId, state: Phase, errorCode: Option<ErrorCode>, duration: Option<int>)

  /** The part of a request that describes the run. */
  datatype Body = Body(mode: Mode, timeout: int, credentials: Credentials)

  /**
   What `create_task` is given. A missing or malformed request id, user or task body is
   `None`; `newId` is the fresh identifier the task would get, and `starts` says whether its executor's
   thread can be started.
   */
  datatype CreateCall = CreateCall(
    requestId: Option<RequestId>, fingerprint: string, user: Option<int>, body: Option<Body>, newId: TaskId,
    starts: bool)

  datatype CreateError = BadRequest | RequestIdConflict | RateLimited | WorkerBusy

  /** `Dropped`: starting the executor's thread raised, and the call with it. */
  datatype Reply = Replayed(task: TaskId) | Started(task: TaskId) | Dropped(task: TaskId) | Rejected(error: CreateError)

  datatype Service = Service(
    entries: map<TaskId, Entry>,
    byRequest: map<RequestId, TaskId>,
    secrets: map<TaskId, Credentials>,
    accepted: seq<Call>,
    clock: real,
    audit: seq<AuditRecord>,
    unaudited: set<TaskId>,          // finalised, but writing the record failed
    threads: seq<TaskId>,            // executor threads in the order they were started
    replies: seq<(CreateCall, Reply)>)

  function Initial(clock: real): Service {
    Service(map[], map[], map[], [], clock, [], {}, [], [])
  }

  /** The call made a task. */
  predicate Makes(reply: Reply) {
    reply.Started? || reply.Dropped?
  }

  predicate Busy(s: Service) {
    exists id :: id in s.entries && !Terminal(s.entries[id].task.state)
  }

  function CreateTask(cfg: Config, s: Service, c: CreateCall): (Service, Reply) {
    if c.requestId.None? then (s, Rejected(BadRequest))
    else if c.requestId.value in s.byRequest && s.byRequest[c.requestId.value] in s.entries then
      var id := s.byRequest[c.requestId.value];
      if s.entries[id].task.fingerprint != c.fingerprint then (s, Rejected(RequestIdConflict)) else (s, Replayed(id))
    else if c.user.None? then (s, Rejected(BadRequest))
    else
      var charged := s.(accepted := Record(cfg.globalLimit, cfg.userLimit, s.accepted, c.user.value, s.clock));
      if !Admits(cfg.globalLimit, cfg.userLimit, s.accepted, c.user.value, s.clock)
        then (charged, Rejected(RateLimited))
      else if Busy(s) then (charged, Rejected(WorkerBusy))
      else if c.body.None? || c.body.value.timeout <= 0 then (charged, Rejected(BadRequest))
      else
        var Body(mode, timeout, credentials) := c.body.value;
        var task := NewTask(c.requestId.value, c.user.value, c.fingerprint, mode, timeout, s.clock);
        (charged.(entries := s.entries[c.newId := Entry(task, if c.starts then Loading else Unborn, NotStarted)],
                  byRequest := s.byRequest[c.requestId.value := c.newId],
                  secrets := s.secrets[c.newId := credentials],
                  threads := if c.starts then s.threads + [c.newId] else s.threads),
         if c.starts then Started(c.newId) else Dropped(c.newId))
  }

  datatype Step =
    | Tick(now: real)
    | Create(call: CreateCall)
    | Load(id: TaskId)
    | Launch(id: TaskId, starts: bool)       // create the runner; starting its thread may raise
    | Overflow(id: TaskId)                   // the join raises: its timeout is too long
    | GiveUp(id: TaskId)                     // the join timed out with the runner still alive
    | Collect(id: TaskId)                    // the join returned with the runner ended
    | Normalize(id: TaskId)
    | Finalise(id: TaskId, written: bool)
    | Announce(id: TaskId, phase: Phase, text: string)
    | End(id: TaskId, how: Thread)

  predicate Enabled(cfg: Config, s: Service, step: Step) {
    match step
    case Tick(now) => s.clock <= now
    case Create(call) => call.newId !in s.entries
    case Load(id) => id in s.entries && s.entries[id].executor.Loading?
    case Launch(id, _) => id in s.entries && s.entries[id].executor.Creating?
    case Overflow(id) =>
      id in s.entries && s.entries[id].executor.Joining? && !Joinable(s.entries[id].task.timeout)
    case GiveUp(id) =>
      && id in s.entries && s.entries[id].executor.Joining? && Joinable(s.entries[id].task.timeout)
      && s.entries[id].thread.Running?
    case Collect(id) =>
      && id in s.entries && s.entries[id].executor.Joining? && Joinable(s.entries[id].task.timeout)
      && !s.entries[id].thread.Running? && !s.entries[id].thread.NotStarted?
    case Normalize(id) => id in s.entries && s.entries[id].executor.Raising?
    case Finalise(id, _) => id in s.entries && s.entries[id].executor.Finalising?
    case Announce(id, phase, _) =>
      && id in s.entries && s.entries[id].thread.Running?
      && CreateRunner(cfg.runnerUrl, s.entries[id].task.mode).Some?
      && Announces(CreateRunner(cfg.runnerUrl, s.entries[id].task.mode).value, s.entries[id].thread.last, phase)
    case End(id, how) =>
      && id in s.entries && s.entries[id].thread.Running? && (how.Returned? || how.Refused? || how.Crashed?)
      && CreateRunner(cfg.runnerUrl, s.entries[id].task.mode).Some?
      && (how.Returned? ==> MayReturn(CreateRunner(cfg.runnerUrl, s.entries[id].task.mode).value,
         s.entries[id].thread.last))
  }

  /** What a step does to the task it names and to the threads working on it. */
  function EntryAfter(cfg: Config, e: Entry, hasSecret: bool, step: Step, now: real): Entry {
    match step
    case Load(_) => e.(executor := if hasSecret then Creating else Raising("credentials are missing"))
    case Launch(_, starts) =>
      if CreateRunner(cfg.runnerUrl, e.task.mode).None? then e.(executor := Raising("unknown runner mode"))
      else if !starts then e.(executor := Raising("the runner thread could not be started"))
      else e.(executor := Joining, thread := Running(Created))
    case Overflow(_) => e.(executor := Raising(TOO_LONG))
    case GiveUp(_) => e.(task := TimedOut(e.task, now), executor := Finalising)
    case Collect(_) => (
      match e.thread
      case Returned(result) => e.(task := Completed(e.task, result, now), executor := Finalising)
      case Refused(code, message) => e.(task := RunnerRefused(e.task, code, message, now), executor := Finalising)
      case Crashed(message) => e.(executor := Raising(message))
      case _ => e)
    case Normalize(_) =>
      if e.executor.Raising? then e.(task := Normalized(e.task, e.executor.text, now), executor := Finalising) else e
    case Finalise(_, _) =>
      e.(task := if Terminal(e.task.state) then e.task else WithoutResult(e.task, now), executor := Ended)
    case Announce(_, phase, text) =>
      e.(task := if Terminal(e.task.state) then e.task else e.task.SetState(phase, text, now), thread := Running(phase))
    case End(_, how) => e.(thread := how)
    case Tick(_) => e
    case Create(_) => e
  }

  function AuditOf(id: TaskId, t: Task, now: real): AuditRecord {
    AuditRecord(id, t.state, t.errorCode, t.Duration(now))
  }

  function Next(cfg: Config, s: Service, step: Step): Service
    requires Enabled(cfg, s, step)
  {
    match step
    case Tick(now) => s.(clock := now)
    case Create(call) =>
      var (s', reply) := CreateTask(cfg, s, call);
      s'.(replies := s.replies + [(call, reply)])
    case _ =>
      var e := EntryAfter(cfg, s.entries[step.id], step.id in s.secrets, step, s.clock);
      var s' := s.(entries := s.entries[step.id := e]);
      if step.Finalise? then
        s'.(secrets := s.secrets - {step.id},
            audit := if step.written then s.audit + [AuditOf(step.id, e.task, s.clock)] else s.audit,
            unaudited := if step.written then s.unaudited else s.unaudited + {step.id})
      else s'
  }
}
