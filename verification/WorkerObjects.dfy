/**
 The worker service with its objects: tasks that are updated in place and shared by two tables.
 Each method is one critical section and is proved to do what the step of the same name does
 in the step system.
 */
module WorkerObjects {
  import opened Common
  import opened Phases
  import opened RateLimits
  import opened Worker

  class TaskObject {
    const taskId: TaskId
    const requestId: RequestId
    const user: int
    const fingerprint: string
    const mode: Mode
    const timeout: int
    var state: Phase
    var phase: Phase
    var phaseMessage: string
    var summary: Option<string>
    var data: Data
    var artifacts: seq<string>
    var warnings: seq<string>
    var errorCode: Option<ErrorCode>
    var message: Option<string>
    const createdAt: real
    var startedAt: Option<real>
    var finishedAt: Option<real>
    var updatedAt: real

    constructor (taskId: TaskId, requestId: RequestId, user: int, fingerprint: string, mode: Mode, timeout: int,
        now: real)
      ensures this.taskId == taskId && View() == NewTask(requestId, user, fingerprint, mode, timeout, now)
    {
      this.taskId := taskId;
      this.requestId, this.user, this.fingerprint := requestId, user, fingerprint;
      this.mode, this.timeout := mode, timeout;
      state, phase, phaseMessage := Created, Created, "created";
      summary, data, artifacts, warnings, errorCode, message := None, map[], [], [], None, None;
      createdAt, startedAt, finishedAt, updatedAt := now, None, None, now;
    }

    function View(): (t: Task)
      reads this
      ensures t.state == state && t.fingerprint == fingerprint && t.errorCode == errorCode
    {
      Task(requestId, user, fingerprint, mode, timeout, state, phase, phaseMessage, summary, data, artifacts, warnings,
           errorCode, message, createdAt, startedAt, finishedAt, updatedAt)
    }

    /** The first start and the first end are stamped with the time of the call, and no other. */
    ghost predicate StampedAs(started: Option<real>, finished: Option<real>, next: Phase, now: real)
      reads this
    {
      && startedAt == (if next != Created && started.None? then Some(now) else started)
      && finishedAt == (if Terminal(next) && finished.None? then Some(now) else finished)
    }

    method SetState(next: Phase, text: string, now: real)
      modifies this
      ensures View() == old(View()).SetState(next, text, now)
      ensures StampedAs(old(startedAt), old(finishedAt), next, now)
    {
      hide Terminal;
      state := next;
      phase := next;
      phaseMessage := text;
      updatedAt := now;
      if next != Created && startedAt.None? {
        startedAt := Some(updatedAt);
      }
      if Terminal(next) && finishedAt.None? {
        finishedAt := Some(updatedAt);
      }
    }

    method TimeOut(now: real)
      modifies this
      ensures View() == TimedOut(old(View()), now)
    {
      hide Task.SetState, StampedAs;
      errorCode := Some(OperationTimeout);
      message := Some("timeout");
      SetState(Cleanup, "cleanup after timeout", now);
      SetState(Timeout, "timeout", now);
    }

    method Refuse(code: ErrorCode, text: string, now: real)
      modifies this
      ensures View() == RunnerRefused(old(View()), code, text, now)
    {
      hide Task.SetState, StampedAs;
      errorCode := Some(code);
      message := Some(text);
      SetState(Cleanup, "cleanup after error", now);
      SetState(Failed, text, now);
    }

    method Complete(result: RunnerResult, now: real)
      modifies this
      ensures View() == Completed(old(View()), result, now)
    {
      hide Task.SetState, StampedAs;
      summary := Some(result.summary);
      data := result.data;
      artifacts := result.artifacts;
      warnings := warnings + result.warnings;
      SetState(Cleanup, "cleanup", now);
      SetState(Finished, "done", now);
    }

    method Normalize(text: string, now: real)
      modifies this
      ensures View() == Normalized(old(View()), text, now)
    {
      hide Task.SetState, StampedAs;
      errorCode := Some(InternalError);
      message := Some(text);
      SetState(Cleanup, "cleanup after error", now);
      SetState(Failed, "internal error", now);
    }

    /** Whole seconds from start to end, never negative; nothing before the task has started. */
    method DurationSec(now: real) returns (r: Option<int>)
      ensures r == View().Duration(now)
      ensures r.Some? <==> Terminal(state) || startedAt.Some?
      ensures r.Some? ==> r.value >= 0
      ensures r.Some? ==>
                var end := if finishedAt.Some? then finishedAt.value else now;
                var start := if startedAt.Some? then startedAt.value else createdAt;
                if end < start then r.value == 0 else start + r.value as real <= end < start + r.value as real + 1.0
    {
      var end := if finishedAt.Some? then finishedAt.value else now;
      var start := if startedAt.Some? then startedAt.value else createdAt;
      if Terminal(state) || startedAt.Some? {
        r := Some(NonNegative(Truncated(end - start)));
      } else {
        r := None;
      }
    }
  }

  /** What joining the runner thread comes to: it raises, or returns with the thread alive or over. */
  datatype Join = Raises | Alive | Over(how: Thread)
  {
    function StepOf(id: TaskId): Step {
      match this
      case Raises => Overflow(id)
      case Alive => GiveUp(id)
      case Over(_) => Collect(id)
    }
  }

  class WorkerService {
    const cfg: Config
    const rateLimiter: RateLimiter
    var tasksById: map<TaskId, TaskObject>
    var tasksByRequestId: map<RequestId, TaskObject>
    var secretsByTaskId: map<TaskId, Credentials>

    ghost function Tasks(): set<object>
      reads this
    {
      set id | id in tasksById :: tasksById[id] as object
    }

    ghost predicate HoldsLimits(s: Service)
      reads this, rateLimiter
    {
      && rateLimiter.Valid()
      && rateLimiter.globalLimit == cfg.globalLimit && rateLimiter.userLimit == cfg.userLimit
      && rateLimiter.accepted == s.accepted && rateLimiter.clock <= s.clock
    }

    /** Every object knows its id, so different ids have different objects. */
    ghost predicate HoldsTask(s: Service, id: TaskId)
      reads this, Tasks()
    {
      && (id in tasksById <==> id in s.entries)
      && (id in tasksById ==> tasksById[id].taskId == id && tasksById[id].View() == s.entries[id].task)
    }

    /** The table by request id shares the objects of the other. */
    ghost predicate HoldsRequest(s: Service, r: RequestId)
      reads this
    {
      && (r in tasksByRequestId <==> r in s.byRequest)
      && (r in tasksByRequestId ==> s.byRequest[r] in tasksById && tasksByRequestId[r] == tasksById[s.byRequest[r]])
    }

    /** The tables hold what the step system's state `s` says, at its clock. */
    ghost predicate Holds(s: Service)
      reads this, rateLimiter, Tasks()
    {
      && HoldsLimits(s)
      && (forall id :: HoldsTask(s, id))
      && (forall r :: HoldsRequest(s, r))
      && secretsByTaskId == s.secrets
    }

    constructor (cfg: Config, now: real)
      ensures Holds(Initial(now)) && fresh(rateLimiter)
    {
      this.cfg := cfg;
      rateLimiter := new RateLimiter(cfg.globalLimit, cfg.userLimit, now);
      tasksById, tasksByRequestId, secretsByTaskId := map[], map[], map[];
    }

    /** `_active_task`. */
    method ActiveTask(ghost s: Service) returns (busy: bool)
      requires Holds(s)
      ensures busy == Busy(s) && Holds(s)
    {
      hide RateLimiter.Valid;
      var ids := tasksById.Keys;
      forall id
        ensures id in ids <==> id in s.entries
      {
        assert HoldsTask(s, id);
      }
      while ids != {}
        invariant ids <= tasksById.Keys && Holds(s)
        invariant forall id :: id in ids ==> id in s.entries
        invariant forall id :: id in s.entries && id !in ids ==> Terminal(s.entries[id].task.state)
        decreases |ids|
      {
        SomeId(ids);
        var id :| id in ids;
        assert HoldsTask(s, id);
        if !Terminal(tasksById[id].state) {
          assert !Terminal(s.entries[id].task.state);
          return true;
        }
        ids := ids - {id};
      }
      busy := false;
    }

    /** One new object, in both tables. */
    method Store(c: CreateCall, now: real)
      requires c.requestId.Some? && c.user.Some? && c.body.Some?
      modifies this`tasksById, this`tasksByRequestId, this`secretsByTaskId
      ensures c.newId in tasksById && tasksById == old(tasksById)[c.newId := tasksById[c.newId]]
      ensures tasksByRequestId == old(tasksByRequestId)[c.requestId.value := tasksById[c.newId]]
      ensures secretsByTaskId == old(secretsByTaskId)[c.newId := c.body.value.credentials]
      ensures fresh(tasksById[c.newId]) && tasksById[c.newId].taskId == c.newId
      ensures tasksById[c.newId].View()
              == NewTask(c.requestId.value, c.user.value, c.fingerprint, c.body.value.mode, c.body.value.timeout, now)
    {
      var Body(mode, timeout, credentials) := c.body.value;
      var task := new TaskObject(c.newId, c.requestId.value, c.user.value, c.fingerprint, mode, timeout, now);
      tasksById := tasksById[c.newId := task];
      tasksByRequestId := tasksByRequestId[c.requestId.value := task];
      secretsByTaskId := secretsByTaskId[c.newId := credentials];
    }

    /** The last part of `create_task`; starting the thread may raise, and then no answer is given. */
    method Insert(c: CreateCall, now: real, ghost s: Service) returns (reply: Reply)
      requires Holds(s) && s.clock == now && c.newId !in s.entries && c.requestId.Some? && c.user.Some? && c.body.Some?
      requires c.requestId.value !in s.byRequest
      modifies this
      ensures reply == if c.starts then Started(c.newId) else Dropped(c.newId)
      ensures Holds(Inserted(s, c))
    {
      hide TaskObject.View, RateLimiter.Valid, NewTask;
      assert HoldsTask(s, c.newId);
      Store(c, now);
      reply := if c.starts then Started(c.newId) else Dropped(c.newId);
      ghost var t := Inserted(s, c);
      forall id
        ensures HoldsTask(t, id)
      {
        assert old(HoldsTask(s, id));
      }
      forall r
        ensures HoldsRequest(t, r)
      {
        assert old(HoldsRequest(s, r));
      }
    }

    // --- The critical sections of an executor and of a runner thread -----------------------------

    /** `_set_state`, as a runner thread calls it: a terminal task is left alone. */
    method SetState(id: TaskId, next: Phase, text: string, now: real, ghost s: Service)
      requires id in tasksById && Holds(s) && s.clock == now && Enabled(cfg, s, Announce(id, next, text))
      modifies tasksById[id]
      ensures Holds(Next(cfg, s, Announce(id, next, text)))
    {
      hide TaskObject.View, RateLimiter.Valid, Announces, Task.SetState, TaskObject.StampedAs;
      assert HoldsTask(s, id);
      Distinct(s, id);
      var task := tasksById[id];
      if !Terminal(task.state) {
        task.SetState(next, text, now);
      }
      OthersKeep(s);
      HoldsOneTask(s, Next(cfg, s, Announce(id, next, text)), id);
    }

    /** The outcome of a run, by what the join made of it; what is raised goes to the handler. */
    method Decide(id: TaskId, join: Join, now: real, ghost s: Service) returns (raised: Option<string>)
      requires id in tasksById && Holds(s) && s.clock == now && Enabled(cfg, s, join.StepOf(id))
      requires join.Over? ==> join.how == s.entries[id].thread
      modifies tasksById[id]
      ensures Holds(Next(cfg, s, join.StepOf(id)))
      ensures raised == if join.Raises? then Some(TOO_LONG)
                        else if join.Over? && join.how.Crashed? then Some(join.how.message) else None
      ensures raised.Some? <==> Next(cfg, s, join.StepOf(id)).entries[id].executor.Raising?
      ensures raised.Some? ==> Next(cfg, s, join.StepOf(id)).entries[id].executor.text == raised.value
    {
      hide TaskObject.View, RateLimiter.Valid, TimedOut, RunnerRefused, Completed;
      assert HoldsTask(s, id);
      Distinct(s, id);
      var task := tasksById[id];
      raised := None;
      match join {
        case Raises => raised := Some(TOO_LONG);
        case Alive => task.TimeOut(now);
        case Over(Refused(code, message)) => task.Refuse(code, message, now);
        case Over(Crashed(message)) => raised := Some(message);
        case Over(Returned(result)) => task.Complete(result, now);
        case Over(_) =>
      }
      OthersKeep(s);
      HoldsOneTask(s, Next(cfg, s, join.StepOf(id)), id);
    }

    /** The handler of `_execute_task` for whatever was raised. */
    method Normalize(id: TaskId, text: string, now: real, ghost s: Service)
      requires id in tasksById && Holds(s) && s.clock == now && Enabled(cfg, s, Step.Normalize(id))
               && s.entries[id].executor == Raising(text)
      modifies tasksById[id]
      ensures Holds(Next(cfg, s, Step.Normalize(id)))
    {
      hide TaskObject.View, RateLimiter.Valid, Normalized;
      assert HoldsTask(s, id);
      Distinct(s, id);
      tasksById[id].Normalize(text, now);
      OthersKeep(s);
      HoldsOneTask(s, Next(cfg, s, Step.Normalize(id)), id);
    }

    /** The `finally` block; the record it hands to the audit log tells of the task as it will stay. */
    method Finalise(id: TaskId, ghost written: bool, now: real, ghost s: Service) returns (record: AuditRecord)
      requires id in tasksById && Holds(s) && s.clock == now && Enabled(cfg, s, Step.Finalise(id, written))
      modifies this`secretsByTaskId, tasksById[id]
      ensures Holds(Next(cfg, s, Step.Finalise(id, written)))
      ensures record == AuditOf(id, Next(cfg, s, Step.Finalise(id, written)).entries[id].task, now)
    {
      hide TaskObject.View, RateLimiter.Valid, Task.SetState, TaskObject.StampedAs, Task.Duration;
      assert HoldsTask(s, id);
      Distinct(s, id);
      var task := tasksById[id];
      secretsByTaskId := secretsByTaskId - {id};
      if !Terminal(task.state) {
        task.SetState(Cleanup, "cleanup", now);
        task.SetState(Failed, "no result", now);
      }
      var duration := task.DurationSec(now);
      record := AuditRecord(id, task.state, task.errorCode, duration);
      OthersKeep(s);
      HoldsOneTask(s, Next(cfg, s, Step.Finalise(id, written)), id);
    }

    lemma Distinct(s: Service, id: TaskId)
      requires id in tasksById && forall a :: HoldsTask(s, a)
      ensures forall a :: a in tasksById && a != id ==> tasksById[a] != tasksById[id]
    {
      hide TaskObject.View;
      forall a | a in tasksById && a != id
        ensures tasksById[a] != tasksById[id]
      {
        assert HoldsTask(s, a) && HoldsTask(s, id);
      }
    }

    /** Tasks that were not touched are as they were, and so is the table by request id. */
    twostate lemma OthersKeep(s: Service)
      requires tasksById == old(tasksById) && tasksByRequestId == old(tasksByRequestId)
      ensures forall a :: (a in tasksById ==> unchanged(tasksById[a])) && old(HoldsTask(s, a)) ==> HoldsTask(s, a)
      ensures forall r :: old(HoldsRequest(s, r)) ==> HoldsRequest(s, r)
    {
      hide TaskObject.View;
    }

    /** Changing one task leaves the others and the limits as they were. */
    lemma HoldsOneTask(s: Service, t: Service, id: TaskId)
      requires HoldsLimits(s) && (forall a :: a != id ==> HoldsTask(s, a)) && (forall r :: HoldsRequest(s, r))
      requires id in tasksById && tasksById[id].taskId == id && id in t.entries
               && tasksById[id].View() == t.entries[id].task
      requires t.entries == s.entries[id := t.entries[id]] && t.byRequest == s.byRequest && t.accepted == s.accepted
               && t.clock == s.clock
      requires secretsByTaskId == t.secrets
      ensures Holds(t)
    {
      hide TaskObject.View, RateLimiter.Valid;
      forall a
        ensures HoldsTask(t, a)
      {
        assert a != id ==> HoldsTask(s, a);
      }
      forall r
        ensures HoldsRequest(t, r)
      {
        assert HoldsRequest(s, r);
      }
    }

    /** `create_task`; `s` is the abstract state it starts from. */
    method CreateTask(c: CreateCall, now: real, ghost s: Service) returns (reply: Reply)
      requires Holds(s) && s.clock == now && c.newId !in s.entries
      modifies this, rateLimiter
      ensures reply == Worker.CreateTask(cfg, s, c).1
      ensures Holds(Worker.CreateTask(cfg, s, c).0)
    {
      hide TaskObject.View, RateLimiter.Valid, Admits, Busy, NewTask;
      if c.requestId.None? {
        return Rejected(BadRequest);
      }
      assert HoldsRequest(s, c.requestId.value);
      if c.requestId.value in tasksByRequestId {
        var existing := tasksByRequestId[c.requestId.value];
        ghost var id := s.byRequest[c.requestId.value];
        assert HoldsTask(s, id);
        assert existing.taskId == id && existing.View() == s.entries[id].task;
        if existing.fingerprint != c.fingerprint {
          return Rejected(RequestIdConflict);
        }
        return Replayed(existing.taskId);
      }
      if c.user.None? {
        return Rejected(BadRequest);
      }
      var admitted := rateLimiter.Check(c.user.value, now);
      ghost var charged := s.(accepted := Record(cfg.globalLimit, cfg.userLimit, s.accepted, c.user.value, s.clock));
      assert Holds(charged) by {
        forall id
          ensures HoldsTask(charged, id)
        {
          assert old(HoldsTask(s, id));
        }
        forall r
          ensures HoldsRequest(charged, r)
        {
          assert old(HoldsRequest(s, r));
        }
      }
      if !admitted {
        return Rejected(RateLimited);
      }
      var busy := ActiveTask(charged);
      assert busy == Busy(s) by { SameEntriesBusy(s, charged); }
      if busy {
        return Rejected(WorkerBusy);
      }
      if c.body.None? || c.body.value.timeout <= 0 {
        return Rejected(BadRequest);
      }
      reply := Insert(c, now, charged);
    }
  }

  lemma SameEntriesBusy(s: Service, t: Service)
    requires s.entries == t.entries
    ensures Busy(s) == Busy(t)
  {
  }

  /** A new task in all three tables, and its executor's thread if that can be started. */
  function Inserted(s: Service, c: CreateCall): Service
    requires c.requestId.Some? && c.user.Some? && c.body.Some?
  {
    var Body(mode, timeout, credentials) := c.body.value;
    s.(entries := s.entries[c.newId :=
        Entry(NewTask(c.requestId.value, c.user.value, c.fingerprint, mode, timeout, s.clock),
              if c.starts then Loading else Unborn, NotStarted)],
       byRequest := s.byRequest[c.requestId.value := c.newId],
       secrets := s.secrets[c.newId := credentials],
       threads := if c.starts then s.threads + [c.newId] else s.threads)
  }

  lemma SomeId(ids: set<TaskId>)
    ensures ids == {} || exists id :: id in ids
  {
    if forall id :: id !in ids {
      assert ids == {};
    }
  }
}
