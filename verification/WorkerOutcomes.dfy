/** What a task's outcome, its times and its answers mean, over whole runs of the worker. */
module WorkerOutcomes {
  import opened Common
  import opened Phases
  import opened RateLimits
  import opened Worker
  import opened WorkerProofs
  import opened WorkerRuns

  // --- Times ------------------------------------------------------------------------------------

  /** Created, started, finished, in this order and none later than `now`. */
  ghost predicate InOrder(t: Task, now: real) {
    && t.createdAt <= t.updatedAt <= now
    && (t.startedAt.Some? ==> t.createdAt <= t.startedAt.value <= now)
    && (t.finishedAt.Some? ==> t.startedAt.Some? && t.startedAt.value <= t.finishedAt.value <= now)
  }

  /** What a task's stamps owe to a step at the time `now`. */
  ghost predicate Stamped(t: Task, t': Task, now: real) {
    && t'.createdAt == t.createdAt
    && (t.startedAt.Some? ==> t'.startedAt == t.startedAt)
    && (t.finishedAt.Some? ==> t'.finishedAt == t.finishedAt)
    && (t.state == Created && t'.state != Created ==> t'.startedAt == Some(now))
    && (!Terminal(t.state) && Terminal(t'.state) ==> t'.finishedAt == Some(now))
    && (t' != t ==> t'.updatedAt == now)
  }

  /** The closing writes of an executor: `Cleanup` first, then a terminal state. */
  lemma ClosingStamps(t: Task, r: RunnerResult, code: ErrorCode, text: string, now: real)
    requires Undecided(t)
    ensures Stamped(t, TimedOut(t, now), now) && Stamped(t, RunnerRefused(t, code, text, now), now)
    ensures Stamped(t, Completed(t, r, now), now) && Stamped(t, Normalized(t, text, now), now)
  {
  }

  lemma EntryStamps(cfg: Config, e: Entry, hasSecret: bool, step: Step, now: real)
    requires EntryOk(cfg, e) && !step.Tick? && !step.Create?
    requires step.Finalise? ==> e.executor.Finalising?
    requires step.GiveUp? || step.Collect? ==> e.executor.Joining?
    requires step.Announce? ==> Working(step.phase)
    ensures Stamped(e.task, EntryAfter(cfg, e, hasSecret, step, now).task, now)
  {
    var nothing := RunnerResult("", map[], [], []);
    hide TimedOut, RunnerRefused, Completed, Normalized, CreateRunner, Spoilt, RaisedFor;
    match step {
      case GiveUp(_) => ClosingStamps(e.task, nothing, InternalError, "", now);
      case Normalize(_) =>
        if e.executor.Raising? {
          ClosingStamps(e.task, nothing, InternalError, e.executor.text, now);
        }
      case Collect(_) =>
        match e.thread {
          case Returned(r) => ClosingStamps(e.task, r, InternalError, "", now);
          case Refused(code, text) => ClosingStamps(e.task, nothing, code, text, now);
          case _ =>
        }
      case _ =>
    }
  }

  lemma StampsInOrder(t: Task, t': Task, now: real, later: real)
    requires InOrder(t, now) && Stamped(t, t', now) && now <= later
    requires t'.finishedAt.Some? ==> Terminal(t'.state)
    requires Terminal(t.state) ==> t' == t
    requires t.state == Created <==> t.startedAt == None
    requires t'.state == Created <==> t'.startedAt == None
    ensures InOrder(t', later)
  {
  }

  /** In any run, the step that creates, starts or ends a task stamps it with its own time, and no other does. */
  lemma StampsAreTimes(cfg: Config, states: seq<Service>, steps: seq<Step>, i: nat, id: TaskId)
    requires Execution(cfg, states, steps) && i < |steps| && id in states[i + 1].entries
    ensures var now, t' := states[i].clock, states[i + 1].entries[id].task;
            if id in states[i].entries then Stamped(states[i].entries[id].task, t', now)
            else t'.createdAt == now && t'.updatedAt == now && t'.startedAt == None && t'.finishedAt == None
  {
    hide Inv, Stamped, Enabled, Next;
    ExecutionKeepsInv(cfg, states, steps, i);
    StepStamps(cfg, states[i], steps[i], id);
  }

  lemma StepStamps(cfg: Config, s: Service, step: Step, id: TaskId)
    requires Inv(cfg, s) && Enabled(cfg, s, step) && id in Next(cfg, s, step).entries
    ensures var now, t' := s.clock, Next(cfg, s, step).entries[id].task;
            if id in s.entries then Stamped(s.entries[id].task, t', now)
            else t'.createdAt == now && t'.updatedAt == now && t'.startedAt == None && t'.finishedAt == None
  {
    hide Inv, EntryOk, Stamped, EntryAfter, Next;
    if step.Create? {
      CreateStamps(cfg, s, step.call, id);
    } else {
      NextEntry(cfg, s, step, id);
      EntryIsOk(cfg, s, id);
      Unchanged(s.entries[id].task, s.clock);
      if NamesTask(step) && step.id == id {
        StandsReady(cfg, s, step);
        hide Enabled;
        EntryStamps(cfg, s.entries[id], id in s.secrets, step, s.clock);
      }
    }
  }

  /** A step that makes no task changes the one it names. */
  lemma NextEntry(cfg: Config, s: Service, step: Step, id: TaskId)
    requires Enabled(cfg, s, step) && !step.Create?
    ensures id in Next(cfg, s, step).entries <==> id in s.entries
    ensures id in s.entries ==>
              Next(cfg, s, step).entries[id] ==
                if NamesTask(step) && step.id == id
                then EntryAfter(cfg, s.entries[id], id in s.secrets, step, s.clock) else s.entries[id]
  {
    hide EntryAfter, Announces, MayReturn, CreateRunner;
  }

  /** Where an executor stands when it takes a step. */
  lemma StandsReady(cfg: Config, s: Service, step: Step)
    requires Enabled(cfg, s, step) && NamesTask(step)
    ensures step.id in s.entries
    ensures var e := s.entries[step.id];
            && (step.Finalise? ==> e.executor.Finalising?) && (step.Announce? ==> Working(step.phase))
            && (step.GiveUp? || step.Collect? ==> e.executor.Joining? && (step.GiveUp? <==> e.thread.Running?))
  {
    AnnouncesWorking(cfg, s, step);
    hide Announces, MayReturn, CreateRunner;
  }

  lemma AnnouncesWorking(cfg: Config, s: Service, step: Step)
    requires Enabled(cfg, s, step)
    ensures step.Announce? ==> Working(step.phase)
  {
    if step.Announce? {
      AnnouncementsAdvance(CreateRunner(cfg.runnerUrl, s.entries[step.id].task.mode).value,
        s.entries[step.id].thread.last, step.phase);
    }
    hide Announces;
  }

  lemma Unchanged(t: Task, now: real)
    ensures Stamped(t, t, now)
  {
  }

  lemma CreateStamps(cfg: Config, s: Service, call: CreateCall, id: TaskId)
    requires Inv(cfg, s) && Enabled(cfg, s, Create(call)) && id in Next(cfg, s, Create(call)).entries
    ensures var now, t' := s.clock, Next(cfg, s, Create(call)).entries[id].task;
            if id in s.entries then Stamped(s.entries[id].task, t', now)
            else t'.createdAt == now && t'.updatedAt == now && t'.startedAt == None && t'.finishedAt == None
  {
    hide Inv, Admits, Record, Busy;
  }

  /** In every state of every run, a task's times are in order, and none lies in the future. */
  lemma {:induction false} TimesInOrder(cfg: Config, states: seq<Service>, steps: seq<Step>, i: nat, id: TaskId)
    requires Execution(cfg, states, steps) && i < |states| && id in states[i].entries
    ensures InOrder(states[i].entries[id].task, states[i].clock)
  {
    hide Inv, Stamped, Enabled, Next, InOrder, Later, EntryOk;
    NoTasksAtFirst(states[0], id);
    ExecutionKeepsInv(cfg, states, steps, i);
    StampsAreTimes(cfg, states, steps, i - 1, id);
    ClockAdvances(cfg, states[i - 1], steps[i - 1]);
    EntryIsOk(cfg, states[i], id);
    WellStamped(cfg, states[i].entries[id]);
    if id in states[i - 1].entries {
      TimesInOrder(cfg, states, steps, i - 1, id);
      ExecutionKeepsInv(cfg, states, steps, i - 1);
      EntryIsOk(cfg, states[i - 1], id);
      WellStamped(cfg, states[i - 1].entries[id]);
      NothingIsUndone(cfg, states, steps, i - 1, i);
      StaysDecided(states[i - 1], states[i], id);
      StampsInOrder(states[i - 1].entries[id].task, states[i].entries[id].task, states[i - 1].clock, states[i].clock);
    } else {
      NewInOrder(states[i].entries[id].task, states[i - 1].clock, states[i].clock);
    }
  }

  lemma NoTasksAtFirst(s: Service, id: TaskId)
    ensures s == Initial(s.clock) ==> id !in s.entries
  {
  }

  lemma NewInOrder(t: Task, now: real, later: real)
    requires t.createdAt == now && t.updatedAt == now && t.startedAt == None && t.finishedAt == None && now <= later
    ensures InOrder(t, later)
  {
  }

  lemma StaysDecided(s: Service, s': Service, id: TaskId)
    requires Later(s, s') && id in s.entries
    ensures id in s'.entries && (Terminal(s.entries[id].task.state) ==> s'.entries[id].task == s.entries[id].task)
  {
  }

  lemma ClockAdvances(cfg: Config, s: Service, step: Step)
    requires Enabled(cfg, s, step)
    ensures s.clock <= Next(cfg, s, step).clock
  {
    hide EntryAfter, Admits, Busy, Announces, MayReturn, CreateRunner;
  }

  lemma WellStamped(cfg: Config, e: Entry)
    requires EntryOk(cfg, e)
    ensures e.task.finishedAt.Some? <==> Terminal(e.task.state)
    ensures e.task.state == Created <==> e.task.startedAt == None
  {
  }

  /** The duration of a decided task, in every state of every run: the whole seconds from its start to its end. */
  lemma DurationMeasures(cfg: Config, states: seq<Service>, steps: seq<Step>, i: nat, id: TaskId, now: real)
    requires Execution(cfg, states, steps) && i < |states| && id in states[i].entries
             && Terminal(states[i].entries[id].task.state)
    ensures var t := states[i].entries[id].task;
            && t.startedAt.Some? && t.finishedAt.Some? && t.Duration(now).Some?
            && var d := t.Duration(now).value as real;
               t.startedAt.value + d <= t.finishedAt.value < t.startedAt.value + d + 1.0
  {
    hide Inv, Enabled, Next;
    TimesInOrder(cfg, states, steps, i, id);
    ExecutionKeepsInv(cfg, states, steps, i);
    EntryIsOk(cfg, states[i], id);
    WellStamped(cfg, states[i].entries[id]);
    hide EntryOk;
  }

  // --- Outcomes ---------------------------------------------------------------------------------

  /** A step of the executor that decides a task, and the outcome that it owes. */
  ghost predicate Settles(s: Service, step: Step, id: TaskId, t: Task) {
    && id in s.entries && !Terminal(s.entries[id].task.state) && t.finishedAt == Some(s.clock)
    && (step == GiveUp(id) || step == Collect(id) || step == Normalize(id))
    && Owes(s.entries[id], step, t)
  }

  ghost predicate Owes(e: Entry, step: Step, t: Task) {
    match step
    case GiveUp(_) =>
      e.thread.Running? && t.state == Timeout && t.errorCode == Some(OperationTimeout) && t.message == Some("timeout")
    case Collect(_) => (
      match e.thread
      case Returned(r) =>
        && t.state == Finished && t.errorCode == None && t.message == None
        && t.summary == Some(r.summary) && t.data == r.data && t.artifacts == r.artifacts && t.warnings == r.warnings
      case Refused(code, message) => t.state == Failed && t.errorCode == Some(code) && t.message == Some(message)
      case _ => false)
    case _ =>
      && e.executor.Raising? && t.state == Failed && t.errorCode == Some(InternalError)
      && t.message == Some(e.executor.text)
      && (e.thread == Crashed(e.executor.text) || !Joinable(t.timeout) || e.thread.NotStarted?)
  }

  lemma ClosingOwes(cfg: Config, e: Entry, hasSecret: bool, step: Step, now: real)
    requires EntryOk(cfg, e) && !Terminal(e.task.state) && !step.Tick? && !step.Create?
    requires step.GiveUp? || step.Collect? ==> e.executor.Joining? && (step.GiveUp? <==> e.thread.Running?)
    requires step.Finalise? ==> e.executor.Finalising?
    requires step.Announce? ==> Working(step.phase)
    ensures var t := EntryAfter(cfg, e, hasSecret, step, now).task;
            Terminal(t.state) ==>
              && (step.GiveUp? || step.Collect? || step.Normalize?) && Owes(e, step, t)
              && t.finishedAt == Some(now)
  {
    hide CreateRunner, Spoilt;
  }

  lemma StepOwes(cfg: Config, s: Service, step: Step, id: TaskId)
    requires Inv(cfg, s) && Enabled(cfg, s, step) && id in Next(cfg, s, step).entries
    ensures var t' := Next(cfg, s, step).entries[id].task;
            Terminal(t'.state) ==> id in s.entries && (s.entries[id].task == t' || Settles(s, step, id, t'))
  {
    hide Inv, EntryOk, EntryAfter, Next, Owes;
    if step.Create? {
      NewIsOpen(cfg, s, step.call, id);
    } else {
      NextEntry(cfg, s, step, id);
      EntryIsOk(cfg, s, id);
      if NamesTask(step) && step.id == id {
        StandsReady(cfg, s, step);
        hide Enabled;
        if Terminal(s.entries[id].task.state) {
          DecidedStays(cfg, s.entries[id], id in s.secrets, step, s.clock);
        } else {
          ClosingOwes(cfg, s.entries[id], id in s.secrets, step, s.clock);
        }
      }
    }
  }

  lemma DecidedStays(cfg: Config, e: Entry, hasSecret: bool, step: Step, now: real)
    requires EntryOk(cfg, e) && Terminal(e.task.state) && !step.Tick? && !step.Create?
    requires step.GiveUp? || step.Collect? ==> e.executor.Joining?
    ensures EntryAfter(cfg, e, hasSecret, step, now).task == e.task
  {
    hide CreateRunner, Spoilt;
  }

  lemma NewIsOpen(cfg: Config, s: Service, call: CreateCall, id: TaskId)
    requires Enabled(cfg, s, Create(call)) && id in Next(cfg, s, Create(call)).entries
    ensures var t' := Next(cfg, s, Create(call)).entries[id].task;
            if id in s.entries then t' == s.entries[id].task else !Terminal(t'.state)
  {
    hide Admits, Record, Busy;
  }

  /**
   Where outcomes come from, in any run: a decided task was decided at one step of its executor, at the
   time that is stamped on it, and holds exactly what that step found: the whole result its runner
   returned, the code and text of its failure, the timeout of a runner that still ran, or as an internal
   error the text of what was raised.
   */
  lemma {:induction false} OutcomesAreEarned(cfg: Config, states: seq<Service>, steps: seq<Step>, i: nat, id: TaskId)
    requires Execution(cfg, states, steps) && i < |states| && id in states[i].entries
             && Terminal(states[i].entries[id].task.state)
    ensures exists k :: 0 <= k < i && Settles(states[k], steps[k], id, states[i].entries[id].task)
  {
    hide Inv, Enabled, Next, Settles;
    NoTasksAtFirst(states[0], id);
    ExecutionKeepsInv(cfg, states, steps, i - 1);
    StepOwes(cfg, states[i - 1], steps[i - 1], id);
    if !Settles(states[i - 1], steps[i - 1], id, states[i].entries[id].task) {
      OutcomesAreEarned(cfg, states, steps, i - 1, id);
    }
  }

  // --- Answers ----------------------------------------------------------------------------------

  /** The request id is new, and there is a user to charge. */
  predicate IsNew(s: Service, call: CreateCall) {
    call.requestId.Some? && call.requestId.value !in s.byRequest && call.user.Some?
  }

  /** The last minute is full, over all or for the user. */
  predicate Full(cfg: Config, s: Service, user: int) {
    || Within(s.accepted, s.clock - 60.0, s.clock) >= cfg.globalLimit
    || Within(Of(s.accepted, user), s.clock - 60.0, s.clock) >= cfg.userLimit
  }

  /** Each answer of `create_task` has its one reason, in every state of every run, and the charge follows it. */
  lemma AnswersHaveReasons(cfg: Config, states: seq<Service>, steps: seq<Step>, i: nat, call: CreateCall)
    requires Execution(cfg, states, steps) && i < |states|
    ensures Reasons(cfg, states[i], call)
  {
    ExecutionKeepsInv(cfg, states, steps, i);
    assert TablesAgree(states[i].entries, states[i].byRequest);
    hide Inv;
    ReasonsHold(cfg, states[i], call);
  }

  ghost predicate Reasons(cfg: Config, s: Service, call: CreateCall) {
    var (s', reply) := CreateTask(cfg, s, call);
    var open := IsNew(s, call) && !Full(cfg, s, call.user.value);
    var known := call.requestId.Some? && call.requestId.value in s.byRequest;
    && (known ==> s.byRequest[call.requestId.value] in s.entries)
    && (reply == Rejected(RequestIdConflict) <==>
          known && s.entries[s.byRequest[call.requestId.value]].task.fingerprint != call.fingerprint)
    && (reply == Rejected(RateLimited) <==> IsNew(s, call) && Full(cfg, s, call.user.value))
    && (reply == Rejected(WorkerBusy) <==>
          open && exists id :: id in s.entries && !Terminal(s.entries[id].task.state))
    && (Makes(reply) <==>
          open && (forall id :: id in s.entries ==> Terminal(s.entries[id].task.state))
          && call.body.Some? && call.body.value.timeout > 0)
    && s'.accepted == (if open then s.accepted + [Call(call.user.value, s.clock)] else s.accepted)
  }

  lemma ReasonsHold(cfg: Config, s: Service, call: CreateCall)
    requires TablesAgree(s.entries, s.byRequest)
    ensures Reasons(cfg, s, call)
  {
    if call.requestId.Some? && call.requestId.value in s.byRequest {
      assert s.byRequest[call.requestId.value] in s.entries;
    }
    hide TablesAgree, Within, Of;
  }

  /** A task that a create made is the one that was asked for, and credentials stored for it are the caller's. */
  lemma {:induction false} MadeAsAsked(cfg: Config, states: seq<Service>, steps: seq<Step>, i: nat, a: nat)
    requires Execution(cfg, states, steps) && i < |states| && a < |states[i].replies|
    requires Makes(states[i].replies[a].1)
    ensures var s, call, id := states[i], states[i].replies[a].0, states[i].replies[a].1.task;
            && id in s.entries && IsAsked(s.entries[id].task, call)
            && (id in s.secrets ==> s.secrets[id] == call.body.value.credentials)
  {
    hide Inv, Enabled, Next, Later, IsAsked, ReplyHolds;
    ExecutionKeepsInv(cfg, states, steps, i);
    ReplyOf(cfg, states[i], a);
    NoRepliesAtFirst(states[0]);
    ExecutionKeepsInv(cfg, states, steps, i - 1);
    SecretsMove(cfg, states[i - 1], steps[i - 1], a);
    if a < |states[i - 1].replies| {
      MadeAsAsked(cfg, states, steps, i - 1, a);
    }
  }

  lemma NoRepliesAtFirst(s: Service)
    ensures s == Initial(s.clock) ==> s.replies == []
  {
  }

  lemma ReplyOf(cfg: Config, s: Service, a: nat)
    requires Inv(cfg, s) && a < |s.replies| && Makes(s.replies[a].1)
    ensures s.replies[a].1.task in s.entries && IsAsked(s.entries[s.replies[a].1.task].task, s.replies[a].0)
  {
    assert ReplyHolds(s.entries, s.byRequest, s.replies[a].0, s.replies[a].1);
    hide Inv, IsAsked;
  }

  lemma TablesOf(cfg: Config, s: Service)
    requires Inv(cfg, s)
    ensures TablesAgree(s.entries, s.byRequest)
  {
    hide TablesAgree, EntriesOk, OneActive, SecretsLedger, AuditLedger, OneThreadEach, RepliesHold, Budget;
  }

  /** Answers stay, and a step stores the credentials of the task it makes and changes no others. */
  lemma SecretsMove(cfg: Config, s: Service, step: Step, a: nat)
    requires Inv(cfg, s) && Enabled(cfg, s, step) && a < |Next(cfg, s, step).replies|
    ensures var s' := Next(cfg, s, step);
            && (a < |s.replies| ==> s.replies[a] == s'.replies[a])
            && (Makes(s'.replies[a].1) && s'.replies[a].1.task in s'.secrets ==>
                  var id := s'.replies[a].1.task;
                  if a < |s.replies| then id in s.secrets && s'.secrets[id] == s.secrets[id]
                  else s'.replies[a].0.body.Some? && s'.secrets[id] == s'.replies[a].0.body.value.credentials)
  {
    hide Inv, TablesAgree, EntryAfter, CreateTask, Undecided, Announces, MayReturn, CreateRunner;
    if a < |s.replies| && Makes(s.replies[a].1) {
      ReplyOf(cfg, s, a);
    }
    if step.Create? {
      assert TablesAgree(s.entries, s.byRequest) by { TablesOf(cfg, s); }
      RefusalLeavesTables(cfg, s, step.call);
      if Makes(CreateTask(cfg, s, step.call).1) {
        StartedAdds(cfg, s, step.call);
      }
    }
  }
}
