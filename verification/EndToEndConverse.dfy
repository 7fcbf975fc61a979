/**
 When a finished job means a finished task: task and job are decided alike but for four causes,
 each of which can break this.
 */
module EndToEndConverse {
  import opened Common
  import opened Phases
  import W = Worker
  import WP = WorkerProofs
  import WR = WorkerRuns
  import D = Daemon
  import DP = DaemonProofs
  import DR = DaemonRuns
  import opened EndToEnd
  import R = EndToEndRuns

  /** What lets a task go its own way. */
  datatype Cause =
    | Lost         // a request of its client failed, or the answer was lost
    | Late         // the worker gave up waiting
    | TooLong      // the worker's join raised, which it does only for a timeout too long for it
    | Unstarted    // the client's thread could not be started

  function CauseOf(step: Step): Option<Cause> {
    match step
    case Abandon(_, _) => Some(Lost)
    case WorkerMoves(GiveUp(_)) => Some(Late)
    case WorkerMoves(Overflow(_)) => Some(TooLong)
    case WorkerMoves(Launch(_, starts)) => if starts then None else Some(Unstarted)
    case _ => None
  }

  predicate Parts(step: Step, task: TaskId) {
    CauseOf(step).Some? && (if step.Abandon? then step.task == task else step.w.id == task)
  }

  /** The job is decided, and finished exactly if the thread returned. */
  ghost predicate DecidedBy(d: D.Service, job: JobId, t: Thread) {
    && job in d.records && Terminal(d.records[job].job.state)
    && (d.records[job].job.state == Finished <==> t.Returned?)
    && (t.Refused? ==> FailsLike(d.records[job].job, t.code, t.message))
  }

  /** Code and text are the job's own, unless those are empty. */
  ghost predicate FailsLike(j: D.Job, code: ErrorCode, message: string) {
    && (j.errorCode.Some? && j.errorCode.value != RunnerCode("") ==> code == j.errorCode.value)
    && (j.errorCode == Some(RunnerCode("")) && j.state == Failed ==> code == RunnerCode("runner_failed"))
    && (j.message.Some? && j.message.value != "" ==> message == j.message.value)
  }

  /** The task and its thread follow the job. */
  ghost predicate Follows(d: D.Service, e: W.Entry, c: Option<Client>) {
    && !e.executor.Raising? && !e.thread.Crashed?
    && (e.thread.NotStarted? || e.thread.Running? ==> !Terminal(e.task.state))
    && (e.thread.Returned? || e.thread.Refused? ==>
          c.Some? && c.value.Gone? && c.value.last.Some? && DecidedBy(d, c.value.last.value, e.thread))
    && (Terminal(e.task.state) ==>
          && (e.task.state == Finished <==> e.thread.Returned?)
          && (e.thread.Refused? ==>
                e.task.state == Failed && e.task.errorCode == Some(e.thread.code)
                && e.task.message == Some(e.thread.message)))
  }

  function ClientOf(clients: map<TaskId, Client>, task: TaskId): Option<Client> {
    if task in clients then Some(clients[task]) else None
  }

  ghost predicate Faithful(s: System, task: TaskId) {
    task in s.worker.entries ==> Follows(s.daemon, s.worker.entries[task], ClientOf(s.clients, task))
  }

  // --- Every other step keeps task and job together ---------------------------------------------

  lemma DaemonKeepsFollowing(d: D.Service, d': D.Service, e: W.Entry, c: Option<Client>)
    requires Follows(d, e, c) && DR.Later(d, d')
    ensures Follows(d', e, c)
  {
  }

  /** The executor's own step. */
  lemma OwnStepFollows(cfg: W.Config, s: System, w: W.Step)
    requires cfg.runnerUrl && W.Enabled(cfg, s.worker, w) && Quiet(w) && !Parts(WorkerMoves(w), w.id)
    requires WP.EntryOk(cfg, s.worker.entries[w.id])
             && Follows(s.daemon, s.worker.entries[w.id], ClientOf(s.clients, w.id))
    requires !s.worker.entries[w.id].executor.Ended? ==> w.id in s.worker.secrets
    ensures Follows(s.daemon, W.EntryAfter(cfg, s.worker.entries[w.id], w.id in s.worker.secrets, w, s.worker.clock),
            ClientOf(s.clients, w.id))
  {
    hide DecidedBy;
  }

  lemma NextEntries(cfg: W.Config, s: W.Service, w: W.Step)
    requires W.Enabled(cfg, s, w) && WP.NamesTask(w)
    ensures W.Next(cfg, s, w).entries
            == s.entries[w.id := W.EntryAfter(cfg, s.entries[w.id], w.id in s.secrets, w, s.clock)]
  {
    hide W.EntryAfter;
  }

  lemma QuietFollows(cfg: W.Config, s: System, w: W.Step, task: TaskId)
    requires Inv(cfg, s) && cfg.runnerUrl && W.Enabled(cfg, s.worker, w) && Quiet(w) && !Parts(WorkerMoves(w), task)
             && Faithful(s, task)
    ensures Faithful(Next(cfg, s, WorkerMoves(w)), task)
  {
    hide Inv, Follows, W.EntryAfter, WP.EntryOk, Agrees, ClientOk;
    OneTask(cfg, s, w.id);
    NextEntries(cfg, s.worker, w);
    if w.Launch? {
      Fresh(cfg, s.worker.entries[w.id], w);
      QuietEntry(cfg, s, w, s.worker.entries[w.id]);
    }
    if w.id == task {
      OwnStepFollows(cfg, s, w);
    }
  }

  lemma LaunchFollows(cfg: W.Config, s: System, w: W.Step, task: TaskId)
    requires Inv(cfg, s) && cfg.runnerUrl && W.Enabled(cfg, s.worker, w) && w.Launch? && w.starts && Faithful(s, task)
    ensures Faithful(Next(cfg, s, WorkerMoves(w)), task)
  {
    hide Inv, DecidedBy, W.EntryAfter, WP.EntryOk, Agrees, ClientOk;
    OneTask(cfg, s, w.id);
    NextEntries(cfg, s.worker, w);
    Fresh(cfg, s.worker.entries[w.id], w);
    LaunchedEntry(cfg, s.worker.entries[w.id], w.id in s.worker.secrets, w, s.worker.clock);
  }

  lemma CreateFollows(cfg: W.Config, s: System, call: W.CreateCall, task: TaskId)
    requires W.Enabled(cfg, s.worker, W.Create(call)) && Faithful(s, task)
    ensures Faithful(Next(cfg, s, WorkerMoves(W.Create(call))), task)
  {
    hide DecidedBy, W.Busy;
  }

  /** A client's thread announces or ends. */
  lemma EchoFollows(cfg: W.Config, s: System, w: W.Step, c: Client, task: TaskId)
    requires cfg.runnerUrl && W.Enabled(cfg, s.worker, w) && (w.Announce? || w.End?) && Faithful(s, task)
    requires w.id == task && w.Announce? ==> Working(w.phase)
    requires w.id == task && w.End? ==>
               && (w.how.Returned? || w.how.Refused?)
               && c.Gone? && c.last.Some? && DecidedBy(s.daemon, c.last.value, w.how)
    ensures Faithful(s.(worker := W.Next(cfg, s.worker, w), clients := s.clients[w.id := c]), task)
  {
    hide DecidedBy, Announces, MayReturn, W.EntryAfter, W.CreateRunner;
    NextEntries(cfg, s.worker, w);
    if w.id == task {
      EchoedFollows(cfg, s.worker.entries[task], task in s.worker.secrets, w, s.worker.clock);
    }
  }

  lemma EchoedFollows(cfg: W.Config, e: W.Entry, hasSecret: bool, w: W.Step, now: real)
    requires (w.Announce? || w.End?) && (w.Announce? ==> Working(w.phase))
    ensures var e' := W.EntryAfter(cfg, e, hasSecret, w, now);
            && e'.executor == e.executor && e'.thread == (if w.Announce? then Running(w.phase) else w.how)
            && (Terminal(e'.task.state) <==> Terminal(e.task.state))
            && (Terminal(e.task.state) ==> e'.task == e.task)
  {
  }

  /** What a decisive answer ends the thread with fits the job. */
  lemma HandledIsDecided(d: D.Service, task: TaskId, job: JobId, v: D.View)
    requires job in d.records && ViewOk(v, d.records[job].job)
    ensures var w := Echo(task, v);
            && (w.Some? && w.value.Announce? ==> w.value.id == task && Working(w.value.phase))
            && (w.Some? && w.value.End? ==> w.value.id == task && (w.value.how.Returned? || w.value.how.Refused?)
                                            && DecidedBy(d, job, w.value.how))
            && (w.Some? ==> w.value.Announce? || w.value.End?)
  {
  }

  lemma HandleFollows(cfg: W.Config, s: System, handled: TaskId, task: TaskId)
    requires Inv(cfg, s) && cfg.runnerUrl && Enabled(cfg, s, Handle(handled)) && Faithful(s, task)
    ensures Faithful(Next(cfg, s, Handle(handled)), task)
  {
    hide Inv, WP.EntryOk, Agrees, W.Next, W.Enabled, D.Enabled, D.Next, ViewOk, Echo, DecidedBy;
    ClientHasTask(cfg, s, handled);
    OneTask(cfg, s, handled);
    var c := s.clients[handled];
    HandledIsDecided(s.daemon, handled, c.job, c.view);
    var w := Echo(handled, c.view);
    if w.Some? {
      EchoFollows(cfg, s, w.value, if w.value.End? then Gone(Some(c.job)) else Polling(c.job), task);
    }
  }

  lemma AbandonFollows(cfg: W.Config, s: System, other: TaskId, how: Thread, task: TaskId)
    requires cfg.runnerUrl && Enabled(cfg, s, Abandon(other, how)) && other != task && Faithful(s, task)
    ensures Faithful(Next(cfg, s, Abandon(other, how)), task)
  {
    hide DecidedBy, W.Next, W.Enabled, D.Enabled;
    EchoFollows(cfg, s, W.End(other, how), Gone(JobOf(s.clients[other])), task);
  }

  /** A client that posts, receives or fetches is one whose thread runs. */
  lemma ClientMoveFollows(cfg: W.Config, s: System, d: D.Service, moved: TaskId, c: Client, task: TaskId)
    requires Inv(cfg, s) && moved in s.clients && !s.clients[moved].Gone? && Faithful(s, task) && DR.Later(s.daemon, d)
    ensures Faithful(s.(daemon := d, clients := s.clients[moved := c]), task)
  {
    hide Inv, WP.EntryOk, Agrees, ViewOk, IsResult, DR.Later, DecidedBy;
    ClientHasTask(cfg, s, moved);
    OneTask(cfg, s, moved);
    if task in s.worker.entries {
      DaemonKeepsFollowing(s.daemon, d, s.worker.entries[task], ClientOf(s.clients, task));
    }
  }

  lemma StepFollows(cfg: W.Config, s: System, step: Step, task: TaskId)
    requires Inv(cfg, s) && cfg.runnerUrl && Enabled(cfg, s, step) && !Parts(step, task) && Faithful(s, task)
    ensures Faithful(Next(cfg, s, step), task)
  {
    hide Inv, Follows, W.Next, D.Next, D.Snapshot, Echo, DR.Later;
    match step
    case WorkerMoves(w) => WorkerFollows(cfg, s, w, task);
    case DaemonMoves(d) =>
      R.DaemonStepIsLater(cfg, s, d);
      if task in s.worker.entries {
        DaemonKeepsFollowing(s.daemon, D.Next(s.daemon, d), s.worker.entries[task], ClientOf(s.clients, task));
      }
    case Post(t, job, starts) =>
      var create := Request(job, s.worker.entries[t].task, starts);
      R.DaemonStepIsLater(cfg, s, create);
      ClientMoveFollows(cfg, s, D.Next(s.daemon, create), t, Awaiting(job), task);
      SameFaithful(s.(daemon := D.Next(s.daemon, create), clients := s.clients[t := Awaiting(job)]),
        Next(cfg, s, step), task);
    case Receive(t) =>
      R.SameIsLater(s.worker, s.daemon);
      ClientMoveFollows(cfg, s, s.daemon, t, Next(cfg, s, step).clients[t], task);
    case Fetch(t) =>
      R.SameIsLater(s.worker, s.daemon);
      ClientMoveFollows(cfg, s, s.daemon, t, Next(cfg, s, step).clients[t], task);
    case Handle(t) => HandleFollows(cfg, s, t, task);
    case Abandon(t, how) => AbandonFollows(cfg, s, t, how, task);
  }

  lemma SameFaithful(s: System, t: System, task: TaskId)
    requires s.worker == t.worker && s.daemon == t.daemon && s.clients == t.clients && Faithful(s, task)
    ensures Faithful(t, task)
  {
  }

  lemma WorkerFollows(cfg: W.Config, s: System, w: W.Step, task: TaskId)
    requires Inv(cfg, s) && cfg.runnerUrl && Enabled(cfg, s, WorkerMoves(w))
    requires !Parts(WorkerMoves(w), task) && Faithful(s, task)
    ensures Faithful(Next(cfg, s, WorkerMoves(w)), task)
  {
    hide Inv, Follows, W.EntryAfter, W.CreateTask;
    if w.Tick? {
      assert W.Next(cfg, s.worker, w).entries == s.worker.entries;
    } else if w.Create? {
      CreateFollows(cfg, s, w.call, task);
    } else if w.Launch? && w.starts {
      LaunchFollows(cfg, s, w, task);
    } else {
      QuietFollows(cfg, s, w, task);
    }
  }

  lemma StartFollows(s: System, task: TaskId)
    requires s.worker.entries == map[]
    ensures Faithful(s, task)
  {
  }

  lemma {:induction false} ExecutionFollows(cfg: W.Config, states: seq<System>, steps: seq<Step>, i: nat, task: TaskId)
    requires R.Execution(cfg, states, steps) && i < |states|
    requires forall k :: 0 <= k < i ==> !Parts(steps[k], task)
    ensures Faithful(states[i], task)
  {
    hide Faithful, Inv, Enabled, Next, Parts;
    if i == 0 {
      StartFollows(states[0], task);
    } else {
      ExecutionFollows(cfg, states, steps, i - 1, task);
      R.ExecutionKeepsInv(cfg, states, steps, i - 1);
      StepFollows(cfg, states[i - 1], steps[i - 1], task);
    }
  }

  /**
   The job is the task's own, decided, and finished exactly if the task is; otherwise the task failed with the
   job's code and text, unless those are empty.
   */
  ghost predicate DecidedAlike(s: System, task: TaskId, job: JobId) {
    && task in s.worker.entries && job in s.daemon.records && job in s.origin && s.origin[job] == task
    && Terminal(s.worker.entries[task].task.state) && Terminal(s.daemon.records[job].job.state)
    && (s.worker.entries[task].task.state == Finished <==> s.daemon.records[job].job.state == Finished)
    && (s.worker.entries[task].task.state != Finished ==>
          FailedAlike(s.worker.entries[task].task, s.daemon.records[job].job))
  }

  ghost predicate FailedAlike(t: W.Task, j: D.Job) {
    && t.state == Failed && j.errorCode.Some? && j.message.Some?
    && (j.errorCode != Some(RunnerCode("")) ==> t.errorCode == j.errorCode)
    && (j.errorCode == Some(RunnerCode("")) ==> t.errorCode == Some(RunnerCode("runner_failed")))
    && (j.message != Some("") ==> t.message == j.message)
  }

  lemma FaithfulIsAlike(cfg: W.Config, s: System, task: TaskId) returns (job: JobId)
    requires Inv(cfg, s) && Faithful(s, task) && task in s.worker.entries && Terminal(s.worker.entries[task].task.state)
    ensures DecidedAlike(s, task, job)
  {
    hide Inv, DP.Inv, WP.EntryOk, Agrees, ViewOk, IsResult, FailedAlike, FailsLike;
    OneTask(cfg, s, task);
    DaemonPart(cfg, s);
    job := s.clients[task].last.value;
    FailuresAreExplained(s.daemon, job);
    var e := s.worker.entries[task];
    if e.task.state != Finished {
      SameFailure(e.task, s.daemon.records[job].job, e.thread);
    }
  }

  lemma SameFailure(t: W.Task, j: D.Job, thread: Thread)
    requires thread.Refused? && t.state == Failed && t.errorCode == Some(thread.code)
             && t.message == Some(thread.message)
    requires j.errorCode.Some? && j.message.Some? && FailsLike(j, thread.code, thread.message)
    requires j.state == Failed || (j.state == Timeout && j.errorCode == Some(OperationTimeout))
    ensures FailedAlike(t, j)
  {
  }

  lemma FailuresAreExplained(d: D.Service, job: JobId)
    requires DP.Inv(d) && job in d.records
    ensures var j := d.records[job].job;
            Terminal(j.state) && j.state != Finished ==>
              && j.errorCode.Some? && j.message.Some?
              && (j.state == Timeout ==> j.errorCode == Some(OperationTimeout))
  {
    DR.RecordIsOk(d, job);
    hide DP.Inv, DP.ReaderOk;
  }

  /**
   Agreement both ways: where no request of the task's client was lost, the client's thread was started,
   and the worker neither gave up on it nor had a timeout too long for a join, a decided task has a decided
   job, and from then on for good the one is finished if and only if the other is. A task that did not
   finish has failed with the job's own code and text, unless those are empty.
   */
  lemma DecidedAlikeForever(cfg: W.Config, states: seq<System>, steps: seq<Step>, i: nat,
      task: TaskId) returns (job: JobId)
    requires R.Execution(cfg, states, steps) && i < |states|
    requires forall k :: 0 <= k < i ==> !Parts(steps[k], task)
    requires task in states[i].worker.entries && Terminal(states[i].worker.entries[task].task.state)
    ensures forall j :: i <= j < |states| ==> DecidedAlike(states[j], task, job)
  {
    R.ExecutionKeepsInv(cfg, states, steps, i);
    ExecutionFollows(cfg, states, steps, i, task);
    job := FaithfulIsAlike(cfg, states[i], task);
    forall j | i <= j < |states|
      ensures DecidedAlike(states[j], task, job)
    {
      R.NothingIsUndone(cfg, states, steps, i, j);
      LaterIsAlike(states[i], states[j], task, job);
    }
    hide Inv, Faithful, DecidedAlike, Enabled, Next, R.Later;
  }

  lemma LaterIsAlike(s: System, t: System, task: TaskId, job: JobId)
    requires DecidedAlike(s, task, job) && R.Later(s, t)
    ensures DecidedAlike(t, task, job)
  {
  }

  // --- Timeouts that are too long for a join -----------------------------------------------------

  /** The jobs of a task have its runner mode, by name, and its timeout. */
  ghost predicate AsAsked(s: System, task: TaskId) {
    forall job :: job in s.origin && s.origin[job] == task ==>
      && task in s.worker.entries && job in s.daemon.records
      && s.daemon.records[job].job.timeout == s.worker.entries[task].task.timeout
      && D.NameOf(s.daemon.records[job].job.mode) == W.NameOf(s.worker.entries[task].task.mode)
  }

  lemma PostedTimeout(cfg: W.Config, s: System, step: Step, task: TaskId)
    requires Enabled(cfg, s, step) && AsAsked(s, task) && R.Later(s, Next(cfg, s, step))
    ensures AsAsked(Next(cfg, s, step), task)
  {
    hide W.Next, W.Enabled, D.Snapshot, Echo;
  }

  lemma NoJobsYet(s: System, task: TaskId)
    requires s.origin == map[]
    ensures AsAsked(s, task)
  {
  }

  /** In every run, a job created for a task is asked for what the task was asked for. */
  lemma {:induction false} JobsAreAsAsked(cfg: W.Config, states: seq<System>, steps: seq<Step>, i: nat, task: TaskId)
    requires R.Execution(cfg, states, steps) && i < |states|
    ensures AsAsked(states[i], task)
  {
    hide Inv, Enabled, Next, AsAsked, R.Later;
    if i == 0 {
      NoJobsYet(states[0], task);
    } else {
      JobsAreAsAsked(cfg, states, steps, i - 1, task);
      R.ExecutionKeepsInv(cfg, states, steps, i - 1);
      R.StepIsLater(cfg, states[i - 1], steps[i - 1]);
      PostedTimeout(cfg, states[i - 1], steps[i - 1], task);
    }
  }

  /**
   Both services accept a timeout too long for a join, and in no run does anything come of it: neither the
   task nor a job created for it ever finishes. The task can only fail, and as an internal error; the job is
   decided by being cancelled or not at all.
   */
  lemma TooLongNeverFinishes(cfg: W.Config, states: seq<System>, steps: seq<Step>, i: nat, task: TaskId)
    requires R.Execution(cfg, states, steps) && i < |states| && task in states[i].worker.entries
    requires !Joinable(states[i].worker.entries[task].task.timeout)
    ensures var t := states[i].worker.entries[task].task;
            Terminal(t.state) ==> t.state == Failed && t.errorCode == Some(InternalError)
    ensures forall job :: job in states[i].origin && states[i].origin[job] == task ==>
              && job in states[i].daemon.records
              && var j := states[i].daemon.records[job].job;
                 Terminal(j.state) ==> j.state == Failed && j.errorCode == Some(OperationCancelled)
  {
    var s := states[i];
    R.ExecutionKeepsInv(cfg, states, steps, i);
    JobsAreAsAsked(cfg, states, steps, i, task);
    OneTask(cfg, s, task);
    DaemonPart(cfg, s);
    hide Inv, DP.Inv, DP.RecordOk, WP.EntryOk;
    WR.SpoiltEntry(cfg, s.worker.entries[task]);
    forall job | job in s.origin && s.origin[job] == task
      ensures job in s.daemon.records
      ensures var j := s.daemon.records[job].job;
              Terminal(j.state) ==> j.state == Failed && j.errorCode == Some(OperationCancelled)
    {
      DR.RecordIsOk(s.daemon, job);
      DR.WhoDecides(s.daemon.records[job], D.WorkOn(s.daemon, job));
    }
  }
}
