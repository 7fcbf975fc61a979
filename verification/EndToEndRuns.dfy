/** Agreement between the two services over whole runs. */
module EndToEndRuns {
  import opened Common
  import opened Phases
  import W = Worker
  import WP = WorkerProofs
  import WR = WorkerRuns
  import D = Daemon
  import DP = DaemonProofs
  import DR = DaemonRuns
  import opened PollClient
  import opened EndToEnd

  ghost predicate Execution(cfg: W.Config, states: seq<System>, steps: seq<Step>) {
    && cfg.runnerUrl
    && |states| == |steps| + 1
    && states[0] == EndToEnd.Initial(states[0].worker.clock)
    && forall i :: 0 <= i < |steps| ==>
       EndToEnd.Enabled(cfg, states[i], steps[i]) && states[i + 1] == EndToEnd.Next(cfg, states[i], steps[i])
  }

  lemma {:induction false} ExecutionKeepsInv(cfg: W.Config, states: seq<System>, steps: seq<Step>, i: nat)
    requires Execution(cfg, states, steps) && i < |states|
    ensures EndToEnd.Inv(cfg, states[i])
  {
    if i == 0 {
      WP.InitialInv(cfg, states[0].worker.clock);
    } else {
      ExecutionKeepsInv(cfg, states, steps, i - 1);
      EndToEnd.StepKeepsInv(cfg, states[i - 1], steps[i - 1]);
    }
  }

  ghost predicate Later(s: System, s': System) {
    WR.Later(s.worker, s'.worker) && DR.Later(s.daemon, s'.daemon) && forall job :: job in s.origin ==>
      job in s'.origin && s'.origin[job] == s.origin[job]
  }

  lemma SameIsLater(w: W.Service, d: D.Service)
    ensures WR.Later(w, w) && DR.Later(d, d)
  {
  }

  lemma WorkerStepIsLater(cfg: W.Config, s: System, w: W.Step)
    requires EndToEnd.Inv(cfg, s) && W.Enabled(cfg, s.worker, w)
    ensures WR.Later(s.worker, W.Next(cfg, s.worker, w))
  {
    assert WP.Inv(cfg, s.worker);
    hide EndToEnd.Inv, WP.Inv, W.Next, W.Enabled, WR.Later;
    WR.StepIsLater(cfg, s.worker, w);
  }

  lemma DaemonStepIsLater(cfg: W.Config, s: System, d: D.Step)
    requires EndToEnd.Inv(cfg, s) && D.Enabled(s.daemon, d)
    ensures DR.Later(s.daemon, D.Next(s.daemon, d))
  {
    assert DP.Inv(s.daemon);
    hide EndToEnd.Inv, DP.Inv, D.Next, D.Enabled, DR.Later;
    DR.StepIsLater(s.daemon, d);
  }

  lemma NewJobIsNew(cfg: W.Config, s: System, job: JobId)
    requires EndToEnd.Inv(cfg, s) && job !in s.daemon.records
    ensures job !in s.origin
  {
    assert OneJobEach(s.daemon, s.origin, s.clients);
    hide WP.Inv, DP.Inv, ClientsOk, ClientsMatchThreads, NoClientNotFinished;
  }

  lemma StepIsLater(cfg: W.Config, s: System, step: Step)
    requires EndToEnd.Inv(cfg, s) && EndToEnd.Enabled(cfg, s, step)
    ensures Later(s, EndToEnd.Next(cfg, s, step))
  {
    hide EndToEnd.Inv, WR.Later, DR.Later, W.Next, W.Enabled, D.Next, Echo, D.Snapshot;
    SameIsLater(s.worker, s.daemon);
    if step.Post? {
      NewJobIsNew(cfg, s, step.job);
    }
    hide D.Enabled;
    match step
    case WorkerMoves(w) => WorkerStepIsLater(cfg, s, w);
    case DaemonMoves(d) => DaemonStepIsLater(cfg, s, d);
    case Post(task, job, starts) => DaemonStepIsLater(cfg, s, Request(job, s.worker.entries[task].task, starts));
    case Handle(task) =>
      var echo := Echo(task, s.clients[task].view);
      if echo.Some? {
        WorkerStepIsLater(cfg, s, echo.value);
      }
    case Abandon(task, how) => WorkerStepIsLater(cfg, s, W.End(task, how));
    case _ =>
  }

  lemma LaterIsTransitive(a: System, b: System, c: System)
    requires Later(a, b) && Later(b, c)
    ensures Later(a, c)
  {
    WR.LaterIsTransitive(a.worker, b.worker, c.worker);
    hide WR.Later;
  }

  /**
   Over any stretch of any run of both services, outcomes are never rewritten and no task or
   job moves to a lower phase, also where a task follows its job through polls that skip states.
   */
  lemma {:induction false} NothingIsUndone(cfg: W.Config, states: seq<System>, steps: seq<Step>, i: nat, j: nat)
    requires Execution(cfg, states, steps) && i <= j < |states|
    ensures Later(states[i], states[j])
  {
    hide EndToEnd.Inv, EndToEnd.Enabled, EndToEnd.Next, WR.Later, DR.Later;
    if i == j {
      SameIsLater(states[i].worker, states[i].daemon);
    } else {
      hide Later;
      NothingIsUndone(cfg, states, steps, i, j - 1);
      ExecutionKeepsInv(cfg, states, steps, j - 1);
      StepIsLater(cfg, states[j - 1], steps[j - 1]);
      LaterIsTransitive(states[i], states[j - 1], states[j]);
    }
  }

  /**
   The job created for a task, its only one, finished, and the task shows that job's result, which is the
   one that the job's runner thread returned.
   */
  ghost predicate Agreed(s: System, task: TaskId, job: JobId) {
    && task in s.worker.entries && job in s.daemon.records
    && job in s.origin && s.origin[job] == task
    && (forall other :: other in s.origin && s.origin[other] == task ==> other == job)
    && var t, j := s.worker.entries[task].task, s.daemon.records[job].job;
       && t.state == Finished && j.state == Finished
       && t.summary == j.summary && t.data == j.data && t.artifacts == j.artifacts && t.warnings == j.warnings
       && t.summary.Some?
       && s.daemon.records[job].thread == Returned(RunnerResult(t.summary.value, t.data, t.artifacts, t.warnings))
  }

  /** The client of a finished task knows the job it came from. */
  lemma FinishedJob(cfg: W.Config, s: System, task: TaskId) returns (job: JobId)
    requires EndToEnd.Inv(cfg, s) && task in s.worker.entries && s.worker.entries[task].task.state == Finished
    ensures task in s.clients && JobOf(s.clients[task]) == Some(job)
    ensures Owned(s.daemon, s.origin, task, job)
    ensures s.worker.entries[task].task.summary.Some? && IsResult(s.daemon, job, s.worker.entries[task].task.Result())
  {
    hide EndToEnd.Inv, WP.EntryOk, Owned, IsResult, ViewOk;
    OneTask(cfg, s, task);
    job := s.clients[task].last.value;
  }

  lemma OnlyJob(cfg: W.Config, s: System, task: TaskId, job: JobId)
    requires EndToEnd.Inv(cfg, s) && task in s.clients && JobOf(s.clients[task]) == Some(job)
    ensures forall other :: other in s.origin && s.origin[other] == task ==> other == job
  {
    hide WP.Inv, DP.Inv, ClientsOk, ClientsMatchThreads, NoClientNotFinished, JobOf;
  }

  lemma FinishedAgrees(cfg: W.Config, s: System, task: TaskId) returns (job: JobId)
    requires EndToEnd.Inv(cfg, s) && task in s.worker.entries && s.worker.entries[task].task.state == Finished
    ensures Agreed(s, task, job)
  {
    hide EndToEnd.Inv, JobOf, DP.Inv;
    job := FinishedJob(cfg, s, task);
    OnlyJob(cfg, s, task, job);
    DaemonPart(cfg, s);
    JobHoldsResult(s.daemon, job);
  }

  lemma JobHoldsResult(d: D.Service, job: JobId)
    requires DP.Inv(d) && job in d.records && d.records[job].job.state == Finished
    ensures d.records[job].job.summary.Some? && d.records[job].thread == Returned(ResultOf(d.records[job].job))
  {
    DR.RecordIsOk(d, job);
    hide DP.Inv, DP.ReaderOk;
  }

  /**
   End-to-end agreement: from the moment a worker task is finished, in every interleaving and
   in every later state, exactly one daemon job was ever created for it, that job is finished,
   and summary, data, artifacts and warnings are equal, also when the finished state was first
   seen in the unlocked answer to the creation; and they are what the job's runner thread returned.
   */
  lemma FinishedTasksAgreeForever(cfg: W.Config, states: seq<System>, steps: seq<Step>, i: nat,
      task: TaskId) returns (job: JobId)
    requires Execution(cfg, states, steps) && i < |states|
    requires task in states[i].worker.entries && states[i].worker.entries[task].task.state == Finished
    ensures forall j :: i <= j < |states| ==> Agreed(states[j], task, job)
  {
    ExecutionKeepsInv(cfg, states, steps, i);
    job := FinishedAgrees(cfg, states[i], task);
    forall j | i <= j < |states| ensures Agreed(states[j], task, job) {
      StillAgreed(cfg, states, steps, i, j, task, job);
    }
    hide Agreed, EndToEnd.Inv, EndToEnd.Enabled, EndToEnd.Next;
  }

  lemma StillAgreed(cfg: W.Config, states: seq<System>, steps: seq<Step>, i: nat, j: nat, task: TaskId, job: JobId)
    requires Execution(cfg, states, steps) && i <= j < |states| && Agreed(states[i], task, job)
    ensures Agreed(states[j], task, job)
  {
    ExecutionKeepsInv(cfg, states, steps, j);
    NothingIsUndone(cfg, states, steps, i, j);
    hide EndToEnd.Inv, EndToEnd.Enabled, EndToEnd.Next, WP.EntryOk;
    assert task in states[j].worker.entries
      && states[j].worker.entries[task].task == states[i].worker.entries[task].task;
    var job' := FinishedAgrees(cfg, states[j], task);
  }

  /** No client ever causes a second job for its task, however the run ends. */
  lemma AtMostOneJobPerTask(cfg: W.Config, states: seq<System>, steps: seq<Step>, i: nat, a: JobId, b: JobId)
    requires Execution(cfg, states, steps) && i < |states|
    requires a in states[i].origin && b in states[i].origin && states[i].origin[a] == states[i].origin[b]
    ensures a == b
  {
    ExecutionKeepsInv(cfg, states, steps, i);
    assert OneJobEach(states[i].daemon, states[i].origin, states[i].clients);
    hide WP.Inv, DP.Inv, ClientsOk, ClientsMatchThreads, NoClientNotFinished;
  }

  // --- What one poll brings -----------------------------------------------------------------

  /** The task shows the state of the job, and its text. */
  ghost predicate Shows(t: W.Task, j: D.Job) {
    t.state == j.state && t.phase == j.state && t.phaseMessage == j.phaseMessage
  }

  ghost predicate CaughtUp(s: System, s': System, task: TaskId, j: D.Job)
    requires task in s.worker.entries
  {
    && task in s'.worker.entries && s'.daemon == s.daemon
    && (Working(j.state) && !Terminal(s.worker.entries[task].task.state) ==>
          Shows(s'.worker.entries[task].task, j))
    && (j.state == Created ==> s'.worker == s.worker)
  }

  /**
   A poll that finds the job at work brings the undecided task to exactly the job's state and text; one that
   finds it new changes nothing in the worker.
   */
  lemma PollCatchesUp(cfg: W.Config, s: System, task: TaskId)
    requires EndToEnd.Inv(cfg, s) && cfg.runnerUrl && EndToEnd.Enabled(cfg, s, Fetch(task))
    requires task in s.worker.entries
    ensures var s1 := EndToEnd.Next(cfg, s, Fetch(task));
            && EndToEnd.Enabled(cfg, s1, Handle(task))
            && CaughtUp(s, EndToEnd.Next(cfg, s1, Handle(task)), task, s.daemon.records[s.clients[task].job].job)
  {
    hide EndToEnd.Inv, W.Enabled, W.Next, D.Enabled, D.Next, React;
    EndToEnd.StepKeepsInv(cfg, s, Fetch(task));
    var s1 := EndToEnd.Next(cfg, s, Fetch(task));
    ClientsAreNeverHeldBack(cfg, s1, task);
    var j := s.daemon.records[s.clients[task].job].job;
    AnnouncementShows(cfg, s.worker, task, D.Snapshot(j));
  }

  lemma AnnouncementShows(cfg: W.Config, w: W.Service, task: TaskId, v: D.View)
    requires task in w.entries && (Echo(task, v).Some? ==> W.Enabled(cfg, w, Echo(task, v).value))
    ensures Working(v.state) ==>
              && Echo(task, v) == Some(W.Announce(task, v.state, v.phaseMessage))
              && var t := W.Next(cfg, w, W.Announce(task, v.state, v.phaseMessage)).entries[task].task;
                 !Terminal(w.entries[task].task.state) ==>
                   t.state == v.state && t.phase == v.state && t.phaseMessage == v.phaseMessage
    ensures v.state == Created ==> Echo(task, v).None?
    ensures Echo(task, v).Some? ==> task in W.Next(cfg, w, Echo(task, v).value).entries
  {
    hide Announces, MayReturn, W.CreateRunner;
  }

  // --- Why agreement goes one way only ------------------------------------------------------

  /** The code a task fails with when its runner thread refuses with `code`. */
  function CodeOf(t: W.Task, code: ErrorCode): ErrorCode {
    if Joinable(t.timeout) then code else InternalError
  }

  /**
   `step` ends the client's thread; once its executor has collected that, or failed to, the task has failed
   with `code`.
   */
  ghost predicate FailsWith(cfg: W.Config, s: System, step: Step, task: TaskId, code: ErrorCode) {
    && EndToEnd.Enabled(cfg, s, step)
    && var s1 := EndToEnd.Next(cfg, s, step);
       && task in s1.worker.entries
       && if Joinable(s1.worker.entries[task].task.timeout) then
            && EndToEnd.Enabled(cfg, s1, WorkerMoves(W.Collect(task)))
            && HasFailed(s, EndToEnd.Next(cfg, s1, WorkerMoves(W.Collect(task))), task, code)
          else
            && EndToEnd.Enabled(cfg, s1, WorkerMoves(W.Overflow(task)))
            && var s2 := EndToEnd.Next(cfg, s1, WorkerMoves(W.Overflow(task)));
               && EndToEnd.Enabled(cfg, s2, WorkerMoves(W.Normalize(task)))
               && HasFailed(s, EndToEnd.Next(cfg, s2, WorkerMoves(W.Normalize(task))), task, code)
  }

  /** The task has failed, and nothing changed in the daemon. */
  ghost predicate HasFailed(s: System, s': System, task: TaskId, code: ErrorCode) {
    && task in s'.worker.entries && s'.daemon == s.daemon
    && s'.worker.entries[task].task.state == Failed && s'.worker.entries[task].task.errorCode == Some(code)
  }

  lemma RefusalFails(cfg: W.Config, s: System, step: Step, task: TaskId, code: ErrorCode, message: string)
    requires cfg.runnerUrl && task in s.worker.entries && s.worker.entries[task].thread.Running?
             && s.worker.entries[task].executor.Joining?
    requires EndToEnd.Enabled(cfg, s, step) && W.Enabled(cfg, s.worker, W.End(task, Refused(code, message)))
    requires EndToEnd.Next(cfg, s, step).worker == W.Next(cfg, s.worker, W.End(task, Refused(code, message)))
    requires EndToEnd.Next(cfg, s, step).daemon == s.daemon
    ensures FailsWith(cfg, s, step, task, CodeOf(s.worker.entries[task].task, code))
  {
    hide EndToEnd.Enabled, EndToEnd.Next, W.Next, W.Enabled;
    var s1 := EndToEnd.Next(cfg, s, step);
    SameTimeout(cfg, s.worker, W.End(task, Refused(code, message)));
    if Joinable(s.worker.entries[task].task.timeout) {
      RefusalIsCollected(cfg, s.worker, task, code, message);
      OwnMove(cfg, s1, W.Collect(task));
    } else {
      RefusalIsMissed(cfg, s.worker, task, code, message);
      OwnMove(cfg, s1, W.Overflow(task));
      OwnMove(cfg, EndToEnd.Next(cfg, s1, WorkerMoves(W.Overflow(task))), W.Normalize(task));
    }
  }

  lemma SameTimeout(cfg: W.Config, s: W.Service, w: W.Step)
    requires W.Enabled(cfg, s, w) && w.End?
    ensures w.id in s.entries && w.id in W.Next(cfg, s, w).entries
    ensures W.Next(cfg, s, w).entries[w.id].task == s.entries[w.id].task
  {
    hide MayReturn, W.CreateRunner;
  }

  /** The executor's closing moves are moves of the whole system, and leave the daemon alone. */
  lemma OwnMove(cfg: W.Config, s: System, w: W.Step)
    requires W.Enabled(cfg, s.worker, w) && (w.Collect? || w.Overflow? || w.Normalize?)
    ensures EndToEnd.Enabled(cfg, s, WorkerMoves(w))
    ensures EndToEnd.Next(cfg, s, WorkerMoves(w)).worker == W.Next(cfg, s.worker, w)
    ensures EndToEnd.Next(cfg, s, WorkerMoves(w)).daemon == s.daemon
    ensures w.id in W.Next(cfg, s.worker, w).entries
  {
    hide W.EntryAfter;
  }

  /** A lost connection fails the task whatever the job is doing or has done. */
  lemma LostConnectionFailsTask(cfg: W.Config, s: System, task: TaskId, code: ErrorCode, message: string)
    requires cfg.runnerUrl && task in s.clients && s.clients[task].Polling?
    requires task in s.worker.entries && s.worker.entries[task].executor.Joining?
    requires EndToEnd.Inv(cfg, s)
    ensures FailsWith(cfg, s, Abandon(task, Refused(code, message)), task, CodeOf(s.worker.entries[task].task, code))
  {
    hide EndToEnd.Inv, WP.EntryOk, Agrees, W.Next, D.Enabled, D.Next, FailsWith;
    OneTask(cfg, s, task);
    EchoEnabled(cfg, s.worker, W.End(task, Refused(code, message)));
    hide W.Enabled;
    RefusalFails(cfg, s, Abandon(task, Refused(code, message)), task, code, message);
  }

  /** A job that timed out in the daemon makes its task fail, with the daemon's code. */
  lemma DaemonTimeoutFailsTask(cfg: W.Config, s: System, task: TaskId)
    requires cfg.runnerUrl && task in s.clients && s.clients[task].Holding? && s.clients[task].view.state == Timeout
    requires task in s.worker.entries && s.worker.entries[task].executor.Joining?
    requires EndToEnd.Inv(cfg, s)
    ensures FailsWith(cfg, s, Handle(task), task, CodeOf(s.worker.entries[task].task, OperationTimeout))
  {
    hide EndToEnd.Inv, WP.EntryOk, Agrees, W.Next, W.Enabled, D.Enabled, D.Next, FailsWith, DP.Inv;
    ClientsAreNeverHeldBack(cfg, s, task);
    OneTask(cfg, s, task);
    DaemonPart(cfg, s);
    TimeoutCode(s, s.clients[task].job);
    var v := s.clients[task].view;
    assert v.errorCode == Some(OperationTimeout);
    var refuse := React(v);
    assert refuse.Refuse? && refuse.code == OperationTimeout;
    assert Echo(task, v) == Some(W.End(task, Refused(OperationTimeout, refuse.message)));
    RefusalFails(cfg, s, Handle(task), task, OperationTimeout, refuse.message);
  }

  lemma TimeoutCode(s: System, job: JobId)
    requires DP.Inv(s.daemon) && job in s.daemon.records
    ensures s.daemon.records[job].job.state == Timeout ==> s.daemon.records[job].job.errorCode == Some(OperationTimeout)
  {
    assert DP.RecordOk(s.daemon.records[job], D.WorkOn(s.daemon, job));
  }
}
