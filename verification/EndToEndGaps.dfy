/** Runs from the start in which a task and its job part: one for each cause, which is the only one in its run. */
module EndToEndGaps {
  import opened Common
  import opened Phases
  import L = RateLimits
  import W = Worker
  import D = Daemon
  import DR = DaemonRuns
  import opened EndToEnd
  import R = EndToEndRuns
  import opened EndToEndConverse

  /** A run leads to `s` in which nothing but `cause` parts a task from its job. */
  ghost predicate Reached(cfg: W.Config, s: System, cause: Option<Cause>) {
    exists states, steps :: R.Execution(cfg, states, steps) && states[|steps|] == s && Only(steps, cause)
  }

  ghost predicate Only(steps: seq<Step>, cause: Option<Cause>) {
    forall k :: 0 <= k < |steps| ==> CauseOf(steps[k]) == None || CauseOf(steps[k]) == cause
  }

  lemma OnlyOneMore(steps: seq<Step>, step: Step, cause: Option<Cause>)
    requires Only(steps, None) || Only(steps, cause)
    requires CauseOf(step) == None || CauseOf(step) == cause
    ensures Only(steps + [step], cause)
  {
    var longer := steps + [step];
    forall k | 0 <= k < |longer|
      ensures CauseOf(longer[k]) == None || CauseOf(longer[k]) == cause
    {
      if k < |steps| {
        assert longer[k] == steps[k];
      } else {
        assert longer[k] == step;
      }
    }
  }

  lemma Go(cfg: W.Config, s: System, step: Step, cause: Option<Cause>)
    requires Reached(cfg, s, None) || Reached(cfg, s, cause)
    requires Enabled(cfg, s, step) && (CauseOf(step) == None || CauseOf(step) == cause)
    ensures Reached(cfg, Next(cfg, s, step), cause)
  {
    hide Enabled, Next, CauseOf, Only;
    var states, steps :| R.Execution(cfg, states, steps) && states[|steps|] == s
      && (Only(steps, None) || Only(steps, cause));
    var states', steps' := states + [Next(cfg, s, step)], steps + [step];
    forall i | 0 <= i < |steps'|
      ensures Enabled(cfg, states'[i], steps'[i]) && states'[i + 1] == Next(cfg, states'[i], steps'[i])
    {
      if i < |steps| {
        assert states'[i] == states[i] && states'[i + 1] == states[i + 1] && steps'[i] == steps[i];
      }
    }
    assert states'[0] == states[0];
    assert R.Execution(cfg, states', steps') && states'[|steps'|] == Next(cfg, s, step);
    OnlyOneMore(steps, step, cause);
  }

  /** A run of the daemon alone goes on in the whole system. */
  lemma {:induction false} GoDaemon(cfg: W.Config, s: System, steps: seq<D.Step>)
    requires Reached(cfg, s, None) && DR.Runs(s.daemon, steps)
    ensures Reached(cfg, s.(daemon := DR.After(s.daemon, steps)), None)
    decreases |steps|
  {
    hide Reached, D.Enabled, D.Next;
    if steps == [] {
      assert s.(daemon := DR.After(s.daemon, steps)) == s;
    } else {
      Go(cfg, s, DaemonMoves(steps[0]), None);
      GoDaemon(cfg, s.(daemon := D.Next(s.daemon, steps[0])), steps[1..]);
    }
  }

  function Call1(timeout: int): W.CreateCall {
    W.CreateCall(Some("r"), "f", Some(1), Some(W.Body(W.ExistingContainerMode, timeout, W.Credentials("", ""))), 0,
      true)
  }

  function First(timeout: int): W.Task {
    W.NewTask("r", 1, "f", W.ExistingContainerMode, timeout, 0.0)
  }

  predicate Generous(cfg: W.Config) {
    cfg.runnerUrl && cfg.globalLimit >= 1 && cfg.userLimit >= 1
  }

  /** The worker with its one task, and the client where `clients` says. */
  ghost predicate Working1(s: System, e: W.Entry) {
    && s.worker.entries == map[0 := e] && 0 in s.worker.secrets && s.worker.clock == 0.0
    && s.daemon == D.INITIAL && s.origin == map[]
  }

  lemma IsCreated(cfg: W.Config, timeout: int) returns (s: System)
    requires Generous(cfg) && timeout > 0
    ensures Reached(cfg, s, None) && Working1(s, W.Entry(First(timeout), W.Loading, NotStarted)) && s.clients == map[]
  {
    var s0 := EndToEnd.Initial(0.0);
    var none: seq<Step> := [];
    assert R.Execution(cfg, [s0], none) && [s0][|none|] == s0 && Only(none, None);
    hide Reached;
    FirstIsAdmitted(cfg);
    assert !W.Busy(s0.worker);
    Go(cfg, s0, WorkerMoves(W.Create(Call1(timeout))), None);
    s := Next(cfg, s0, WorkerMoves(W.Create(Call1(timeout))));
  }

  lemma FirstIsAdmitted(cfg: W.Config)
    requires Generous(cfg)
    ensures L.Admits(cfg.globalLimit, cfg.userLimit, [], 1, 0.0)
  {
  }

  lemma IsLoaded(cfg: W.Config, timeout: int) returns (s: System)
    requires Generous(cfg) && timeout > 0
    ensures Reached(cfg, s, None) && Working1(s, W.Entry(First(timeout), W.Creating, NotStarted)) && s.clients == map[]
  {
    hide Reached;
    var s1 := IsCreated(cfg, timeout);
    assert 0 in s1.worker.entries && s1.worker.entries[0] == W.Entry(First(timeout), W.Loading, NotStarted);
    Go(cfg, s1, WorkerMoves(W.Load(0)), None);
    s := Next(cfg, s1, WorkerMoves(W.Load(0)));
  }

  lemma IsLaunched(cfg: W.Config, timeout: int) returns (s: System)
    requires Generous(cfg) && timeout > 0
    ensures Reached(cfg, s, None)
    ensures Working1(s, W.Entry(First(timeout), W.Joining, Running(Created))) && s.clients == map[0 := Posting]
  {
    hide Reached;
    var s1 := IsLoaded(cfg, timeout);
    assert 0 in s1.worker.entries && s1.worker.entries[0] == W.Entry(First(timeout), W.Creating, NotStarted);
    Go(cfg, s1, WorkerMoves(W.Launch(0, true)), None);
    s := Next(cfg, s1, WorkerMoves(W.Launch(0, true)));
  }

  /** The job is posted, its answer not yet read. */
  ghost predicate Waiting(s: System, timeout: int) {
    && s.worker.entries == map[0 := W.Entry(First(timeout), W.Joining, Running(Created))]
    && s.clients == map[0 := Awaiting(0)] && s.origin == map[0 := 0]
    && 0 in s.daemon.records
  }

  lemma IsPosted(cfg: W.Config, timeout: int) returns (s: System)
    requires Generous(cfg) && timeout > 0
    ensures Reached(cfg, s, None) && Waiting(s, timeout)
    ensures s.daemon == D.Next(D.INITIAL, D.Create(0, D.ExistingContainerJob, timeout, true))
    ensures s.daemon.records[0].job.state == Created
  {
    hide Reached;
    var s1 := IsLaunched(cfg, timeout);
    Go(cfg, s1, Post(0, 0, true), None);
    s := Next(cfg, s1, Post(0, 0, true));
  }

  /** The job has finished before the client has its answer. */
  lemma IsWaiting(cfg: W.Config) returns (s: System)
    requires Generous(cfg)
    ensures Reached(cfg, s, None) && Waiting(s, 1) && s.daemon.records[0].job.state == Finished
  {
    hide Reached, D.Next;
    var s2 := IsPosted(cfg, 1);
    var run := DR.ReachFinished();
    assert DR.Runs(s2.daemon, run[1..]) && DR.After(s2.daemon, run[1..]) == DR.After(D.INITIAL, run);
    GoDaemon(cfg, s2, run[1..]);
    s := s2.(daemon := DR.After(s2.daemon, run[1..]));
  }

  /** Task 0 is in this state, with this error. */
  ghost predicate TaskIs(s: System, state: Phase, code: ErrorCode) {
    && 0 in s.worker.entries && s.worker.entries[0].task.state == state
    && s.worker.entries[0].task.errorCode == Some(code)
  }

  /** Job 0 was created for task 0, and is in this state. */
  ghost predicate JobIs(s: System, state: Phase) {
    0 in s.origin && s.origin[0] == 0 && 0 in s.daemon.records && s.daemon.records[0].job.state == state
  }

  /** The answer is lost: the job is finished, and the task has failed. */
  lemma LostAnswerParts(cfg: W.Config) returns (s: System)
    requires Generous(cfg)
    ensures Reached(cfg, s, Some(Lost)) && TaskIs(s, Failed, RunnerUnavailable) && JobIs(s, Finished)
  {
    hide Reached;
    var s1 := IsWaiting(cfg);
    var how := Refused(RunnerUnavailable, "");
    RefusalIsCollected(cfg, s1.worker, 0, RunnerUnavailable, "");
    Go(cfg, s1, Abandon(0, how), Some(Lost));
    var s2 := Next(cfg, s1, Abandon(0, how));
    assert s2.worker == W.Next(cfg, s1.worker, W.End(0, how));
    hide W.Enabled;
    R.OwnMove(cfg, s2, W.Collect(0));
    Go(cfg, s2, WorkerMoves(W.Collect(0)), Some(Lost));
    s := Next(cfg, s2, WorkerMoves(W.Collect(0)));
  }

  /** The worker gives up: the job is finished, and the task has timed out. */
  lemma LateAnswerParts(cfg: W.Config) returns (s: System)
    requires Generous(cfg)
    ensures Reached(cfg, s, Some(Late)) && TaskIs(s, Timeout, OperationTimeout) && JobIs(s, Finished)
  {
    hide Reached;
    var s1 := IsWaiting(cfg);
    Go(cfg, s1, WorkerMoves(W.GiveUp(0)), Some(Late));
    s := Next(cfg, s1, WorkerMoves(W.GiveUp(0)));
  }

  /**
   The timeout is too long for a join: the task has failed while its runner thread runs on and the job is
   undecided.
   */
  lemma LongTimeoutParts(cfg: W.Config, timeout: int) returns (s: System)
    requires Generous(cfg) && !Joinable(timeout)
    ensures Reached(cfg, s, Some(TooLong)) && TaskIs(s, Failed, InternalError) && JobIs(s, Created)
    ensures s.worker.entries[0].thread.Running?
  {
    hide Reached;
    var s1 := IsPosted(cfg, timeout);
    Go(cfg, s1, WorkerMoves(W.Overflow(0)), Some(TooLong));
    var s2 := Next(cfg, s1, WorkerMoves(W.Overflow(0)));
    assert s2.worker.entries[0].executor == W.Raising(W.TOO_LONG);
    Go(cfg, s2, WorkerMoves(W.Normalize(0)), Some(TooLong));
    s := Next(cfg, s2, WorkerMoves(W.Normalize(0)));
  }

  /** The client's thread could not be started: the task has failed and there is no job. */
  lemma UnstartedClientParts(cfg: W.Config) returns (s: System)
    requires Generous(cfg)
    ensures Reached(cfg, s, Some(Unstarted)) && TaskIs(s, Failed, InternalError)
    ensures s.origin == map[]
  {
    hide Reached;
    var s1 := IsLoaded(cfg, 1);
    assert 0 in s1.worker.entries && s1.worker.entries[0] == W.Entry(First(1), W.Creating, NotStarted);
    Go(cfg, s1, WorkerMoves(W.Launch(0, false)), Some(Unstarted));
    var s2 := Next(cfg, s1, WorkerMoves(W.Launch(0, false)));
    assert s2.worker.entries[0].executor.Raising?;
    Go(cfg, s2, WorkerMoves(W.Normalize(0)), Some(Unstarted));
    s := Next(cfg, s2, WorkerMoves(W.Normalize(0)));
  }
}
