/** Runs that show where the guarantee of `_stop` ends. */
module StopGaps {
  import opened Common
  import opened StopProtocol

  ghost predicate Reached(b: Bot) {
    exists states, steps :: Execution(states, steps) && states[|steps|] == b
  }

  lemma Start()
    ensures Reached(INITIAL)
  {
    var steps: seq<Step> := [];
    assert Execution([INITIAL], steps) && [INITIAL][|steps|] == INITIAL;
  }

  lemma Go(b: Bot, step: Step)
    requires Reached(b) && Enabled(b, step)
    ensures Reached(Next(b, step))
  {
    hide Enabled, Next;
    var states, steps :| Execution(states, steps) && states[|steps|] == b;
    var states', steps' := states + [Next(b, step)], steps + [step];
    forall i | 0 <= i < |steps'|
      ensures Enabled(states'[i], steps'[i]) && states'[i + 1] == Next(states'[i], steps'[i])
    {
      if i < |steps| {
        assert states'[i] == states[i] && states'[i + 1] == states[i + 1] && steps'[i] == steps[i];
      }
    }
    assert Execution(states', steps') && states'[|steps'|] == Next(b, step);
  }

  /** A bot with the one job 0. */
  function Alone(j: Job, processes: map<Pid, Process>, lock: Option<JobId>, handler: Handler): Bot {
    Bot(map[j.user := 0], map[0 := j], processes, lock, Free, handler)
  }

  function LockAfter(j: Job, lock: Option<JobId>): Option<JobId> {
    if j.stage.Announcing? then Some(0)
    else if j.stage.Stored? || (j.stage.Locked? && j.cancelled) then None
    else lock
  }

  lemma Move1(j: Job, processes: map<Pid, Process>, lock: Option<JobId>, handler: Handler, pid: Pid)
    requires Reached(Alone(j, processes, lock, handler))
    requires !j.stage.Closing? && Ready(Alone(j, processes, lock, handler), j.stage, pid)
    ensures Reached(Alone(JobAfter(j, pid), ProcessesAfter(processes, j, pid), LockAfter(j, lock), handler))
  {
    hide Reached, Ready, JobAfter, ProcessesAfter;
    var b := Alone(j, processes, lock, handler);
    Go(b, Move(0, pid));
    assert JobAfter(j, pid).user == j.user by { SameUser(j, pid); }
    assert b.table[0 := JobAfter(j, pid)] == map[0 := JobAfter(j, pid)];
  }

  lemma SameUser(j: Job, pid: Pid)
    ensures JobAfter(j, pid).user == j.user
  {
  }

  const ENDED := map[0 := Process(false, false)]
  const PLAYS := map[0 := Process(false, false), 1 := Process(true, false)]

  function At(user: User, stage: Stage): Job {
    Job(user, false, None, stage, Some(0), None, false, false)
  }

  /** A job is admitted, and its converter has run and ended. */
  lemma Converts(user: User)
    ensures Reached(Alone(At(user, Clearing).(slot := Some(0)), ENDED, None, Resting))
  {
    hide Reached;
    Start();
    Go(INITIAL, Admit(user));
    Go(INITIAL.(poller := Admitting(user)), Begin(0));
    var j := Job(user, false, None, Downloading, None, None, false, false);
    assert Next(INITIAL.(poller := Admitting(user)), Begin(0)) == Alone(j, map[], None, Resting);
    Move1(j, map[], None, Resting, 0);
    Move1(j.(stage := Converting), map[], None, Resting, 0);
    var runs: map<Pid, Process> := map[0 := Process(true, false)];
    assert map[][0 := Process(true, false)] == runs;
    Move1(At(user, Spawned(0)), runs, None, Resting, 0);
    Move1(At(user, Assigned(0)).(slot := Some(0)), runs, None, Resting, 0);
    var waiting := At(user, Waiting(0)).(slot := Some(0));
    Go(Alone(waiting, runs, None, Resting), Exit(0));
    assert runs[0 := Process(false, false)] == ENDED;
    Move1(waiting, ENDED, None, Resting, 0);
  }

  /** It has been prepared and is about to take the lock. */
  lemma IsPrepared(user: User)
    ensures Reached(Alone(At(user, Announcing), ENDED, None, Resting))
  {
    hide Reached;
    Converts(user);
    Move1(At(user, Clearing).(slot := Some(0)), ENDED, None, Resting, 0);
    Move1(At(user, Verifying), ENDED, None, Resting, 0);
  }

  /** It passes its last check; the handler may have started before that. */
  lemma PassesChecks(user: User, handler: Handler)
    requires Reached(Alone(At(user, Announcing), ENDED, None, handler))
    ensures Reached(Alone(At(user, Cleared), ENDED, Some(0), handler))
  {
    hide Reached;
    Move1(At(user, Announcing), ENDED, None, handler, 0);
    Move1(At(user, Locked), ENDED, Some(0), handler, 0);
  }

  lemma HandlerGo(j: Job, processes: map<Pid, Process>, lock: Option<JobId>, handler: Handler, step: Step,
      handler': Handler)
    requires Reached(Alone(j, processes, lock, handler)) && Enabled(Alone(j, processes, lock, handler), step)
    requires Next(Alone(j, processes, lock, handler), step) == Alone(j, processes, lock, handler')
    ensures Reached(Alone(j, processes, lock, handler'))
  {
    hide Reached, Next, Enabled;
    Go(Alone(j, processes, lock, handler), step);
  }

  lemma OneValue(user: User)
    ensures map[user := 0 as JobId].Values == {0}
  {
    var m: map<User, JobId> := map[user := 0];
    assert user in m && m[user] == 0;
    assert 0 in m.Values;
  }

  /**
   A run in which `stop_all` comes and goes while a job is in the gap: the player it then starts runs on
   unsignalled.
   */
  lemma StopAllMissesPlayer(user: User) returns (b: Bot)
    ensures Reached(b) && b.handler.Exited? && 0 in b.table && b.table[0].user == user && b.table[0].cancelled
    ensures b.table[0].player == Some(1) && Running(b, 1) && !b.processes[1].signalled
  {
    hide Reached;
    IsPrepared(user);
    var prepared := At(user, Announcing);
    OneValue(user);
    HandlerGo(prepared, ENDED, None, Resting, HandlerStarts, Sweeping({0}));
    PassesChecks(user, Sweeping({0}));
    var j := At(user, Cleared);
    var flagged := j.(cancelled := true);
    Go(Alone(j, ENDED, Some(0), Sweeping({0})), HandlerFlags(0));
    assert map[0 := j][0 := flagged] == map[0 := flagged] && {0} - {0} == {};
    HandlerGo(flagged, ENDED, Some(0), Flagged(0, {}), HandlerLooks, Sweeping({}));
    HandlerGo(flagged, ENDED, Some(0), Sweeping({}), HandlerExits, Exited);
    Move1(flagged, ENDED, Some(0), Exited, 1);
    b := Alone(JobAfter(flagged, 1), ProcessesAfter(ENDED, flagged, 1), Some(0), Exited);
  }

  function Playing1(user: User): Bot {
    Alone(At(user, Playing(1)).(player := Some(1), slot := Some(1)), PLAYS, None, Resting)
  }

  /** Its player is in the slot, and it waits for it. */
  lemma IsPlaying(user: User)
    ensures Reached(Playing1(user))
  {
    hide Reached;
    IsPrepared(user);
    PassesChecks(user, Resting);
    Move1(At(user, Cleared), ENDED, Some(0), Resting, 1);
    var started := At(user, Started(1)).(player := Some(1));
    assert ENDED[1 := Process(true, false)] == PLAYS;
    Move1(started, PLAYS, Some(0), Resting, 0);
    Move1(started.(stage := Stored(1), slot := Some(1)), PLAYS, Some(0), Resting, 0);
  }

  /** A run in which a message of the playing thread raises: the player runs on, and `_stop` finds no job to stop. */
  lemma PlayerIsOrphaned(user: User) returns (b: Bot)
    ensures Reached(b) && Running(b, 1) && !b.processes[1].signalled
    ensures 0 in b.table && b.table[0].player == Some(1) && b.table[0].raised
    ensures user !in b.jobs && Enabled(b, Stop(user)) && Next(b, Stop(user)) == b
  {
    hide Reached, Inv, JobAfter, ProcessesAfter, Ready;
    IsPlaying(user);
    var playing := Playing1(user);
    ReachedIsOk(playing);
    FailedMessageOrphansPlayer(playing, 0, 1, 0);
    Go(playing, Fail(0));
    Go(Next(playing, Fail(0)), Move(0, 0));
    b := Next(Next(playing, Fail(0)), Move(0, 0));
  }

  lemma ReachedIsOk(b: Bot)
    requires Reached(b)
    ensures Inv(b)
  {
    hide Inv;
    var states, steps :| Execution(states, steps) && states[|steps|] == b;
    ExecutionKeepsInv(states, steps, |steps|);
  }
}
