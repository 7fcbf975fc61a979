/** Theorems about whole runs of the worker, under every interleaving. */
module WorkerRuns {
  import opened Common
  import opened Phases
  import opened RateLimits
  import opened Worker
  import opened WorkerProofs

  /** `states[i]` is where the service stands after the first `i` steps. */
  ghost predicate Execution(cfg: Config, states: seq<Service>, steps: seq<Step>) {
    && |states| == |steps| + 1
    && states[0] == Initial(states[0].clock)
    && forall i :: 0 <= i < |steps| ==>
       Enabled(cfg, states[i], steps[i]) && states[i + 1] == Next(cfg, states[i], steps[i])
  }

  lemma {:induction false} ExecutionKeepsInv(cfg: Config, states: seq<Service>, steps: seq<Step>, i: nat)
    requires Execution(cfg, states, steps) && i < |states|
    ensures Inv(cfg, states[i])
  {
    if i == 0 {
      InitialInv(cfg, states[0].clock);
    } else {
      ExecutionKeepsInv(cfg, states, steps, i - 1);
      StepKeepsInv(cfg, states[i - 1], steps[i - 1]);
    }
  }

  /** What a later state owes to an earlier one. */
  ghost predicate Later(s: Service, s': Service) {
    && (forall id :: id in s.entries ==>
          && id in s'.entries
          && Rank(s.entries[id].task.state) <= Rank(s'.entries[id].task.state)
          && (Terminal(s.entries[id].task.state) ==> s'.entries[id].task == s.entries[id].task)
          && SameRequest(s.entries[id].task, s'.entries[id].task))
    && (forall r :: r in s.byRequest ==> r in s'.byRequest && s'.byRequest[r] == s.byRequest[r])
    && s.audit <= s'.audit && s.threads <= s'.threads && s.replies <= s'.replies
  }

  lemma OneEntryIsLater(cfg: Config, s: Service, s': Service, id: TaskId, e: Entry, ended: bool)
    requires id in s.entries && Advance(cfg, s.entries[id], e, ended) && s'.entries == s.entries[id := e]
    requires s'.byRequest == s.byRequest && s.audit <= s'.audit && s.threads == s'.threads && s.replies == s'.replies
    ensures Later(s, s')
  {
    hide EntryOk, Rank;
  }

  lemma TaskStepIsLater(cfg: Config, s: Service, step: Step)
    requires Inv(cfg, s) && Enabled(cfg, s, step) && NamesTask(step)
    ensures Later(s, Next(cfg, s, step))
  {
    EntryStep(cfg, s, step);
    hide EntryAfter, EntryOk, EntriesOk, TablesAgree, OneActive, SecretsLedger, AuditLedger, OneThreadEach,
      RepliesHold, Budget, Advance, Later;
    OneEntryIsLater(cfg, s, Next(cfg, s, step), step.id, Next(cfg, s, step).entries[step.id], step.Finalise?);
  }

  lemma CreateIsLater(cfg: Config, s: Service, call: CreateCall)
    requires Inv(cfg, s) && Enabled(cfg, s, Create(call))
    ensures Later(s, Next(cfg, s, Create(call)))
  {
    hide CreateTask, EntriesOk, TablesAgree, OneActive, SecretsLedger, AuditLedger, OneThreadEach, RepliesHold,
      Budget, Added, Later;
    RefusalLeavesTables(cfg, s, call);
    if Makes(CreateTask(cfg, s, call).1) {
      StartedAdds(cfg, s, call);
      AddedIsLater(s, Next(cfg, s, Create(call)), call);
    } else {
      SameTablesLater(s, Next(cfg, s, Create(call)));
    }
  }

  lemma AddedIsLater(s: Service, s': Service, call: CreateCall)
    requires Added(s, s', call)
    ensures Later(s, s')
  {
    hide Undecided, Terminal, Rank;
  }

  lemma SameTablesLater(s: Service, s': Service)
    requires s'.entries == s.entries && s'.byRequest == s.byRequest
    requires s.audit <= s'.audit && s.threads <= s'.threads && s.replies <= s'.replies
    ensures Later(s, s')
  {
  }

  lemma ClockIsLater(cfg: Config, s: Service, step: Step)
    requires step.Tick? && Enabled(cfg, s, step)
    ensures Later(s, Next(cfg, s, step))
  {
  }

  lemma StepIsLater(cfg: Config, s: Service, step: Step)
    requires Inv(cfg, s) && Enabled(cfg, s, step)
    ensures Later(s, Next(cfg, s, step))
  {
    match step
    case Tick(_) => ClockIsLater(cfg, s, step);
    case Create(call) => CreateIsLater(cfg, s, call);
    case _ => TaskStepIsLater(cfg, s, step);
  }

  lemma LaterIsTransitive(a: Service, b: Service, c: Service)
    requires Later(a, b) && Later(b, c)
    ensures Later(a, c)
  {
    hide Rank, Terminal;
  }

  /**
   Over any stretch of any run, a terminal task keeps its state, outcome and timestamps,
   no task falls back to an earlier phase, and no table or log loses an entry.
   */
  lemma {:induction false} NothingIsUndone(cfg: Config, states: seq<Service>, steps: seq<Step>, i: nat, j: nat)
    requires Execution(cfg, states, steps) && i <= j < |states|
    ensures Later(states[i], states[j])
  {
    hide Later, Inv, Enabled, Next;
    if i == j {
      SameTablesLater(states[i], states[i]);
    } else {
      NothingIsUndone(cfg, states, steps, i, j - 1);
      ExecutionKeepsInv(cfg, states, steps, j - 1);
      StepIsLater(cfg, states[j - 1], steps[j - 1]);
      LaterIsTransitive(states[i], states[j - 1], states[j]);
    }
  }

  /** In every state of every run at most one task is not terminal, and `create_task` refuses while there is one. */
  lemma AtMostOneActiveTask(cfg: Config, states: seq<Service>, steps: seq<Step>, i: nat, call: CreateCall)
    requires Execution(cfg, states, steps) && i < |states|
    ensures OneActive(states[i].entries)
    ensures Busy(states[i]) ==> !Makes(CreateTask(cfg, states[i], call).1)
  {
    ExecutionKeepsInv(cfg, states, steps, i);
    hide EntryOk;
  }

  /** No step gives a task the executor that could not be started. */
  lemma UnbornStays(cfg: Config, s: Service, step: Step, id: TaskId)
    requires Inv(cfg, s) && Enabled(cfg, s, step) && id in s.entries && s.entries[id].executor.Unborn?
    ensures id in Next(cfg, s, step).entries && Next(cfg, s, step).entries[id].executor.Unborn?
  {
    EntryIsOk(cfg, s, id);
    assert s.entries[id].thread.NotStarted? && TablesAgree(s.entries, s.byRequest);
    hide Inv, EntriesOk, TablesAgree, Undecided, EntryAfter, EntryOk, CreateTask, Announces, MayReturn, CreateRunner;
    if step.Create? {
      UnbornBlocks(cfg, s, id, step.call);
      RefusalLeavesTables(cfg, s, step.call);
    }
  }

  /**
   A create whose thread could not be started blocks the worker for good: from then on its task is
   undecided, its credentials stay, and no create makes another task.
   */
  lemma {:induction false} DroppedBlocksForGood(cfg: Config, states: seq<Service>, steps: seq<Step>, i: nat, j: nat,
      id: TaskId, call: CreateCall)
    requires Execution(cfg, states, steps) && i <= j < |states|
    requires id in states[i].entries && states[i].entries[id].executor.Unborn?
    ensures id in states[j].entries && states[j].entries[id].executor.Unborn?
    ensures states[j].entries[id].task.state == Created && id in states[j].secrets
    ensures !Makes(CreateTask(cfg, states[j], call).1)
  {
    hide Inv, Enabled, Next, CreateTask, EntryOk;
    ExecutionKeepsInv(cfg, states, steps, j);
    if i < j {
      DroppedBlocksForGood(cfg, states, steps, i, j - 1, id, call);
      ExecutionKeepsInv(cfg, states, steps, j - 1);
      UnbornStays(cfg, states[j - 1], steps[j - 1], id);
    }
    UnbornBlocks(cfg, states[j], id, call);
  }

  /** It takes one create that is admitted. */
  lemma DropHappens(cfg: Config, call: CreateCall) returns (states: seq<Service>, steps: seq<Step>)
    requires cfg.globalLimit >= 1 && cfg.userLimit >= 1 && !call.starts
    requires call.requestId.Some? && call.user.Some? && call.body.Some? && call.body.value.timeout > 0
    ensures Execution(cfg, states, steps) && |steps| == 1
    ensures call.newId in states[1].entries && states[1].entries[call.newId].executor.Unborn?
    ensures states[1].replies == [(call, Dropped(call.newId))]
  {
    var s := Initial(0.0);
    steps := [Create(call)];
    states := [s, Next(cfg, s, Create(call))];
    assert Admits(cfg.globalLimit, cfg.userLimit, [], call.user.value, 0.0);
    assert !Busy(s);
  }

  lemma UnbornBlocks(cfg: Config, s: Service, id: TaskId, call: CreateCall)
    requires Inv(cfg, s) && id in s.entries && s.entries[id].executor.Unborn?
    ensures s.entries[id].task.state == Created && id in s.secrets
    ensures !Makes(CreateTask(cfg, s, call).1)
  {
    EntryIsOk(cfg, s, id);
    assert id in s.secrets.Keys by { assert SecretsLedger(s.entries, s.secrets.Keys); }
    assert TablesAgree(s.entries, s.byRequest);
    RefusalLeavesTables(cfg, s, call);
    hide Inv, CreateTask;
  }

  /** A runner thread that outlives its timeout changes no task, its own or a later one, and no table. */
  lemma OutlivingRunnerIsHarmless(cfg: Config, s: Service, step: Step)
    requires Enabled(cfg, s, step) && (step.Announce? || step.End?)
    requires Terminal(s.entries[step.id].task.state)
    ensures var s' := Next(cfg, s, step);
            && s'.entries.Keys == s.entries.Keys
            && (forall id :: id in s.entries ==>
               s'.entries[id].task == s.entries[id].task && s'.entries[id].executor == s.entries[id].executor)
            && s' == s.(entries := s'.entries)
  {
    hide EntryAfter, Announces, MayReturn, CreateRunner, CreateTask;
    LateStep(cfg, s.entries[step.id], step.id in s.secrets, step, s.clock);
  }

  lemma LateStep(cfg: Config, e: Entry, hasSecret: bool, step: Step, now: real)
    requires (step.Announce? || step.End?) && Terminal(e.task.state)
    ensures var e' := EntryAfter(cfg, e, hasSecret, step, now); e'.task == e.task && e'.executor == e.executor
  {
  }

  /** Only the executor decides: a runner's announcement never makes a task terminal. */
  lemma AnnouncementsNeverDecide(cfg: Config, s: Service, step: Step)
    requires Enabled(cfg, s, step) && (step.Announce? || step.End?)
    ensures Terminal(Next(cfg, s, step).entries[step.id].task.state) ==> Terminal(s.entries[step.id].task.state)
  {
    if step.Announce? {
      var program := CreateRunner(cfg.runnerUrl, s.entries[step.id].task.mode).value;
      AnnouncementsAdvance(program, s.entries[step.id].thread.last, step.phase);
    }
    hide Announces, MayReturn, CreateRunner, CreateTask;
  }

  /**
   Idempotency over a whole history: the calls that were answered with a task and carry the
   same request id carry the same body, are answered with the same task, and that task's
   executor thread was started exactly once, or never if that raised.
   */
  lemma SameRequestSameTask(cfg: Config, states: seq<Service>, steps: seq<Step>, i: nat, a: nat, b: nat)
    requires Execution(cfg, states, steps) && i < |states| && a < |states[i].replies| && b < |states[i].replies|
    requires !states[i].replies[a].1.Rejected? && !states[i].replies[b].1.Rejected?
    requires states[i].replies[a].0.requestId == states[i].replies[b].0.requestId
    ensures states[i].replies[a].1.task == states[i].replies[b].1.task
    ensures states[i].replies[a].0.fingerprint == states[i].replies[b].0.fingerprint
    ensures var s, id := states[i], states[i].replies[a].1.task;
            && id in s.entries
            && if s.entries[id].executor.Unborn? then id !in s.threads
               else exists k :: 0 <= k < |s.threads| && s.threads[k] == id
                                && forall m :: 0 <= m < |s.threads| && m != k ==> s.threads[m] != s.threads[k]
  {
    ExecutionKeepsInv(cfg, states, steps, i);
    var s := states[i];
    assert ReplyHolds(s.entries, s.byRequest, s.replies[a].0, s.replies[a].1);
    assert ReplyHolds(s.entries, s.byRequest, s.replies[b].0, s.replies[b].1);
    assert !s.entries[s.replies[a].1.task].executor.Unborn? ==> s.replies[a].1.task in s.threads;
  }

  /** The two tables hold the same tasks, one for one. */
  lemma TablesAreInverse(cfg: Config, states: seq<Service>, steps: seq<Step>, i: nat)
    requires Execution(cfg, states, steps) && i < |states|
    ensures forall id :: id in states[i].entries ==>
              var r := states[i].entries[id].task.requestId; r in states[i].byRequest && states[i].byRequest[r] == id
    ensures forall r, r' ::
              r in states[i].byRequest && r' in states[i].byRequest
              && states[i].byRequest[r] == states[i].byRequest[r'] ==>
              r == r'
    ensures states[i].byRequest.Values == states[i].entries.Keys
  {
    ExecutionKeepsInv(cfg, states, steps, i);
    var s := states[i];
    assert TablesAgree(s.entries, s.byRequest);
    hide EntryOk, AuditLedger, SecretsLedger, OneThreadEach, RepliesHold, OneActive;
    forall id | id in s.entries ensures id in s.byRequest.Values {
      assert s.byRequest[s.entries[id].task.requestId] == id;
    }
  }

  /** No closed minute of any run holds more charged calls than the limits allow, in all or for one user. */
  lemma MinuteBudget(cfg: Config, states: seq<Service>, steps: seq<Step>, i: nat, t: real, user: int)
    requires Execution(cfg, states, steps) && i < |states|
    ensures Within(states[i].accepted, t, t + 60.0) <= NonNegative(cfg.globalLimit)
    ensures Within(Of(states[i].accepted, user), t, t + 60.0) <= NonNegative(cfg.userLimit)
  {
    ExecutionKeepsInv(cfg, states, steps, i);
    EveryMinuteIsBounded(cfg.globalLimit, cfg.userLimit, states[i].accepted, states[i].clock, t, user);
  }

  /**
   Credentials are stored for exactly the tasks whose executor has not finalised, so for every
   active task, and for none once all executors have ended.
   */
  lemma CredentialsLedger(cfg: Config, states: seq<Service>, steps: seq<Step>, i: nat)
    requires Execution(cfg, states, steps) && i < |states|
    ensures forall id :: id in states[i].secrets <==> id in states[i].entries && !states[i].entries[id].executor.Ended?
    ensures forall id :: id in states[i].entries && !Terminal(states[i].entries[id].task.state) ==>
            id in states[i].secrets
    ensures (forall id :: id in states[i].entries ==> states[i].entries[id].executor.Ended?) ==>
            states[i].secrets == map[]
  {
    ExecutionKeepsInv(cfg, states, steps, i);
    assert EntriesOk(cfg, states[i].entries);
    assert SecretsLedger(states[i].entries, states[i].secrets.Keys);
    hide TablesAgree, AuditLedger, OneThreadEach, RepliesHold, OneActive;
  }

  /** The `finally` block never needs its fallback, and the executor never misses its credentials. */
  lemma FallbacksAreNeverNeeded(cfg: Config, states: seq<Service>, steps: seq<Step>, i: nat)
    requires Execution(cfg, states, steps) && i < |steps|
    ensures steps[i].Finalise? ==> Terminal(states[i].entries[steps[i].id].task.state)
                                   && states[i + 1].entries[steps[i].id].task == states[i].entries[steps[i].id].task
    ensures steps[i].Load? ==> states[i + 1].entries[steps[i].id].executor.Creating?
  {
    ExecutionKeepsInv(cfg, states, steps, i);
    if !steps[i].Tick? && !steps[i].Create? {
      var id := steps[i].id;
      assert EntryOk(cfg, states[i].entries[id]) by { assert EntriesOk(cfg, states[i].entries); }
      assert id in states[i].secrets.Keys <==>
        !states[i].entries[id].executor.Ended? by { assert SecretsLedger(states[i].entries, states[i].secrets.Keys); }
    }
    hide Inv;
  }

  /**
   Each finalised task whose record could be written has exactly one audit record, and its
   state, error code and duration are the task's, then and in every later state.
   */
  lemma AuditMatchesForever(cfg: Config, states: seq<Service>, steps: seq<Step>, i: nat, j: nat, id: TaskId, now: real)
    requires Execution(cfg, states, steps) && i <= j < |states|
    requires id in states[i].entries && states[i].entries[id].executor.Ended? && id !in states[i].unaudited
    ensures exists k :: 0 <= k < |states[i].audit| && states[i].audit[k].task == id
                        && id in states[j].entries && SaysOf(states[i].audit[k], states[j].entries[id].task, now)
                        && forall m :: 0 <= m < |states[j].audit| && m != k ==> states[j].audit[m].task != id
  {
    ExecutionKeepsInv(cfg, states, steps, i);
    ExecutionKeepsInv(cfg, states, steps, j);
    NothingIsUndone(cfg, states, steps, i, j);
    var s, s' := states[i], states[j];
    AuditedOnce(cfg, s, s', id, now);
    hide Inv, Later, SaysOf;
  }

  /** State, error code and duration of the record are the task's. */
  ghost predicate SaysOf(r: AuditRecord, t: Task, now: real) {
    r.state == t.state && r.errorCode == t.errorCode && r.duration == t.Duration(now)
  }

  lemma AuditedOnce(cfg: Config, s: Service, s': Service, id: TaskId, now: real)
    requires Inv(cfg, s) && Inv(cfg, s') && Later(s, s')
    requires id in s.entries && s.entries[id].executor.Ended? && id !in s.unaudited
    ensures exists k :: 0 <= k < |s.audit| && s.audit[k].task == id
                        && id in s'.entries && SaysOf(s.audit[k], s'.entries[id].task, now)
                        && forall m :: 0 <= m < |s'.audit| && m != k ==> s'.audit[m].task != id
  {
    hide TablesAgree, OneActive, SecretsLedger, OneThreadEach, RepliesHold, Budget, Rank, Undecided, SaysOf, AuditOf;
    assert EntryOk(cfg, s.entries[id]);
    assert Recorded(s.audit, id);
    var k :| 0 <= k < |s.audit| && s.audit[k].task == id;
    assert RecordHolds(s.entries, s.audit[k]);
    assert s'.audit[k] == s.audit[k];
    SaysAtAnyTime(s.audit[k], id, s.entries[id].task, now);
  }

  lemma SaysAtAnyTime(r: AuditRecord, id: TaskId, t: Task, now: real)
    requires Decided(t) && r == AuditOf(id, t, 0.0)
    ensures SaysOf(r, t, now)
  {
    DecidedDuration(t, now, 0.0);
  }

  /** A finished task carries no error and a result, a failed or timed-out one carries an error and no summary. */
  lemma OutcomesAreConsistent(cfg: Config, states: seq<Service>, steps: seq<Step>, i: nat, id: TaskId)
    requires Execution(cfg, states, steps) && i < |states| && id in states[i].entries
    ensures var t := states[i].entries[id].task;
            && t.state != Queued && t.state != Cancelled
            && (Terminal(t.state) ==>
                 t.finishedAt.Some? && (t.state == Finished <==> t.errorCode.None?)
                 && (t.state == Finished <==> t.summary.Some?))
            && (!Terminal(t.state) ==> t.errorCode.None? && t.summary.None? && t.finishedAt.None?)
  {
    hide Inv, Enabled, Next, EntryOk;
    ExecutionKeepsInv(cfg, states, steps, i);
    EntryIsOk(cfg, states[i], id);
    OutcomeOfEntry(cfg, states[i].entries[id]);
  }

  /** A task whose timeout is too long for a join never has a result: it can only fail, as an internal error. */
  lemma TooLongNeverSucceeds(cfg: Config, states: seq<Service>, steps: seq<Step>, i: nat, id: TaskId)
    requires Execution(cfg, states, steps) && i < |states| && id in states[i].entries
    requires !Joinable(states[i].entries[id].task.timeout)
    ensures var t := states[i].entries[id].task;
            && t.state != Finished && t.state != Timeout && t.summary.None?
            && (Terminal(t.state) ==> t.state == Failed && t.errorCode == Some(InternalError))
  {
    hide Inv, Enabled, Next, EntryOk;
    ExecutionKeepsInv(cfg, states, steps, i);
    EntryIsOk(cfg, states[i], id);
    SpoiltEntry(cfg, states[i].entries[id]);
  }

  lemma SpoiltEntry(cfg: Config, e: Entry)
    requires EntryOk(cfg, e) && !Joinable(e.task.timeout)
    ensures e.task.state != Finished && e.task.state != Timeout && e.task.summary.None?
    ensures Terminal(e.task.state) ==> e.task.state == Failed && e.task.errorCode == Some(InternalError)
  {
  }

  lemma EntryIsOk(cfg: Config, s: Service, id: TaskId)
    requires Inv(cfg, s) && id in s.entries
    ensures EntryOk(cfg, s.entries[id])
  {
    hide EntryOk, TablesAgree, AuditLedger, OneThreadEach, RepliesHold, OneActive, SecretsLedger, Budget;
  }

  lemma OutcomeOfEntry(cfg: Config, e: Entry)
    requires EntryOk(cfg, e)
    ensures var t := e.task;
            && t.state != Queued && t.state != Cancelled
            && (Terminal(t.state) ==>
                  t.finishedAt.Some? && (t.state == Finished <==> t.errorCode.None?)
                    && (t.state == Finished <==> t.summary.Some?))
            && (!Terminal(t.state) ==> t.errorCode.None? && t.summary.None? && t.finishedAt.None?)
  {
  }
}
