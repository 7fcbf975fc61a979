/** Theorems about whole runs of the daemon, under every interleaving. */
module DaemonRuns {
  import opened Common
  import opened Phases
  import opened Daemon
  import opened DaemonProofs

  ghost predicate Execution(states: seq<Service>, steps: seq<Step>) {
    && |states| == |steps| + 1
    && states[0] == INITIAL
    && forall i :: 0 <= i < |steps| ==> Enabled(states[i], steps[i]) && states[i + 1] == Next(states[i], steps[i])
  }

  lemma {:induction false} ExecutionKeepsInv(states: seq<Service>, steps: seq<Step>, i: nat)
    requires Execution(states, steps) && i < |states|
    ensures Inv(states[i])
  {
    if i > 0 {
      ExecutionKeepsInv(states, steps, i - 1);
      StepKeepsInv(states[i - 1], steps[i - 1]);
    }
  }

  ghost predicate Later(s: Service, s': Service) {
    forall id :: id in s.records ==> id in s'.records && JobAdvances(s.records[id].job, s'.records[id].job)
  }

  lemma StepIsLater(s: Service, step: Step)
    requires Inv(s) && Enabled(s, step)
    ensures Later(s, Next(s, step))
  {
    hide RecordOk, RecordAfter, Announces, MayReturn, JobAdvances, Verdict, Writes;
    if !step.Create? {
      assert RecordOk(s.records[Subject(s, step)], WorkOn(s, Subject(s, step)));
      hide Inv;
      LocalStep(s, step);
    }
    hide Inv;
    forall id | id in s.records ensures JobAdvances(s.records[id].job, s.records[id].job) { Itself(s.records[id].job); }
  }

  lemma Itself(j: Job)
    ensures JobAdvances(j, j)
  {
  }

  /**
   The first terminal state wins: over any stretch of any run a terminal job keeps its
   state, result and error, no job falls back to an earlier phase, and wiped credentials stay wiped.
   */
  lemma {:induction false} FirstTerminalWins(states: seq<Service>, steps: seq<Step>, i: nat, j: nat)
    requires Execution(states, steps) && i <= j < |states|
    ensures Later(states[i], states[j])
  {
    if i < j {
      hide Inv, Enabled, Next, Later;
      FirstTerminalWins(states, steps, i, j - 1);
      ExecutionKeepsInv(states, steps, j - 1);
      StepIsLater(states[j - 1], steps[j - 1]);
      LaterIsTransitive(states[i], states[j - 1], states[j]);
    } else {
      SameIsLater(states[i]);
    }
  }

  lemma SameIsLater(s: Service)
    ensures Later(s, s)
  {
  }

  lemma LaterIsTransitive(a: Service, b: Service, c: Service)
    requires Later(a, b) && Later(b, c)
    ensures Later(a, c)
  {
  }

  /**
   In every state: `queued` and `cancelled` do not occur, a finished job has a summary and no
   error, a failed or timed-out one an error and no result.
   */
  lemma OutcomesAreConsistent(states: seq<Service>, steps: seq<Step>, i: nat, id: JobId)
    requires Execution(states, steps) && i < |states| && id in states[i].records
    ensures var j := states[i].records[id].job;
            && j.state != Queued && j.state != Cancelled
            && (j.state == Finished ==> j.errorCode.None? && j.summary.Some?)
            && (j.state == Failed || j.state == Timeout ==> j.errorCode.Some? && j.summary.None? && j.data == map[])
  {
    ExecutionKeepsInv(states, steps, i);
    assert RecordOk(states[i].records[id], WorkOn(states[i], id));
  }

  /**
   An executor that ended left the credentials wiped, and its job terminal if the runner thread was
   started and the timeout is one that a join accepts. One that died did so exactly because the mode
   is unknown. Credentials are wiped by nothing else.
   */
  lemma ExecutorsEndClean(states: seq<Service>, steps: seq<Step>, i: nat, id: JobId)
    requires Execution(states, steps) && i < |states| && id in states[i].records
    ensures var r := states[i].records[id];
            && (r.executor.Ended? ==> r.job.wiped && (Decidable(r) ==> Terminal(r.job.state)))
            && (r.executor.Dead? ==>
                 !r.job.wiped && (r.job.state == Created || (r.job.state == Failed
                 && r.job.errorCode.Some?) || WorkOn(states[i], id).Some?))
            && (!r.executor.Starting? && !r.executor.Unborn? ==>
                  (r.executor.Dead? <==> ProgramOf(r.job.mode).None?))
            && (r.job.wiped ==> r.executor.Closing? || r.executor.Ended?)
  {
    ExecutionKeepsInv(states, steps, i);
    assert RecordOk(states[i].records[id], WorkOn(states[i], id));
    hide ReaderOk;
  }

  // --- Where outcomes come from ----------------------------------------------------------

  /** The executor enters the section that is to give the job this outcome, whatever its section does. */
  ghost predicate Decides(s: Service, step: Step, id: JobId, j: Job) {
    && step == Decide(id) && id in s.records && !Terminal(s.records[id].job.state)
    && OutcomeIs(s.records[id].thread, j)
  }

  /** A section that gives a job the outcome owed to `t`. */
  ghost predicate Settles(section: Section, t: Thread) {
    match section
    case Succeed(result) => t == Returned(result)
    case Fail(code, message, state) =>
      || (t.Running? && state == Timeout && code == OperationTimeout && message == "timeout")
      || (t == Refused(code, message) && state == Failed)
      || (t == Crashed(message) && state == Failed && code == RunnerInternalError)
    case _ => false
  }

  predicate Deciding(work: Option<Work>) {
    work.Some? && work.value.owner.ByExecutor? && (work.value.section.Succeed? || work.value.section.Fail?)
  }

  /** A deciding section was entered by how the runner thread then stood. */
  lemma SectionStarts(r: Record, work: Option<Work>, step: Step)
    requires RecordOk(r, work) && !step.Create? && (step.Decide? ==> r.executor.Joining? && work.None?)
    ensures var work' := RecordAfter(r, work, step).1;
            Deciding(work') ==>
              || (Deciding(work) && work'.value.section == work.value.section)
              || (step.Decide? && !Terminal(r.job.state) && Settles(work'.value.section, r.thread))
  {
    hide ReaderOk, PhaseOk, JobOk, OutcomeOk, ReadNext, Apply, Writes;
  }

  /** A job is decided by a deciding section, or by a canceller. */
  lemma TurnsTerminal(r: Record, work: Option<Work>, step: Step)
    requires RecordOk(r, work) && !step.Create? && !Terminal(r.job.state)
    ensures var j := RecordAfter(r, work, step).0.job;
            Terminal(j.state) ==>
              || (step.Perform? && work.Some? && work.value.owner.ByCanceller? && work.value.done == 2
                  && IsCancelled(j))
              || (Deciding(work) && forall t :: Settles(work.value.section, t) ==> OutcomeIs(t, j))
  {
    hide ReaderOk, PhaseOk, OutcomeOk, ReadNext, Verdict;
  }

  ghost predicate HasCause(states: seq<Service>, steps: seq<Step>, i: nat, id: JobId, j: Job)
    requires i <= |steps| && i <= |states|
  {
    || (exists k :: 0 <= k < i && Decides(states[k], steps[k], id, j))
    || (IsCancelled(j) && exists k :: 0 <= k < i && Cancels(states[k], steps[k], id))
  }

  /** The section at work was entered at an earlier step. */
  ghost predicate HasStart(states: seq<Service>, steps: seq<Step>, i: nat, id: JobId, section: Section)
    requires i <= |steps| && i <= |states|
  {
    exists k :: 0 <= k < i && Starts(states[k], steps[k], id, section)
  }

  ghost predicate Starts(s: Service, step: Step, id: JobId, section: Section) {
    && step == Decide(id) && id in s.records && !Terminal(s.records[id].job.state)
    && Settles(section, s.records[id].thread)
  }

  lemma {:induction false} SectionHasStart(states: seq<Service>, steps: seq<Step>, i: nat, id: JobId)
    requires Execution(states, steps) && i < |states| && Deciding(WorkOn(states[i], id))
    ensures HasStart(states, steps, i, id, WorkOn(states[i], id).value.section)
  {
    hide Inv, Enabled, Next, WorkOn, Starts;
    NothingAtFirst(states[0], id);
    ExecutionKeepsInv(states, steps, i - 1);
    StartsOrContinues(states[i - 1], steps[i - 1], id);
    var section := WorkOn(states[i], id).value.section;
    if !Starts(states[i - 1], steps[i - 1], id, section) {
      SectionHasStart(states, steps, i - 1, id);
    }
  }

  lemma NothingAtFirst(s: Service, id: JobId)
    ensures s == INITIAL ==> !Deciding(WorkOn(s, id))
  {
  }

  lemma StartsOrContinues(s: Service, step: Step, id: JobId)
    requires Inv(s) && Enabled(s, step)
    ensures var work, work' := WorkOn(s, id), WorkOn(Next(s, step), id);
            Deciding(work') ==>
              || (Deciding(work) && work'.value.section == work.value.section)
              || Starts(s, step, id, work'.value.section)
  {
    if Subject(s, step) == id && !step.Create? {
      RecordIsOk(s, id);
      SectionStarts(s.records[id], WorkOn(s, id), step);
    }
    hide Inv, RecordOk, Announces, MayReturn, Apply, ReadNext, Writes, Verdict, Settles;
  }

  lemma {:induction false} OutcomeHasCause(states: seq<Service>, steps: seq<Step>, i: nat, id: JobId)
    requires Execution(states, steps) && i < |states| && id in states[i].records
             && Terminal(states[i].records[id].job.state)
    ensures HasCause(states, steps, i, id, states[i].records[id].job)
  {
    hide Inv, Enabled, Next, Decides, Cancels, Settles, WorkOn, IsCancelled, OutcomeIs, Starts, JobAdvances;
    NobodyAtFirst(states[0], id);
    var s, step, s' := states[i - 1], steps[i - 1], states[i];
    ExecutionKeepsInv(states, steps, i - 1);
    DecidedBefore(s, step, id);
    var j := s'.records[id].job;
    if id in s.records && Terminal(s.records[id].job.state) {
      OutcomeHasCause(states, steps, i - 1, id);
      SameCause(states, steps, i, id, s.records[id].job, j);
    } else if !(Cancels(s, step, id) && IsCancelled(j)) {
      SectionHasStart(states, steps, i - 1, id);
      var k :| 0 <= k < i - 1 && Starts(states[k], steps[k], id, WorkOn(s, id).value.section);
      StartDecides(states[k], steps[k], id, WorkOn(s, id).value.section, j);
    }
  }

  lemma NobodyAtFirst(s: Service, id: JobId)
    ensures s == INITIAL ==> id !in s.records
  {
  }

  lemma StartDecides(s: Service, step: Step, id: JobId, section: Section, j: Job)
    requires Starts(s, step, id, section) && forall t :: Settles(section, t) ==> OutcomeIs(t, j)
    ensures Decides(s, step, id, j)
  {
  }

  lemma SameCause(states: seq<Service>, steps: seq<Step>, i: nat, id: JobId, j: Job, j': Job)
    requires 0 < i <= |steps| && i <= |states| && HasCause(states, steps, i - 1, id, j) && SameOutcome(j, j')
    ensures HasCause(states, steps, i, id, j')
  {
    if k :| 0 <= k < i - 1 && Decides(states[k], steps[k], id, j) {
      assert Decides(states[k], steps[k], id, j');
    }
    hide Cancels;
  }

  lemma DecidedBefore(s: Service, step: Step, id: JobId)
    requires Inv(s) && Enabled(s, step)
    ensures var s' := Next(s, step);
            id in s'.records && Terminal(s'.records[id].job.state) ==>
              && id in s.records
              && if Terminal(s.records[id].job.state) then SameOutcome(s.records[id].job, s'.records[id].job)
                 else
                   || (Cancels(s, step, id) && IsCancelled(s'.records[id].job))
                   || (Deciding(WorkOn(s, id))
                       && forall t :: Settles(WorkOn(s, id).value.section, t) ==> OutcomeIs(t, s'.records[id].job))
  {
    if id in s.records {
      StepIsLater(s, step);
      RecordIsOk(s, id);
      if Subject(s, step) == id && !Terminal(s.records[id].job.state) {
        TurnsTerminal(s.records[id], WorkOn(s, id), step);
      }
    }
    hide Inv, RecordOk, Announces, MayReturn, Apply, ReadNext, Writes, Verdict, Settles, OutcomeIs, Deciding;
  }

  /**
   Where outcomes come from, in any run: a decided job was cancelled, and then says so, or its executor
   decided it while it was undecided, and then it holds what its runner thread had come to at that step:
   the whole result that was returned, the code and the text of the failure, or the timeout of a thread
   that still ran.
   */
  lemma OutcomesAreEarned(states: seq<Service>, steps: seq<Step>, i: nat, id: JobId)
    requires Execution(states, steps) && i < |states| && id in states[i].records
             && Terminal(states[i].records[id].job.state)
    ensures var j := states[i].records[id].job;
            || (exists k :: 0 <= k < i && Decides(states[k], steps[k], id, j))
            || (IsCancelled(j) && exists k :: 0 <= k < i && Cancels(states[k], steps[k], id))
    ensures var r := states[i].records[id];
            && (r.job.state == Finished ==> r.thread.Returned? && OutcomeIs(r.thread, r.job))
            && (r.job.state == Failed && !IsCancelled(r.job) ==> OutcomeIs(r.thread, r.job))
  {
    hide Inv, Decides, Cancels, RecordOk;
    OutcomeHasCause(states, steps, i, id);
    ExecutionKeepsInv(states, steps, i);
    RecordIsOk(states[i], id);
    OutcomeOfThread(states[i].records[id], WorkOn(states[i], id));
    hide Enabled, Next, OutcomeIs, IsCancelled;
  }

  lemma OutcomeOfThread(r: Record, work: Option<Work>)
    requires RecordOk(r, work)
    ensures r.job.state == Finished ==> r.thread.Returned? && OutcomeIs(r.thread, r.job)
    ensures r.job.state == Failed && !IsCancelled(r.job) ==> OutcomeIs(r.thread, r.job)
  {
    hide ReaderOk, PhaseOk;
  }

  // --- Jobs that are left undecided ----------------------------------------------------

  /** A canceller writes the failed state of a job. */
  ghost predicate Cancels(s: Service, step: Step, id: JobId) {
    step.Perform? && WorkOn(s, id).Some? && WorkOn(s, id).value.owner.ByCanceller? && WorkOn(s, id).value.done == 2
  }

  lemma CancelDecides(s: Service, step: Step, id: JobId)
    requires Inv(s) && Enabled(s, step) && Cancels(s, step, id)
    ensures id in Next(s, step).records && Terminal(Next(s, step).records[id].job.state)
  {
    assert RecordOk(s.records[id], WorkOn(s, id));
    hide Inv, ReaderOk, PhaseOk;
  }

  /** A job that its executor cannot decide is decided by a canceller or not at all. */
  lemma NobodyElseDecides(r: Record, work: Option<Work>, step: Step)
    requires RecordOk(r, work) && !step.Create?
    ensures var r' := RecordAfter(r, work, step).0;
            && (Decidable(r) && (step.End? ==> !step.how.NotStarted?) ==> Decidable(r'))
            && (Terminal(r'.job.state) && !Decidable(r') && !Terminal(r.job.state) ==>
                  step.Perform? && work.Some? && work.value.owner.ByCanceller? && work.value.done == 2)
  {
    hide ReaderOk, PhaseOk, ReadNext, Verdict;
  }

  lemma DecidableStays(s: Service, step: Step, id: JobId)
    requires Inv(s) && Enabled(s, step) && id in s.records
    ensures var r, r' := s.records[id], Next(s, step).records[id];
            && (Decidable(r) ==> Decidable(r'))
            && (Terminal(r'.job.state) && !Decidable(r') && !Cancels(s, step, id) ==> Terminal(r.job.state))
  {
    RecordIsOk(s, id);
    hide Inv, RecordOk, Announces, MayReturn, Apply, ReadNext, Writes, Verdict, Terminal, RecordAfter, Decidable;
    if Subject(s, step) == id {
      assert step.Create? ==> id !in s.records;
      NobodyElseDecides(s.records[id], WorkOn(s, id), step);
    }
  }

  lemma {:induction false} OnlyCancellersDecide(states: seq<Service>, steps: seq<Step>, i: nat, id: JobId)
    requires Execution(states, steps) && i < |states| && id in states[i].records
    requires Terminal(states[i].records[id].job.state) && !Decidable(states[i].records[id])
    ensures exists k :: 0 <= k < i && Cancels(states[k], steps[k], id)
  {
    hide Inv, Cancels, Decidable;
    ExecutionKeepsInv(states, steps, i - 1);
    if !Cancels(states[i - 1], steps[i - 1], id) {
      assert id in states[i - 1].records;
      DecidableStays(states[i - 1], steps[i - 1], id);
      hide Enabled, Next;
      OnlyCancellersDecide(states, steps, i - 1, id);
    }
  }

  /**
   Exactly which jobs an executor leaves undecided when it is over: those whose runner thread was not
   started, be it that the mode is unknown or that a start raised, or whose timeout is too long for a join,
   and that nobody has cancelled by then. Such a job is never decided but by being cancelled.
   */
  lemma LeftUndecidedExactly(states: seq<Service>, steps: seq<Step>, i: nat, id: JobId)
    requires Execution(states, steps) && i < |states| && id in states[i].records
    requires Over(states[i].records[id].executor)
    ensures !Terminal(states[i].records[id].job.state) <==>
              !Decidable(states[i].records[id]) && forall k :: 0 <= k < i ==> !Cancels(states[k], steps[k], id)
    ensures var r := states[i].records[id];
            !Decidable(r) && Terminal(r.job.state) ==>
              r.job.state == Failed && r.job.errorCode == Some(OperationCancelled)
  {
    hide Inv, Cancels, Enabled, Next, RecordOk;
    ExecutionKeepsInv(states, steps, i);
    RecordIsOk(states[i], id);
    WhoDecides(states[i].records[id], WorkOn(states[i], id));
    hide Decidable;
    if Terminal(states[i].records[id].job.state) && !Decidable(states[i].records[id]) {
      OnlyCancellersDecide(states, steps, i, id);
    }
    forall k | 0 <= k < i && Cancels(states[k], steps[k], id)
      ensures Terminal(states[i].records[id].job.state)
    {
      ExecutionKeepsInv(states, steps, k);
      CancelDecides(states[k], steps[k], id);
      FirstTerminalWins(states, steps, k + 1, i);
    }
  }

  /** The executor has nothing more to say about the job. */
  predicate Over(e: Executor) {
    e.Unborn? || e.Closing? || e.Ended? || e.Dead?
  }

  lemma WhoDecides(r: Record, work: Option<Work>)
    requires RecordOk(r, work)
    ensures Over(r.executor) && Decidable(r) ==> Terminal(r.job.state)
    ensures !Decidable(r) && Terminal(r.job.state) ==>
              r.job.state == Failed && r.job.errorCode == Some(OperationCancelled)
  {
    hide ReaderOk, PhaseOk, JobOk;
  }

  // --- Every executor can always run to its end ---------------------------------------

  ghost predicate Runs(s: Service, steps: seq<Step>)
    decreases |steps|
  {
    steps == [] || (Enabled(s, steps[0]) && Runs(Next(s, steps[0]), steps[1..]))
  }

  ghost function After(s: Service, steps: seq<Step>): Service
    requires Runs(s, steps)
    decreases |steps|
  {
    if steps == [] then s else After(Next(s, steps[0]), steps[1..])
  }

  function LockWork(s: Service): nat {
    if s.lock.Free? then 0
    else if s.lock.work.done < |Writes(s.lock.work.section)| then |Writes(s.lock.work.section)| - s.lock.work.done + 1
    else 1
  }

  /**
   How far an executor is from its end; the lock holder's remaining writes count because it may have to
   wait for them.
   */
  function Distance(s: Service, id: JobId): nat
    requires id in s.records
  {
    var own := if WorkOn(s, id).Some? && WorkOn(s, id).value.owner.ByExecutor? then 0 else 1;
    var stage :=
      match s.records[id].executor
      case Unborn => 0
      case Starting => 5
      case Joining => 3 + own
      case Closing => 1 + own
      case Ended => 0
      case Dead => 0;
    10 * stage + LockWork(s)
  }

  /** The executor's next step, or the lock holder's when it has to wait. */
  function NextMove(s: Service, id: JobId): Step
    requires id in s.records
  {
    if s.lock.Held? then
      if s.lock.work.done < |Writes(s.lock.work.section)| then Perform else Release
    else
      match s.records[id].executor
      case Starting => Launch(id, true)
      case Joining => if Joinable(s.records[id].job.timeout) then Decide(id) else Overflow(id)
      case _ => Close(id)
  }

  /** The executor has moves left. */
  predicate Moves(e: Executor) {
    e.Starting? || e.Joining? || e.Closing?
  }

  /** Starting the runner thread raised. */
  predicate Unstarted(r: Record) {
    r.thread.NotStarted? && (r.executor.Closing? || r.executor.Ended?)
  }

  ghost predicate Approaches(s: Service, id: JobId, step: Step)
    requires id in s.records
  {
    && Enabled(s, step) && id in Next(s, step).records && Distance(Next(s, step), id) < Distance(s, id)
    && Next(s, step).records[id].job.mode == s.records[id].job.mode
    && Next(s, step).records[id].job.timeout == s.records[id].job.timeout
    && Unstarted(Next(s, step).records[id]) == Unstarted(s.records[id])
    && (Next(s, step).records[id].executor.Unborn? <==> s.records[id].executor.Unborn?)
  }

  lemma WaitingApproachesEnd(s: Service, id: JobId)
    requires s.lock.Held? && s.lock.job in s.records && id in s.records && OwnerOk(s.records[id], WorkOn(s, id))
    ensures Approaches(s, id, NextMove(s, id))
  {
    hide JobOk, PhaseOk, ReaderOk, ExecutorOk, Announces, MayReturn, ReadNext, Verdict, Writes;
    forall j, w ensures Apply(j, w).mode == j.mode && Apply(j, w).timeout == j.timeout {
    }
    hide Apply;
  }

  lemma WorkingApproachesEnd(s: Service, id: JobId)
    requires s.lock.Free? && id in s.records && Moves(s.records[id].executor)
    requires s.records[id].executor.Joining? ==> !s.records[id].thread.NotStarted?
    ensures Approaches(s, id, NextMove(s, id))
  {
    if s.records[id].executor.Joining? {
      assert |Writes(Verdict(s.records[id]))| <= 6;
    }
    hide Announces, MayReturn, Verdict, Writes, ReadNext, Apply;
    WipeIsOneWrite();
  }

  lemma WipeIsOneWrite()
    ensures Writes(Wipe) == [WipeCredentials]
  {
  }

  lemma MoveApproachesEnd(s: Service, id: JobId)
    requires Inv(s) && id in s.records && Moves(s.records[id].executor)
    ensures Approaches(s, id, NextMove(s, id))
  {
    assert RecordOk(s.records[id], WorkOn(s, id));
    hide Approaches, JobOk, PhaseOk, ReaderOk, ExecutorOk, OwnerOk;
    if s.lock.Held? {
      WaitingApproachesEnd(s, id);
    } else {
      WorkingApproachesEnd(s, id);
    }
  }

  /**
   No interleaving leaves an executor stuck that was started at all: from every reachable state, moves of the executor
   and of whoever holds the lock bring it to its end with the credentials wiped, and its job to a
   terminal state unless the timeout is too long for a join or starting the runner thread raised.
   */
  lemma {:induction false} ExecutorCanEnd(s: Service, id: JobId) returns (steps: seq<Step>)
    requires Inv(s) && id in s.records && ProgramOf(s.records[id].job.mode).Some? && !s.records[id].executor.Unborn?
    ensures Runs(s, steps)
    ensures var s' := After(s, steps);
            && id in s'.records && s'.records[id].executor.Ended? && s'.records[id].job.wiped
            && (Joinable(s.records[id].job.timeout) && !Unstarted(s.records[id]) ==>
                  Terminal(s'.records[id].job.state))
    decreases Distance(s, id)
  {
    assert RecordOk(s.records[id], WorkOn(s, id));
    if s.records[id].executor.Ended? {
      steps := [];
    } else {
      MoveApproachesEnd(s, id);
      var step := NextMove(s, id);
      StepKeepsInv(s, step);
      var rest := ExecutorCanEnd(Next(s, step), id);
      steps := [step] + rest;
      assert steps[1..] == rest;
    }
    hide Inv, RecordOk, Next, Enabled;
  }

  // --- and does, within twelve moves of its own ----------------------------------------

  /** The executor of a job is the one that moves. */
  predicate OwnStep(s: Service, step: Step, id: JobId) {
    || (step.Launch? && step.id == id) || step == Overflow(id) || step == Decide(id) || step == Close(id)
    || ((step.Perform? || step.Release?) && WorkOn(s, id).Some? && WorkOn(s, id).value.owner.ByExecutor?)
  }

  function LeftOf(work: Option<Work>): Option<nat> {
    if work.Some? && work.value.owner.ByExecutor? then
      Some(if work.value.done < |Writes(work.value.section)| then |Writes(work.value.section)| - work.value.done + 1
        else 1)
    else None
  }

  /** How many moves an executor has left at most. */
  function MovesLeft(r: Record, work: Option<Work>): nat {
    match r.executor
    case Unborn => 0
    case Starting => 12
    case Joining => if LeftOf(work).Some? then LeftOf(work).value + 3 else 11
    case Closing => if LeftOf(work).Some? then LeftOf(work).value else 3
    case Ended => 0
    case Dead => 0
  }

  lemma MovesCountDownHere(r: Record, work: Option<Work>, step: Step, own: bool)
    requires RecordOk(r, work) && !step.Create?
    requires step.Launch? ==> r.executor.Starting? && work.None?
    requires step.Decide? ==> r.executor.Joining? && work.None?
    requires step.Overflow? ==> r.executor.Joining? && !Joinable(r.job.timeout)
    requires step.Close? ==> r.executor.Closing? && work.None?
    requires step.Announce? || step.Cancel? ==> work.None?
    requires step.Perform? ==> work.Some? && work.value.done < |Writes(work.value.section)|
    requires step.Release? ==> work.Some? && work.value.done >= |Writes(work.value.section)|
    requires own <==>
               || step.Launch? || step.Overflow? || step.Decide? || step.Close?
               || ((step.Perform? || step.Release?) && work.value.owner.ByExecutor?)
    ensures var (r', work') := RecordAfter(r, work, step);
            MovesLeft(r', work') <= MovesLeft(r, work) - if own then 1 else 0
  {
    hide JobOk, PhaseOk, ReaderOk, ExecutorOk, ReadNext, Apply, Verdict;
    VerdictIsShort(r);
    WipeIsOneWrite();
    if step.Perform? || step.Release? || step.Decide? {
      hide Writes;
    }
  }

  lemma VerdictIsShort(r: Record)
    ensures |Writes(Verdict(r))| <= 6
  {
  }

  lemma SubjectCountsDown(s: Service, step: Step, id: JobId)
    requires Enabled(s, step) && !step.Create? && Subject(s, step) == id
    requires id in s.records && RecordOk(s.records[id], WorkOn(s, id))
    ensures id in Next(s, step).records
    ensures MovesLeft(Next(s, step).records[id], WorkOn(Next(s, step), id))
         <= MovesLeft(s.records[id], WorkOn(s, id)) - if OwnStep(s, step, id) then 1 else 0
  {
    hide RecordOk, RecordAfter, MovesLeft, Announces, MayReturn, Writes;
    MovesCountDownHere(s.records[id], WorkOn(s, id), step, OwnStep(s, step, id));
    var (r, work) := RecordAfter(s.records[id], WorkOn(s, id), step);
    assert Next(s, step).records[id] == r;
    assert WorkOn(Next(s, step), id) == work;
  }

  lemma OthersAreLeftAlone(s: Service, step: Step, id: JobId)
    requires Enabled(s, step) && Subject(s, step) != id && id in s.records
    ensures id in Next(s, step).records && Next(s, step).records[id] == s.records[id]
    ensures WorkOn(Next(s, step), id) == WorkOn(s, id) && !OwnStep(s, step, id)
  {
    hide Announces, MayReturn, Writes, Verdict, Apply, ReadNext;
  }

  lemma MovesCountDown(s: Service, step: Step, id: JobId)
    requires Inv(s) && Enabled(s, step) && id in s.records
    ensures id in Next(s, step).records
    ensures MovesLeft(Next(s, step).records[id], WorkOn(Next(s, step), id))
         <= MovesLeft(s.records[id], WorkOn(s, id)) - if OwnStep(s, step, id) then 1 else 0
  {
    assert RecordOk(s.records[id], WorkOn(s, id));
    assert step.Create? ==> Subject(s, step) != id;
    hide Inv, RecordOk, MovesLeft, WorkOn, OwnStep, Next, Enabled;
    if Subject(s, step) == id {
      SubjectCountsDown(s, step, id);
    } else {
      OthersAreLeftAlone(s, step, id);
    }
  }

  /** How many of the steps from the `i`-th to the `j`-th are moves of the executor. */
  ghost function OwnMoves(states: seq<Service>, steps: seq<Step>, i: nat, j: nat, id: JobId): nat
    requires i <= j <= |steps| && j < |states|
    decreases j
  {
    if i == j then 0
    else OwnMoves(states, steps, i, j - 1, id) + if OwnStep(states[j - 1], steps[j - 1], id) then 1 else 0
  }

  lemma {:induction false} MovesAreSpent(states: seq<Service>, steps: seq<Step>, i: nat, j: nat, id: JobId)
    requires Execution(states, steps) && i <= j < |states| && id in states[i].records
    ensures id in states[j].records
    ensures OwnMoves(states, steps, i, j, id) + MovesLeft(states[j].records[id], WorkOn(states[j], id))
         <= MovesLeft(states[i].records[id], WorkOn(states[i], id))
  {
    hide Inv, Enabled, Next, MovesLeft, OwnStep, WorkOn;
    if i < j {
      MovesAreSpent(states, steps, i, j - 1, id);
      ExecutionKeepsInv(states, steps, j - 1);
      MovesCountDown(states[j - 1], steps[j - 1], id);
    }
  }

  /**
   An executor that made `spent` moves has at most the rest of twelve left, none exactly at its end, and
   is not kept from them but by the lock.
   */
  ghost predicate EndsSoon(s: Service, id: JobId, spent: nat) {
    && id in s.records
    && var left := MovesLeft(s.records[id], WorkOn(s, id));
       && spent + left <= 12
       && (left == 0 <==> !Moves(s.records[id].executor))
       && (left > 0 && (s.lock.Free? || (WorkOn(s, id).Some? && WorkOn(s, id).value.owner.ByExecutor?)) ==>
             Enabled(s, NextMove(s, id)) && OwnStep(s, NextMove(s, id), id))
  }

  /** In any run, whatever the others do in between, an executor ends within twelve moves of its own. */
  lemma ExecutorEndsInTwelveMoves(states: seq<Service>, steps: seq<Step>, i: nat, j: nat, id: JobId)
    requires Execution(states, steps) && i <= j < |states| && id in states[i].records
    ensures EndsSoon(states[j], id, OwnMoves(states, steps, i, j, id))
  {
    hide Inv, MovesLeft, OwnMoves, EndsSoon, Enabled, Next, WorkOn;
    ExecutionKeepsInv(states, steps, i);
    ExecutionKeepsInv(states, steps, j);
    MovesAreSpent(states, steps, i, j, id);
    RecordIsOk(states[i], id);
    RecordIsOk(states[j], id);
    FewMoves(states[i].records[id], WorkOn(states[i], id));
    SoonAt(states[j], id, OwnMoves(states, steps, i, j, id));
  }

  lemma RecordIsOk(s: Service, id: JobId)
    requires Inv(s) && id in s.records
    ensures RecordOk(s.records[id], WorkOn(s, id))
  {
  }

  lemma SoonAt(s: Service, id: JobId, spent: nat)
    requires id in s.records && RecordOk(s.records[id], WorkOn(s, id))
    requires spent + MovesLeft(s.records[id], WorkOn(s, id)) <= 12
    ensures EndsSoon(s, id, spent)
  {
    hide RecordOk, MovesLeft, Enabled, OwnStep, NextMove;
    FewMoves(s.records[id], WorkOn(s, id));
    var left := MovesLeft(s.records[id], WorkOn(s, id));
    if left > 0 && (s.lock.Free? || (WorkOn(s, id).Some? && WorkOn(s, id).value.owner.ByExecutor?)) {
      OwnStepIsOpen(s, id);
    }
  }

  lemma FewMoves(r: Record, work: Option<Work>)
    requires RecordOk(r, work)
    ensures MovesLeft(r, work) <= 12
    ensures MovesLeft(r, work) == 0 <==> !Moves(r.executor)
  {
    VerdictIsShort(r);
    WipeIsOneWrite();
    hide JobOk, PhaseOk, ReaderOk, ExecutorOk;
  }

  lemma OwnStepIsOpen(s: Service, id: JobId)
    requires id in s.records && Moves(s.records[id].executor)
    requires s.lock.Free? || (WorkOn(s, id).Some? && WorkOn(s, id).value.owner.ByExecutor?)
    ensures Enabled(s, NextMove(s, id)) && OwnStep(s, NextMove(s, id), id)
  {
    hide Writes;
  }

  // --- The unlocked answer of create_job ------------------------------------------------

  /** An answer and a locked snapshot agree on everything but the flag and the text read before or beside the state. */
  ghost predicate SameAnswer(v: View, v': View) {
    && v.state == v'.state && v.warnings == v'.warnings && v.summary == v'.summary && v.data == v'.data
    && v.artifacts == v'.artifacts && v.errorCode == v'.errorCode && v.message == v'.message
  }

  /**
   When the unlocked answer shows a terminal state, its outcome is the job's outcome now and
   in every later state, because the state is written after the outcome and read before it.
   */
  lemma UnlockedAnswerIsFinal(states: seq<Service>, steps: seq<Step>, i: nat, j: nat, id: JobId)
    requires Execution(states, steps) && i <= j < |states| && id in states[i].records
    requires states[i].records[id].reader.at == READS && Terminal(states[i].records[id].reader.seen.state)
    ensures id in states[j].records && SameAnswer(states[i].records[id].reader.seen,
            Snapshot(states[j].records[id].job))
  {
    ExecutionKeepsInv(states, steps, i);
    assert RecordOk(states[i].records[id], WorkOn(states[i], id));
    FirstTerminalWins(states, steps, i, j);
  }

  /** An answer that claims `ok` names the finished state; the flag never runs ahead of it. */
  lemma OkImpliesFinished(states: seq<Service>, steps: seq<Step>, i: nat, id: JobId)
    requires Execution(states, steps) && i < |states| && id in states[i].records && states[i].records[id].reader.at >= 2
    ensures states[i].records[id].reader.seen.ok ==> states[i].records[id].reader.seen.state == Finished
  {
    ExecutionKeepsInv(states, steps, i);
    assert RecordOk(states[i].records[id], WorkOn(states[i], id));
  }

  lemma {:induction false} Joined(s: Service, a: seq<Step>, b: seq<Step>)
    requires Runs(s, a) && Runs(After(s, a), b)
    ensures Runs(s, a + b) && After(s, a + b) == After(After(s, a), b)
    decreases |a|
  {
    if a == [] {
      assert a + b == b;
    } else {
      assert (a + b)[1..] == a[1..] + b;
      Joined(Next(s, a[0]), a[1..], b);
    }
  }

  /** A run that leads from the initial state to `s`. */
  ghost predicate Leads(steps: seq<Step>, s: Service) {
    Runs(INITIAL, steps) && After(INITIAL, steps) == s
  }

  lemma Extend(steps: seq<Step>, s: Service, step: Step, s': Service) returns (longer: seq<Step>)
    requires Leads(steps, s) && Enabled(s, step)
    requires Next(s, step).records == s'.records && Next(s, step).lock == s'.lock
    ensures Leads(longer, s') && longer == steps + [step]
  {
    longer := steps + [step];
    assert [step][1..] == [];
    Joined(INITIAL, steps, [step]);
    hide Next, Enabled;
  }

  /** A service with the one job 0. */
  function Alone(j: Job, e: Executor, t: Thread, r: Reader, lock: Lock): Service {
    Service(map[0 := Record(j, e, t, r)], lock)
  }

  const DONE := RunnerResult("done", map[], [], [])
  const JOB0 := NewJob(ExistingContainerJob, 1)
  const STARTED0 := JOB0.(state := StartingVpn, phaseMessage := "")
  const READER_NEW := Reader(0, false, UNREAD)
  const READER0 := Reader(1, false, UNREAD)

  /** A job whose timeout is too long for a join, or not. */
  function Lost(tooLong: bool): Job {
    JOB0.(timeout := if tooLong then 10_000_000_000 else 1)
  }

  /** The end of a run in which the executor goes straight to its closing. */
  lemma ClosesUndecided(steps: seq<Step>, j: Job, t: Thread) returns (longer: seq<Step>)
    requires Leads(steps, Alone(j, Closing, t, READER_NEW, Free))
    ensures Leads(longer, Alone(j.(wiped := true), Ended, t, READER_NEW, Free))
    ensures NoCancel(steps) ==> NoCancel(longer)
  {
    hide Leads;
    WipeIsOneWrite();
    var s1 := Alone(j, Closing, t, READER_NEW, Wiping(0));
    var s2 := Alone(j.(wiped := true), Closing, t, READER_NEW, Wiping(1));
    longer := Extend(steps, Alone(j, Closing, t, READER_NEW, Free), Close(0), s1);
    longer := Extend(longer, s1, Perform, s2);
    longer := Extend(longer, s2, Release, Alone(j.(wiped := true), Ended, t, READER_NEW, Free));
  }

  ghost predicate NoCancel(steps: seq<Step>) {
    forall k :: 0 <= k < |steps| ==> !steps[k].Cancel?
  }

  /** A run in which the join raises (`tooLong`), or already the start of the runner thread. */
  lemma ReachClosing(tooLong: bool) returns (steps: seq<Step>, t: Thread)
    ensures Leads(steps, Alone(Lost(tooLong), Closing, t, READER_NEW, Free)) && NoCancel(steps)
    ensures tooLong <==> t != NotStarted
  {
    steps := [];
    assert Leads(steps, INITIAL);
    hide Leads;
    var j := Lost(tooLong);
    var s1 := Alone(j, Starting, NotStarted, READER_NEW, Free);
    steps := Extend(steps, INITIAL, Create(0, ExistingContainerJob, j.timeout, true), s1);
    if tooLong {
      t := Running(Created);
      var s2 := Alone(j, Joining, t, READER_NEW, Free);
      steps := Extend(steps, s1, Launch(0, true), s2);
      steps := Extend(steps, s2, Overflow(0), Alone(j, Closing, t, READER_NEW, Free));
    } else {
      t := NotStarted;
      steps := Extend(steps, s1, Launch(0, false), Alone(j, Closing, t, READER_NEW, Free));
    }
  }

  /**
   Both happen: from the start there is a run, nobody cancelling, that leaves a job of a recognised mode
   undecided, by a timeout too long for a join or, with a short one, by a thread that could not be started.
   */
  lemma JobIsLeft(tooLong: bool) returns (steps: seq<Step>)
    ensures Runs(INITIAL, steps) && NoCancel(steps)
    ensures var s := After(INITIAL, steps);
            && 0 in s.records && ProgramOf(s.records[0].job.mode).Some? && s.records[0].executor.Ended?
            && s.records[0].job.wiped && s.records[0].job.state == Created
            && (tooLong <==> !Joinable(s.records[0].job.timeout)) && (tooLong <==> !s.records[0].thread.NotStarted?)
  {
    var t: Thread;
    steps, t := ReachClosing(tooLong);
    steps := ClosesUndecided(steps, Lost(tooLong), t);
  }

  function Wiping(done: nat): Lock {
    Held(0, Work(ByExecutor, Wipe, done))
  }

  function Reporting(done: nat): Lock {
    Held(0, Work(ByRunner, Report(StartingVpn, ""), done))
  }

  function Finishing(j: Job, done: nat): Service {
    Alone(j, Joining, Returned(DONE), READER0, Held(0, Work(ByExecutor, Succeed(DONE), done)))
  }

  lemma ReachReport() returns (steps: seq<Step>)
    ensures steps != [] && steps[0] == Create(0, ExistingContainerJob, 1, true)
    ensures Leads(steps, Alone(JOB0, Joining, Running(StartingVpn), READER0, Reporting(0)))
  {
    steps := [];
    assert Leads(steps, INITIAL);
    hide Leads;
    hide Announces;
    var s1 := Alone(JOB0, Starting, NotStarted, READER_NEW, Free);
    var s2 := Alone(JOB0, Starting, NotStarted, READER0, Free);
    var s3 := Alone(JOB0, Joining, Running(Created), READER0, Free);
    steps := Extend(steps, INITIAL, Create(0, ExistingContainerJob, 1, true), s1);
    steps := Extend(steps, s1, Read(0), s2);
    steps := Extend(steps, s2, Launch(0, true), s3);
    steps := Extend(steps, s3, Announce(0, StartingVpn, ""),
      Alone(JOB0, Joining, Running(StartingVpn), READER0, Reporting(0)));
  }

  lemma ReachVerdict() returns (steps: seq<Step>)
    ensures steps != [] && steps[0] == Create(0, ExistingContainerJob, 1, true)
    ensures Leads(steps, Finishing(STARTED0, 0))
  {
    hide Leads;
    steps := ReachReport();
    var t := Running(StartingVpn);
    var s1 := Alone(JOB0.(state := StartingVpn), Joining, t, READER0, Reporting(1));
    var s2 := Alone(STARTED0, Joining, t, READER0, Reporting(2));
    var s3 := Alone(STARTED0, Joining, t, READER0, Free);
    var s4 := Alone(STARTED0, Joining, Returned(DONE), READER0, Free);
    steps := Extend(steps, Alone(JOB0, Joining, t, READER0, Reporting(0)), Perform, s1);
    steps := Extend(steps, s1, Perform, s2);
    steps := Extend(steps, s2, Release, s3);
    steps := Extend(steps, s3, End(0, Returned(DONE)), s4);
    steps := Extend(steps, s4, Decide(0), Finishing(STARTED0, 0));
  }

  /** A run in which the only job finishes; the flag of the unlocked answer was read while it was new. */
  lemma ReachFinished() returns (steps: seq<Step>)
    ensures steps != [] && steps[0] == Create(0, ExistingContainerJob, 1, true)
    ensures Leads(steps, Finishing(STARTED0.(summary := Some("done"), state := Finished), 5))
  {
    steps := ReachVerdict();
    var job := STARTED0.(summary := Some("done"));
    var finished := job.(state := Finished);
    hide Leads;
    steps := Extend(steps, Finishing(STARTED0, 0), Perform, Finishing(job, 1));
    steps := Extend(steps, Finishing(job, 1), Perform, Finishing(job, 2));
    steps := Extend(steps, Finishing(job, 2), Perform, Finishing(job, 3));
    steps := Extend(steps, Finishing(job, 3), Perform, Finishing(job, 4));
    steps := Extend(steps, Finishing(job, 4), Perform, Finishing(finished, 5));
  }

  /** The flag can lag behind: here it is read while the job is new, and the state after the job has finished. */
  lemma OkMayLag() returns (steps: seq<Step>)
    ensures Runs(INITIAL, steps)
    ensures var s := After(INITIAL, steps);
            0 in s.records && s.records[0].reader.seen.state == Finished && !s.records[0].reader.seen.ok
  {
    steps := ReachFinished();
    var finished := STARTED0.(summary := Some("done"), state := Finished);
    hide Leads;
    var last := Alone(finished, Joining, Returned(DONE), Reader(2, false, UNREAD.(state := Finished)),
      Finishing(finished, 5).lock);
    steps := Extend(steps, Finishing(finished, 5), Read(0), last);
    Lagging(steps, last);
  }

  lemma Lagging(steps: seq<Step>, s: Service)
    requires Leads(steps, s) && 0 in s.records && s.records[0].reader.seen.state == Finished
             && !s.records[0].reader.seen.ok
    ensures Runs(INITIAL, steps)
    ensures var s' := After(INITIAL, steps);
            0 in s'.records && s'.records[0].reader.seen.state == Finished && !s'.records[0].reader.seen.ok
  {
  }

  /** Reads go on; what was read is not read again. */
  lemma ReadOnce(s: Service, step: Step, id: JobId)
    requires Enabled(s, step) && id in s.records && s.records[id].reader.at >= 2
    ensures id in Next(s, step).records
    ensures var r, r' := s.records[id].reader, Next(s, step).records[id].reader;
            r'.at >= 2 && r'.seen.ok == r.seen.ok && r'.seen.state == r.seen.state
  {
    hide Announces, MayReturn, Verdict, Writes, Apply;
  }

  lemma {:induction false} StillRead(states: seq<Service>, steps: seq<Step>, i: nat, j: nat, id: JobId)
    requires Execution(states, steps) && i <= j < |states| && id in states[i].records
             && states[i].records[id].reader.at >= 2
    ensures id in states[j].records && states[j].records[id].reader.at >= 2
    ensures states[j].records[id].reader.seen.ok == states[i].records[id].reader.seen.ok
    ensures states[j].records[id].reader.seen.state == states[i].records[id].reader.seen.state
  {
    if i < j {
      StillRead(states, steps, i, j - 1, id);
      ReadOnce(states[j - 1], steps[j - 1], id);
      hide Enabled, Next;
    }
  }

  /** Between its first two reads, an answer remembers what its first read saw. */
  lemma {:induction false} FirstReadKept(states: seq<Service>, steps: seq<Step>, i: nat, j: nat, id: JobId)
    requires Execution(states, steps) && i <= j < |states| && id in states[i].records
             && states[i].records[id].reader.at == 1
    requires id in states[j].records && states[j].records[id].reader.at == 1
    ensures states[j].records[id].reader.seen.ok == states[i].records[id].reader.seen.ok
  {
    if i < j {
      OneReadLater(states[j - 1], steps[j - 1], id);
      FirstReadEarlier(states, steps, i, j - 1, id);
      FirstReadKept(states, steps, i, j - 1, id);
      hide Enabled, Next;
    }
  }

  lemma OneReadLater(s: Service, step: Step, id: JobId)
    requires Enabled(s, step) && id in s.records
    ensures id in Next(s, step).records
    ensures var r, r' := s.records[id].reader, Next(s, step).records[id].reader;
            r.at <= r'.at <= r.at + 1 && (r'.at == r.at ==> r' == r)
  {
    hide Announces, MayReturn, Verdict, Writes, Apply;
  }

  /** The number of reads only grows. */
  lemma {:induction false} FirstReadEarlier(states: seq<Service>, steps: seq<Step>, i: nat, j: nat, id: JobId)
    requires Execution(states, steps) && i <= j < |states| && id in states[i].records
    ensures id in states[j].records && states[i].records[id].reader.at <= states[j].records[id].reader.at
  {
    if i < j {
      FirstReadEarlier(states, steps, i, j - 1, id);
      OneReadLater(states[j - 1], steps[j - 1], id);
      hide Enabled, Next;
    }
  }

  /**
   Exactly when the flag lags: the answer names the finished state without claiming `ok` if and
   only if the job was not finished at the first read, of the flag, and was at the second, of the state.
   */
  lemma OkLagsExactly(states: seq<Service>, steps: seq<Step>, a: nat, b: nat, k: nat, id: JobId)
    requires Execution(states, steps) && a < b < |steps| && b < k < |states|
    requires steps[a] == Read(id) && states[a].records[id].reader.at == 0
    requires steps[b] == Read(id) && states[b].records[id].reader.at == 1
    ensures id in states[k].records
    ensures states[k].records[id].reader.seen.state == Finished && !states[k].records[id].reader.seen.ok <==>
              states[a].records[id].job.state != Finished && states[b].records[id].job.state == Finished
  {
    FirstReadKept(states, steps, a + 1, b, id);
    StillRead(states, steps, b + 1, k, id);
  }
}
