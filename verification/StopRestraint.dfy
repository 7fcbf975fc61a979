/** What stopping leaves alone: each process belongs to one job, and only a cancelled job's processes are signalled. */
module StopRestraint {
  import opened Common
  import opened StopProtocol

  /** The job started this process. */
  predicate Started(j: Job, pid: Pid) {
    j.converter == Some(pid) || j.player == Some(pid)
  }

  /** Processes exist, and are unsignalled unless the job is cancelled. */
  ghost predicate Spared(b: Bot) {
    forall id, pid :: id in b.table && Started(b.table[id], pid) ==>
      pid in b.processes && (b.processes[pid].signalled ==> b.table[id].cancelled)
  }

  /** No process belongs to two jobs. */
  ghost predicate OneOwner(b: Bot) {
    forall a, c, pid :: a in b.table && c in b.table && Started(b.table[a], pid) && Started(b.table[c], pid) ==> a == c
  }

  ghost predicate OwnSlots(b: Bot) {
    forall id :: id in b.table && b.table[id].slot.Some? ==> Started(b.table[id], b.table[id].slot.value)
  }

  /** A `_stop` in progress and the signal handler aim at a cancelled job and its own process. */
  ghost predicate Aimed(b: Bot) {
    && (b.poller.Probing? ==>
          && b.poller.job in b.table && b.table[b.poller.job].cancelled
          && (b.poller.slot.Some? ==> Started(b.table[b.poller.job], b.poller.slot.value)))
    && (b.poller.Killing? ==>
          && b.poller.job in b.table && b.table[b.poller.job].cancelled
          && Started(b.table[b.poller.job], b.poller.pid))
    && (b.handler.Flagged? || b.handler.Seen? || b.handler.Alive? ==>
          b.handler.job in b.table && b.table[b.handler.job].cancelled)
  }

  ghost predicate Restrained(b: Bot) {
    Spared(b) && OneOwner(b) && OwnSlots(b) && Aimed(b)
  }

  /** The other jobs are as they were. */
  ghost predicate OnlyJob(b: Bot, b': Bot, id: JobId) {
    && id in b'.table
    && forall other :: other != id ==>
         (other in b.table <==> other in b'.table) && (other in b.table ==> b'.table[other] == b.table[other])
  }

  /** A job keeps its processes and at most starts a new one; once cancelled, it stays so. */
  ghost predicate Grows(b: Bot, b': Bot, id: JobId)
    requires id in b'.table
  {
    && (id in b.table ==>
          && (b.table[id].cancelled ==> b'.table[id].cancelled)
          && forall pid :: Started(b.table[id], pid) ==> Started(b'.table[id], pid))
    && (forall pid :: Started(b'.table[id], pid) && !(id in b.table && Started(b.table[id], pid)) ==>
          pid !in b.processes && pid in b'.processes && !b'.processes[pid].signalled)
    && (b'.table[id].slot.Some? ==> Started(b'.table[id], b'.table[id].slot.value))
  }

  /** No process is signalled but one of this job, which is cancelled then. */
  ghost predicate SignalsOnly(b: Bot, b': Bot, id: JobId)
    requires id in b'.table
  {
    forall pid :: pid in b.processes ==>
      && pid in b'.processes
      && (b'.processes[pid].signalled && !b.processes[pid].signalled ==>
            id in b.table && Started(b.table[id], pid) && b'.table[id].cancelled)
  }

  lemma OneJobGrows(b: Bot, b': Bot, id: JobId)
    requires Spared(b) && OneOwner(b) && OwnSlots(b)
    requires OnlyJob(b, b', id) && Grows(b, b', id) && SignalsOnly(b, b', id)
    ensures Spared(b') && OneOwner(b') && OwnSlots(b')
  {
    forall other, pid | other in b'.table && Started(b'.table[other], pid)
      ensures pid in b'.processes && (b'.processes[pid].signalled ==> b'.table[other].cancelled)
    {
      if other != id {
        assert Started(b.table[other], pid);
      }
    }
    forall a, c, pid | a in b'.table && c in b'.table && Started(b'.table[a], pid) && Started(b'.table[c], pid)
      ensures a == c
    {
      OneOwnerStays(b, b', id, a, c, pid);
    }
  }

  lemma OneOwnerStays(b: Bot, b': Bot, id: JobId, a: JobId, c: JobId, pid: Pid)
    requires Spared(b) && OneOwner(b) && OnlyJob(b, b', id) && Grows(b, b', id)
    requires a in b'.table && c in b'.table && Started(b'.table[a], pid) && Started(b'.table[c], pid)
    ensures a == c
  {
  }

  /** No job changes, and no process is signalled. */
  lemma NothingGrows(b: Bot, b': Bot)
    requires Spared(b) && OneOwner(b) && OwnSlots(b) && b'.table == b.table
    requires forall pid :: pid in b.processes ==>
             pid in b'.processes && b'.processes[pid].signalled == b.processes[pid].signalled
    ensures Spared(b') && OneOwner(b') && OwnSlots(b')
  {
  }

  // --- Steps ------------------------------------------------------------------------------------

  /** A thread's next step, for its own job. */
  lemma JobMoves(processes: map<Pid, Process>, j: Job, pid: Pid)
    requires ConverterFits(processes, j) && PlayerFits(processes, j)
    requires j.stage.Converting? || j.stage.Cleared? ==> pid !in processes
    requires j.slot.Some? ==> Started(j, j.slot.value)
    ensures var j', p := JobAfter(j, pid), ProcessesAfter(processes, j, pid);
            && j'.cancelled == j.cancelled
            && (forall q :: Started(j, q) ==> Started(j', q))
            && (forall q :: Started(j', q) && !Started(j, q) ==> q !in processes && q in p && !p[q].signalled)
            && (j'.slot.Some? ==> Started(j', j'.slot.value))
            && (forall q :: q in processes ==>
                  q in p && (p[q].signalled && !processes[q].signalled ==> Started(j, q) && j.cancelled))
  {
  }

  lemma MoveGrows(b: Bot, id: JobId, pid: Pid)
    requires Restrained(b) && Inv(b) && Enabled(b, Move(id, pid))
    ensures var b' := Next(b, Move(id, pid)); OnlyJob(b, b', id) && Grows(b, b', id) && SignalsOnly(b, b', id)
  {
    assert JobOk(b, id, b.table[id]);
    hide Inv, StoppedOk, Spared, OneOwner, Aimed;
    JobMoves(b.processes, b.table[id], pid);
    hide Started, JobAfter, ProcessesAfter, ConverterFits, PlayerFits;
  }

  lemma FailGrows(b: Bot, id: JobId)
    requires Restrained(b) && Inv(b) && Enabled(b, Fail(id))
    ensures var b' := Next(b, Fail(id)); OnlyJob(b, b', id) && Grows(b, b', id) && SignalsOnly(b, b', id)
  {
    assert JobOk(b, id, b.table[id]);
    hide Inv, StoppedOk, Spared, OneOwner, Aimed;
  }

  lemma FlagGrows(b: Bot, b': Bot, id: JobId)
    requires OwnSlots(b) && id in b.table && id in b'.table && b'.processes == b.processes
    requires b'.table == b.table[id := b'.table[id]]
    requires b'.table[id].cancelled && b'.table[id].slot == b.table[id].slot
             && b'.table[id].converter == b.table[id].converter && b'.table[id].player == b.table[id].player
    ensures OnlyJob(b, b', id) && Grows(b, b', id) && SignalsOnly(b, b', id)
  {
  }

  lemma BeginGrows(b: Bot, id: JobId)
    requires Enabled(b, Begin(id))
    ensures var b' := Next(b, Begin(id)); OnlyJob(b, b', id) && Grows(b, b', id) && SignalsOnly(b, b', id)
  {
  }

  lemma SignalGrows(b: Bot, b': Bot, id: JobId, pid: Pid)
    requires OwnSlots(b) && id in b.table && b.table[id].cancelled && Started(b.table[id], pid)
    requires b'.table == b.table && b'.processes == Signal(b.processes, pid)
    ensures OnlyJob(b, b', id) && Grows(b, b', id) && SignalsOnly(b, b', id)
  {
  }

  lemma OtherGrows(b: Bot, step: Step) returns (id: JobId)
    requires Restrained(b) && Inv(b) && Enabled(b, step)
    requires step.Begin? || step.HandlerFlags? || step.Kill?
             || (step.HandlerSignals? && b.table[b.handler.job].slot.Some?)
             || (step.Stop? && step.user in b.jobs && b.jobs[step.user] in b.table)
    ensures var b' := Next(b, step); OnlyJob(b, b', id) && Grows(b, b', id) && SignalsOnly(b, b', id)
  {
    hide Inv, Spared, OneOwner, Signal, OnlyJob, Grows, SignalsOnly;
    var b' := Next(b, step);
    match step
    case Begin(job) =>
      id := job;
      BeginGrows(b, id);
    case HandlerFlags(job) =>
      id := job;
      FlagGrows(b, b', id);
    case Kill =>
      id := b.poller.job;
      SignalGrows(b, b', id, b.poller.pid);
    case HandlerSignals =>
      id := b.handler.job;
      SignalGrows(b, b', id, b.table[id].slot.value);
    case Stop(user) =>
      id := b.jobs[user];
      FlagGrows(b, b', id);
  }

  lemma AimStays(b: Bot, step: Step)
    requires Restrained(b) && Inv(b) && Enabled(b, step)
    ensures Aimed(Next(b, step))
  {
    if step.Move? || step.Fail? {
      AimOfMove(b, step);
    }
    hide Inv, Spared, OneOwner, ProcessesAfter, JobAfter, Ready, CanRaise;
  }

  lemma AimOfMove(b: Bot, step: Step)
    requires Restrained(b) && Inv(b) && Enabled(b, step) && (step.Move? || step.Fail?)
    ensures Aimed(Next(b, step))
  {
    if step.Move? {
      MoveGrows(b, step.job, step.pid);
    } else {
      FailGrows(b, step.job);
    }
    hide Inv, Spared, OneOwner, ProcessesAfter, JobAfter, Ready, CanRaise, OwnSlots, SignalsOnly;
  }

  lemma StepKeepsRestraint(b: Bot, step: Step)
    requires Restrained(b) && Inv(b) && Enabled(b, step)
    ensures Restrained(Next(b, step))
  {
    var b' := Next(b, step);
    AimStays(b, step);
    if step.Move? {
      MoveGrows(b, step.job, step.pid);
      OneJobGrows(b, b', step.job);
    } else if step.Fail? {
      FailGrows(b, step.job);
      OneJobGrows(b, b', step.job);
    } else if step.Begin? || step.HandlerFlags? || step.Kill?
              || (step.HandlerSignals? && b.table[b.handler.job].slot.Some?)
              || (step.Stop? && step.user in b.jobs && b.jobs[step.user] in b.table) {
      var id := OtherGrows(b, step);
      OneJobGrows(b, b', id);
    } else {
      NothingGrows(b, b');
    }
    hide Inv, Spared, OneOwner, OwnSlots, Aimed, OnlyJob, Grows, SignalsOnly, ProcessesAfter, JobAfter;
  }

  lemma {:induction false} ExecutionKeepsRestraint(states: seq<Bot>, steps: seq<Step>, i: nat)
    requires Execution(states, steps) && i < |states|
    ensures Restrained(states[i])
  {
    if i > 0 {
      hide Inv, Enabled, Next, Restrained;
      ExecutionKeepsRestraint(states, steps, i - 1);
      ExecutionKeepsInv(states, steps, i - 1);
      StepKeepsRestraint(states[i - 1], steps[i - 1]);
    }
  }

  // --- Whole runs ---------------------------------------------------------------------------------

  /**
   Who is left alone: in any run, no converter and no player of a job that is not cancelled was ever
   signalled, whatever others stop meanwhile.
   */
  lemma UncancelledIsSpared(states: seq<Bot>, steps: seq<Step>, i: nat, id: JobId, pid: Pid)
    requires Execution(states, steps) && i < |states| && id in states[i].table && !states[i].table[id].cancelled
    requires states[i].table[id].converter == Some(pid) || states[i].table[id].player == Some(pid)
    ensures pid in states[i].processes && !states[i].processes[pid].signalled
  {
    ExecutionKeepsRestraint(states, steps, i);
    assert Started(states[i].table[id], pid);
    hide Enabled, Next;
  }

  /** In any run, a process belongs to one job. */
  lemma OneOwnerEach(states: seq<Bot>, steps: seq<Step>, i: nat, a: JobId, c: JobId, pid: Pid)
    requires Execution(states, steps) && i < |states| && a in states[i].table && c in states[i].table
    requires Started(states[i].table[a], pid) && Started(states[i].table[c], pid)
    ensures a == c
  {
    ExecutionKeepsRestraint(states, steps, i);
    hide Enabled, Next;
  }

  /** A job is cancelled by a `_stop` of its own user or by the signal handler. */
  ghost predicate CancelledBy(b: Bot, step: Step, id: JobId) {
    || step == HandlerFlags(id)
    || (step.Stop? && step.user in b.jobs && b.jobs[step.user] == id && id in b.table && b.table[id].user == step.user)
  }

  lemma {:induction false} CancelledMeansAsked(states: seq<Bot>, steps: seq<Step>, i: nat, id: JobId)
    requires Execution(states, steps) && i < |states| && id in states[i].table && states[i].table[id].cancelled
    ensures exists k :: 0 <= k < i && CancelledBy(states[k], steps[k], id)
  {
    hide Inv, Enabled, Next, CancelledBy;
    NoJobsAtFirst(states[0], id);
    ExecutionKeepsInv(states, steps, i - 1);
    StepCancels(states[i - 1], steps[i - 1], id);
    if !CancelledBy(states[i - 1], steps[i - 1], id) {
      CancelledMeansAsked(states, steps, i - 1, id);
    }
  }

  lemma NoJobsAtFirst(b: Bot, id: JobId)
    ensures b == INITIAL ==> id !in b.table
  {
  }

  lemma StepCancels(b: Bot, step: Step, id: JobId)
    requires Inv(b) && Enabled(b, step)
    ensures var b' := Next(b, step);
            id in b'.table && b'.table[id].cancelled ==>
              (id in b.table && b.table[id].cancelled) || CancelledBy(b, step, id)
  {
    hide TableOk, ProcessesAfter, Signal, Ready;
  }

  /**
   Nobody else is hit: whichever step signals a process, the process is one of a job that a `_stop` of its
   own user or the signal handler cancelled before.
   */
  lemma SignalsAreAsked(states: seq<Bot>, steps: seq<Step>, i: nat, id: JobId, pid: Pid)
    requires Execution(states, steps) && i < |states| && id in states[i].table && Started(states[i].table[id], pid)
    requires pid in states[i].processes && states[i].processes[pid].signalled
    ensures exists k :: 0 <= k < i && CancelledBy(states[k], steps[k], id)
  {
    ExecutionKeepsRestraint(states, steps, i);
    hide Enabled, Next, CancelledBy, OneOwner, OwnSlots, Aimed;
    CancelledMeansAsked(states, steps, i, id);
  }

  /** A job's thread touches no other job's process: it neither ends nor signals it. */
  lemma ThreadsKeepToThemselves(states: seq<Bot>, steps: seq<Step>, i: nat, id: JobId, pid: Pid)
    requires Execution(states, steps) && i < |steps| && (steps[i].Move? || steps[i].Fail?) && steps[i].job == id
    requires pid in states[i].processes && !Started(states[i].table[id], pid)
    ensures pid in states[i + 1].processes && states[i + 1].processes[pid] == states[i].processes[pid]
  {
    ExecutionKeepsInv(states, steps, i);
    assert JobOk(states[i], id, states[i].table[id]);
    hide Inv;
  }
}
