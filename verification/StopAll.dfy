/**
 What the signal handler's `stop_all` reaches: exactly when none of a job's processes can escape it.
 */
module StopAll {
  import opened Common
  import opened StopProtocol

  /** The handler is at work on the process in the job's slot. */
  predicate Owes(b: Bot, id: JobId) {
    (b.handler.Seen? || b.handler.Alive?) && b.handler.job == id
  }

  /** The process has ended, was signalled, awaits its thread's own re-check, or is being seen to by the handler. */
  predicate SeenTo(b: Bot, id: JobId, j: Job, pid: Pid) {
    pid in b.processes ==>
      || !b.processes[pid].running || b.processes[pid].signalled
      || ((j.stage.Spawned? || j.stage.Assigned?) && j.stage.pid == pid)
      || (Owes(b, id) && j.slot == Some(pid))
  }

  predicate Covered(b: Bot, id: JobId) {
    && id in b.table
    && (b.table[id].converter.Some? ==> SeenTo(b, id, b.table[id], b.table[id].converter.value))
    && (b.table[id].player.Some? ==> SeenTo(b, id, b.table[id], b.table[id].player.value))
  }

  /** It will stay so: the flag is set, and the thread is not about to start the player. */
  predicate Swept(b: Bot, id: JobId) {
    Covered(b, id) && b.table[id].cancelled && !b.table[id].stage.Cleared?
  }

  /** A job the handler is looking at was flagged by it. */
  predicate HandlerOk(b: Bot) {
    b.handler.Flagged? || b.handler.Seen? || b.handler.Alive? ==>
      b.handler.job in b.table && b.table[b.handler.job].cancelled
  }

  lemma HandlerStaysOk(b: Bot, step: Step)
    requires HandlerOk(b) && Enabled(b, step)
    ensures HandlerOk(Next(b, step))
  {
    hide ProcessesAfter, Signal, Ready;
  }

  lemma MoveStaysSwept(b: Bot, id: JobId, pid: Pid)
    requires id in b.table && JobOk(b, id, b.table[id]) && Swept(b, id) && Enabled(b, Move(id, pid))
    ensures Swept(Next(b, Move(id, pid)), id)
  {
    match b.table[id].stage
    case Converting =>
    case Spawned(_) =>
    case Assigned(_) =>
    case _ =>
  }

  lemma OthersStaySwept(b: Bot, b': Bot, id: JobId)
    requires Swept(b, id) && id in b'.table && b'.table[id] == b.table[id] && Ages(b.processes, b'.processes)
    requires b'.handler == b.handler
    requires forall pid :: pid in b'.processes && pid !in b.processes ==>
             b'.table[id].converter != Some(pid) && b'.table[id].player != Some(pid)
    ensures Swept(b', id)
  {
  }

  lemma FailStaysSwept(b: Bot, id: JobId)
    requires id in b.table && JobOk(b, id, b.table[id]) && Swept(b, id) && Enabled(b, Fail(id))
    ensures Swept(Next(b, Fail(id)), id)
  {
  }

  lemma HandlerStaysSwept(b: Bot, step: Step, id: JobId)
    requires id in b.table && JobOk(b, id, b.table[id]) && Swept(b, id) && Enabled(b, step)
    requires step.HandlerStarts? || step.HandlerFlags? || step.HandlerLooks? || step.HandlerAsks?
             || step.HandlerSignals? || step.HandlerExits?
    ensures Swept(Next(b, step), id)
  {
  }

  lemma PollerStaysSwept(b: Bot, step: Step, id: JobId)
    requires Swept(b, id) && Enabled(b, step)
    requires step.Admit? || step.Begin? || step.Stop? || step.Probe? || step.Kill? || step.Exit?
    ensures Swept(Next(b, step), id)
  {
  }

  lemma StaysSwept(b: Bot, step: Step, id: JobId)
    requires Inv(b) && Swept(b, id) && Enabled(b, step)
    ensures Swept(Next(b, step), id)
  {
    assert JobOk(b, id, b.table[id]);
    hide TableOk, OneJobPerUser, StoppedOk;
    if step.Move? || step.Fail? {
      if step.job == id {
        hide JobOk, Swept, Next, Enabled;
        if step.Move? {
          MoveStaysSwept(b, id, step.pid);
        } else {
          FailStaysSwept(b, id);
        }
      } else {
        if step.Move? {
          MoveAges(b, step.job, step.pid);
        }
        hide Swept;
        OthersStaySwept(b, Next(b, step), id);
      }
    } else if step.Admit? || step.Begin? || step.Stop? || step.Probe? || step.Kill? || step.Exit? {
      hide JobOk, Swept, Next, Enabled;
      PollerStaysSwept(b, step, id);
    } else {
      hide JobOk, Swept, Next, Enabled;
      HandlerStaysSwept(b, step, id);
    }
  }

  lemma LookSweeps(b: Bot)
    requires Inv(b) && HandlerOk(b) && Enabled(b, HandlerLooks)
    requires !InTheGap(b, b.handler.job)
    ensures Swept(Next(b, HandlerLooks), b.handler.job)
  {
    assert JobOk(b, b.handler.job, b.table[b.handler.job]);
    hide TableOk, OneJobPerUser, StoppedOk;
  }

  // --- Exactly when a job cannot escape -------------------------------------------------------------

  /** A run that starts at `b`. */
  ghost predicate From(b: Bot, states: seq<Bot>, steps: seq<Step>) {
    && |states| == |steps| + 1 && states[0] == b
    && forall i :: 0 <= i < |steps| ==> Enabled(states[i], steps[i]) && states[i + 1] == Next(states[i], steps[i])
  }

  /**
   However things go on once the handler looks for the job's process, each process of the job is seen to
   at all times.
   */
  ghost predicate CannotEscape(b: Bot, id: JobId) {
    forall states, steps, k ::
      From(b, states, steps) && |steps| > 0 && steps[0] == HandlerLooks && 1 <= k < |states| ==> Covered(states[k], id)
  }

  /** The thread has passed its last check, and its player is not yet in the slot. */
  predicate InTheGap(b: Bot, id: JobId)
    requires id in b.table
  {
    var j := b.table[id];
    || j.stage.Cleared?
    || (j.stage.Started? && j.stage.pid in b.processes && b.processes[j.stage.pid].running
       && !b.processes[j.stage.pid].signalled)
  }

  lemma {:induction false} StaysSweptFrom(b: Bot, states: seq<Bot>, steps: seq<Step>, id: JobId, k: nat)
    requires From(b, states, steps) && 1 <= k < |states| && Inv(states[1]) && Swept(states[1], id)
    ensures Inv(states[k]) && Swept(states[k], id)
  {
    if k > 1 {
      StaysSweptFrom(b, states, steps, id, k - 1);
      StepKeepsInv(states[k - 1], steps[k - 1]);
      StaysSwept(states[k - 1], steps[k - 1], id);
      hide Inv, Swept, Enabled, Next;
    }
  }

  /** A process number that is not in use. */
  lemma {:induction false} FreshPid(used: set<Pid>) returns (pid: Pid)
    ensures forall p :: p in used ==> p < pid
  {
    if used == {} {
      pid := 0;
    } else {
      var p :| p in used;
      var below := FreshPid(used - {p});
      pid := if below <= p then p + 1 else below;
      forall q | q in used
        ensures q < pid
      {
        assert q == p || q in used - {p};
      }
    }
  }

  lemma StartedEscapes(b: Bot)
    requires Inv(b) && Enabled(b, HandlerLooks) && InTheGap(b, b.handler.job) && b.table[b.handler.job].stage.Started?
    ensures !CannotEscape(b, b.handler.job)
  {
    var id := b.handler.job;
    assert JobOk(b, id, b.table[id]);
    hide Inv, ConverterFits;
    var states, steps := [b, Next(b, HandlerLooks)], [HandlerLooks];
    assert From(b, states, steps);
    assert !Covered(states[1], id);
  }

  lemma ClearedEscapes(b: Bot)
    requires Inv(b) && Enabled(b, HandlerLooks) && b.table[b.handler.job].stage.Cleared?
    ensures !CannotEscape(b, b.handler.job)
  {
    var id := b.handler.job;
    assert JobOk(b, id, b.table[id]);
    hide Inv, ConverterFits;
    var b1 := Next(b, HandlerLooks);
    var pid := FreshPid(b.processes.Keys);
    assert pid !in b.processes;
    var b2 := Next(b1, Move(id, pid));
    assert !Covered(b2, id);
    hide Covered, Next;
    var states, steps := [b, b1, b2], [HandlerLooks, Move(id, pid)];
    assert From(b, states, steps);
    assert !Covered(states[2], id);
  }

  lemma GapEscapes(b: Bot)
    requires Inv(b) && Enabled(b, HandlerLooks) && InTheGap(b, b.handler.job)
    ensures !CannotEscape(b, b.handler.job)
  {
    hide Inv, CannotEscape;
    if b.table[b.handler.job].stage.Started? {
      StartedEscapes(b);
    } else {
      ClearedEscapes(b);
    }
  }

  lemma SweptCannotEscape(b: Bot)
    requires Inv(b) && HandlerOk(b) && Enabled(b, HandlerLooks) && !InTheGap(b, b.handler.job)
    ensures CannotEscape(b, b.handler.job)
  {
    var id := b.handler.job;
    forall states, steps, k | From(b, states, steps) && |steps| > 0 && steps[0] == HandlerLooks && 1 <= k < |states|
      ensures Covered(states[k], id)
    {
      StepKeepsInv(b, HandlerLooks);
      LookSweeps(b);
      StaysSweptFrom(b, states, steps, id, k);
    }
  }

  lemma {:induction false} ExecutionKeepsHandlerOk(states: seq<Bot>, steps: seq<Step>, i: nat)
    requires Execution(states, steps) && i < |states|
    ensures HandlerOk(states[i])
  {
    if i > 0 {
      ExecutionKeepsHandlerOk(states, steps, i - 1);
      HandlerStaysOk(states[i - 1], steps[i - 1]);
      hide HandlerOk, Enabled, Next;
    }
  }

  /**
   Exactly what `stop_all` reaches: in any state of any run in which the handler looks for the
   process of a job it has flagged, none of the job's processes can escape, in any continuation,
   if and only if the thread is not in the gap between its last check and the slot.
   */
  lemma StopAllReaches(states: seq<Bot>, steps: seq<Step>, i: nat)
    requires Execution(states, steps) && i < |states| && Enabled(states[i], HandlerLooks)
    ensures CannotEscape(states[i], states[i].handler.job) <==> !InTheGap(states[i], states[i].handler.job)
  {
    var b := states[i];
    ExecutionKeepsInv(states, steps, i);
    ExecutionKeepsHandlerOk(states, steps, i);
    assert b.handler.job in b.table;
    hide Inv, HandlerOk, CannotEscape, InTheGap;
    if InTheGap(b, b.handler.job) {
      GapEscapes(b);
    } else {
      SweptCannotEscape(b);
    }
  }
}
