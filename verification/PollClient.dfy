/** The worker's client of the daemon: it creates a job and polls it until it is terminal. */
module PollClient {
  import opened Common
  import opened Phases
  import opened Daemon

  /** What the client does with one answer of the daemon. */
  datatype Reaction =
    | Relay(phase: Phase, text: string)          // announce it and poll again
    | Return(result: RunnerResult)
    | Refuse(code: ErrorCode, message: string)
    | Wait

  function OrElse<T(==)>(o: Option<T>, empty: T, default: T): T {
    if o.Some? && o.value != empty then o.value else default
  }

  function React(v: View): Reaction {
    if Working(v.state) then Relay(v.state, v.phaseMessage)
    else if v.state == Finished then
      Return(RunnerResult(if v.summary.Some? then v.summary.value else "operation done",
                          if v.data.Some? then v.data.value else map[],
                          if v.artifacts.Some? then v.artifacts.value else [], v.warnings))
    else if v.state == Timeout then
      Refuse(OrElse(v.errorCode, RunnerCode(""), OperationTimeout), OrElse(v.message, "", "operation timed out"))
    else if v.state == Failed then
      Refuse(OrElse(v.errorCode, RunnerCode(""), RunnerCode("runner_failed")),
        OrElse(v.message, "", "runner job failed"))
    else Wait
  }

  function ResultOf(j: Job): RunnerResult
    requires j.summary.Some?
  {
    RunnerResult(j.summary.value, j.data, j.artifacts, j.warnings)
  }

  /** From a snapshot of a finished job the client rebuilds its result exactly, left-out fields included. */
  lemma FinishedAnswerRebuildsResult(j: Job, v: View)
    requires j.state == Finished && j.summary.Some?
    requires v.state == Finished && v.summary == j.summary && v.warnings == j.warnings
    requires v.data == Snapshot(j).data && v.artifacts == Snapshot(j).artifacts
    ensures React(v) == Return(ResultOf(j))
  {
  }

  /**
   One request: the daemon's answer, an error of the connection or of the daemon, or something that is no
   such answer.
   */
  datatype Answer = Answered(view: View) | Lost(code: ErrorCode, message: string) | Garbled(message: string)

  predicate Decisive(a: Answer) {
    a.Answered? ==> Terminal(a.view.state)
  }

  function Ending(a: Answer): Thread
    requires Decisive(a)
  {
    match a
    case Lost(code, message) => Refused(code, message)
    case Garbled(message) => Crashed(message)   // the exception leaves the loop as it is
    case Answered(v) =>
      match React(v)
      case Return(result) => Returned(result)
      case Refuse(code, message) => Refused(code, message)
      case Relay(_, _) => Crashed("")
      case Wait => Crashed("")
  }

  /** What the end of the loop owes to the answer that ended it: the answer's own outcome, as far as it has one. */
  ghost predicate Tells(a: Answer, t: Thread) {
    match a
    case Lost(code, message) => t == Refused(code, message)
    case Garbled(message) => t == Crashed(message)
    case Answered(v) =>
      if v.state == Finished then
        && t.Returned? && t.result.warnings == v.warnings
        && (v.summary.Some? ==> t.result.summary == v.summary.value)
        && t.result.data == (if v.data.Some? then v.data.value else map[])
        && t.result.artifacts == (if v.artifacts.Some? then v.artifacts.value else [])
      else
        && t.Refused?
        && (v.errorCode.Some? && v.errorCode.value != RunnerCode("") ==> t.code == v.errorCode.value)
        && (v.message.Some? && v.message.value != "" ==> t.message == v.message.value)
  }

  lemma EndingTells(a: Answer)
    requires Decisive(a)
    ensures Tells(a, Ending(a))
  {
  }

  /** The announcements that a sequence of answers leads to. */
  function Relayed(answers: seq<Answer>): seq<Phase> {
    if answers == [] then []
    else
      var last := answers[|answers| - 1];
      Relayed(answers[..|answers| - 1]) + if last.Answered? && Working(last.view.state) then [last.view.state] else []
  }

  ghost predicate RanksNeverFall(phases: seq<Phase>) {
    forall i, j :: 0 <= i < j < |phases| ==> Rank(phases[i]) <= Rank(phases[j])
  }

  ghost predicate AnswersAdvance(answers: seq<Answer>) {
    forall i, j :: 0 <= i < j < |answers| && answers[i].Answered? && answers[j].Answered? ==>
      Rank(answers[i].view.state) <= Rank(answers[j].view.state)
  }

  /** Polling may skip states, but of answers that never go back it makes announcements that never go back. */
  lemma {:induction false} RelayedAdvance(answers: seq<Answer>)
    requires AnswersAdvance(answers)
    ensures RanksNeverFall(Relayed(answers))
    ensures forall p :: p in Relayed(answers) ==>
            Working(p) && exists a :: a in answers && a.Answered? && a.view.state == p
  {
    if answers != [] {
      var n := |answers| - 1;
      RelayedAdvance(answers[..n]);
      var before := Relayed(answers[..n]);
      forall i | 0 <= i < |before| && answers[n].Answered?
        ensures Rank(before[i]) <= Rank(answers[n].view.state)
      {
        assert before[i] in before;
        var a :| a in answers[..n] && a.Answered? && a.view.state == before[i];
        var k :| 0 <= k < n && answers[k] == a;
      }
      forall p | p in Relayed(answers) ensures exists a :: a in answers && a.Answered? && a.view.state == p {
        if p in before {
          var a :| a in answers[..n] && a.Answered? && a.view.state == p;
          assert a in answers;
        } else {
          assert answers[n] in answers;
        }
      }
    }
  }

  lemma RelaysNothing()
    ensures Relayed([]) == []
  {
  }

  lemma RelaysOneMore(answers: seq<Answer>, n: nat)
    requires n < |answers|
    ensures Relayed(answers[..n + 1]) == Relayed(answers[..n])
              + if answers[n].Answered? && Working(answers[n].view.state) then [answers[n].view.state] else []
  {
    assert answers[..n + 1][..n] == answers[..n];
  }

  /**
   The polling loop, over the answers that its requests will get; the first is the answer to
   `create_job`. Without a decisive answer it would still be polling.
   */
  method Poll(answers: seq<Answer>) returns (used: nat, announced: seq<Phase>, ending: Option<Thread>)
    ensures used <= |answers|
    ensures announced == Relayed(answers[..used])
    ensures forall i :: 0 <= i < used - 1 ==> !Decisive(answers[i])
    ensures ending.None? ==> used == |answers| && forall i :: 0 <= i < used ==> !Decisive(answers[i])
    ensures ending.Some? ==> used > 0 && Decisive(answers[used - 1]) && ending.value == Ending(answers[used - 1])
    ensures ending.Some? ==> Tells(answers[used - 1], ending.value)
  {
    hide Tells, OrElse, Relayed;
    RelaysNothing();
    used, announced, ending := 0, [], None;
    while used < |answers| && ending.None?
      invariant used <= |answers|
      invariant announced == Relayed(answers[..used])
      invariant forall i :: 0 <= i < used - 1 ==> !Decisive(answers[i])
      invariant ending.None? ==> forall i :: 0 <= i < used ==> !Decisive(answers[i])
      invariant ending.Some? ==> used > 0 && Decisive(answers[used - 1]) && ending.value == Ending(answers[used - 1])
      decreases |answers| - used, ending.None?
    {
      var job := answers[used];
      RelaysOneMore(answers, used);
      if job.Answered? && Working(job.view.state) {
        announced := announced + [job.view.state];
      }
      if job.Lost? {
        ending := Some(Refused(job.code, job.message));
      } else if job.Garbled? {
        ending := Some(Crashed(job.message));
      } else if job.view.state == Finished {
        ending := Some(Ending(job));
      } else if job.view.state == Timeout {
        ending := Some(Refused(OrElse(job.view.errorCode, RunnerCode(""), OperationTimeout),
                               OrElse(job.view.message, "", "operation timed out")));
      } else if job.view.state == Failed {
        ending := Some(Refused(OrElse(job.view.errorCode, RunnerCode(""), RunnerCode("runner_failed")),
                               OrElse(job.view.message, "", "runner job failed")));
      }
      used := used + 1;
    }
    if ending.Some? {
      EndingTells(answers[used - 1]);
    }
  }
}
