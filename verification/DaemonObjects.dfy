/**
 The runner daemon with its objects: jobs that are updated in place. Each method is one section
 under the lock, taken as a whole; what it leaves behind is what the writes of that section add
 up to in the step system, where the unlocked answer may read between any two of them.
 */
module DaemonObjects {
  import opened Common
  import opened Phases
  import D = Daemon

  datatype Vpn = Given(username: string, password: string) | Blank

  /** A job after some writes, in order. */
  function ApplyAll(j: D.Job, writes: seq<D.Write>): D.Job {
    if writes == [] then j else D.Apply(ApplyAll(j, writes[..|writes| - 1]), writes[|writes| - 1])
  }

  /** A job after a whole section. */
  function After(j: D.Job, section: D.Section): D.Job {
    ApplyAll(j, D.Writes(section))
  }

  lemma OneMore(j: D.Job, writes: seq<D.Write>, a: D.Write)
    ensures ApplyAll(j, writes + [a]) == D.Apply(ApplyAll(j, writes), a)
  {
    assert (writes + [a])[..|writes|] == writes;
  }

  lemma TwoWrites(j: D.Job, a: D.Write, b: D.Write)
    ensures ApplyAll(j, [a]) == D.Apply(j, a) && ApplyAll(j, [a, b]) == D.Apply(D.Apply(j, a), b)
  {
    hide D.Apply;
    assert [] + [a] == [a] && [a] + [b] == [a, b];
    OneMore(j, [], a);
    OneMore(j, [a], b);
  }

  lemma FourWrites(j: D.Job, a: D.Write, b: D.Write, c: D.Write, d: D.Write)
    ensures ApplyAll(j, [a, b, c, d]) == D.Apply(D.Apply(D.Apply(D.Apply(j, a), b), c), d)
  {
    hide D.Apply, ApplyAll;
    assert [a, b] + [c] == [a, b, c] && [a, b, c] + [d] == [a, b, c, d];
    TwoWrites(j, a, b);
    OneMore(j, [a, b], c);
    OneMore(j, [a, b, c], d);
  }

  lemma SixWrites(j: D.Job, a: D.Write, b: D.Write, c: D.Write, d: D.Write, e: D.Write, f: D.Write)
    ensures ApplyAll(j, [a, b, c, d, e, f]) == D.Apply(D.Apply(D.Apply(D.Apply(D.Apply(D.Apply(j, a), b), c), d), e), f)
  {
    hide D.Apply, ApplyAll;
    assert [a, b, c, d] + [e] == [a, b, c, d, e] && [a, b, c, d, e] + [f] == [a, b, c, d, e, f];
    FourWrites(j, a, b, c, d);
    OneMore(j, [a, b, c, d], e);
    OneMore(j, [a, b, c, d, e], f);
  }

  /** What the failing sections add up to. */
  lemma AfterFail(j: D.Job, code: ErrorCode, text: string, next: Phase)
    ensures After(j, D.Fail(code, text, next))
            == j.(errorCode := Some(code), message := Some(text), state := next, phaseMessage := text)
  {
    hide ApplyAll;
    FourWrites(j, D.WriteError(code), D.WriteMessage(text), D.WriteState(next), D.WritePhaseMessage(text));
  }

  /** What the successful section adds up to. */
  lemma AfterSucceed(j: D.Job, r: RunnerResult)
    ensures After(j, D.Succeed(r)) ==
              j.(summary := Some(r.summary), data := r.data, artifacts := r.artifacts, warnings := r.warnings,
                 state := Finished, phaseMessage := "finished")
  {
    hide ApplyAll;
    SixWrites(j, D.WriteSummary(r.summary), D.WriteData(r.data), D.WriteArtifacts(r.artifacts),
      D.WriteWarnings(r.warnings),
              D.WriteState(Finished), D.WritePhaseMessage("finished"));
  }

  /** `n` writes of the lock holder, one step each. */
  ghost function Performed(s: D.Service, n: nat): D.Service
    requires s.lock.Held? && s.lock.job in s.records && s.lock.work.done + n <= |D.Writes(s.lock.work.section)|
    ensures var t := Performed(s, n);
              t.lock == s.lock.(work := s.lock.work.(done := s.lock.work.done + n))
              && t.records.Keys == s.records.Keys
  {
    if n == 0 then s else D.Next(Performed(s, n - 1), D.Perform)
  }

  /** The writes of a section, performed one by one, add up to the section; no other job changes. */
  lemma {:induction false} SectionsAddUp(s: D.Service, n: nat)
    requires s.lock.Held? && s.lock.job in s.records && s.lock.work.done == 0 && n <= |D.Writes(s.lock.work.section)|
    ensures Performed(s, n).records == s.records[s.lock.job := s.records[s.lock.job].(
              job := ApplyAll(s.records[s.lock.job].job, D.Writes(s.lock.work.section)[..n]))]
  {
    hide D.Writes, D.Apply;
    if n == 0 {
      assert s.records[s.lock.job := s.records[s.lock.job]] == s.records;
    } else {
      SectionsAddUp(s, n - 1);
      var writes := D.Writes(s.lock.work.section);
      assert writes[..n][..n - 1] == writes[..n - 1] && writes[..n][n - 1] == writes[n - 1];
    }
  }

  /** The reads of the unlocked answer, with nobody writing in between. */
  function Read(j: D.Job, n: nat): D.Reader {
    if n == 0 then D.Reader(0, false, D.UNREAD) else D.ReadNext(j, Read(j, n - 1))
  }

  lemma QuietHalf(j: D.Job)
    ensures Read(j, 8) == D.Reader(8, false, D.UNREAD.(
              ok := j.state == Finished, state := j.state, phaseMessage := j.phaseMessage, warnings := j.warnings,
              summary := j.summary, data := if j.data == map[] then None else Some(j.data)))
  {
    FourReads(j, 0);
    assert Read(j, 4).at == 4;
    assert Read(j, 4).seen == D.UNREAD.(ok := j.state == Finished, state := j.state, phaseMessage := j.phaseMessage,
      warnings := j.warnings);
    FourReads(j, 4);
  }

  /** An answer that nobody disturbs is the answer given under the lock. */
  lemma {:induction false} QuietAnswer(j: D.Job)
    ensures Read(j, D.READS).seen == D.Snapshot(j) && Read(j, D.READS).at == D.READS
  {
    QuietHalf(j);
    FourReads(j, 8);
    assert Read(j, 12).at == 12;
    assert Read(j, 13) == D.ReadNext(j, Read(j, 12));
    assert Read(j, 14) == D.ReadNext(j, Read(j, 13));
  }

  lemma FourReads(j: D.Job, n: nat)
    ensures Read(j, n + 4) == D.ReadNext(j, D.ReadNext(j, D.ReadNext(j, D.ReadNext(j, Read(j, n)))))
  {
    hide D.ReadNext;
    assert Read(j, n + 1) == D.ReadNext(j, Read(j, n));
    assert Read(j, n + 2) == D.ReadNext(j, Read(j, n + 1));
    assert Read(j, n + 3) == D.ReadNext(j, Read(j, n + 2));
  }

  class RunnerJob {
    const jobId: D.JobId
    const mode: D.JobMode
    const timeout: int
    var vpn: Vpn
    var state: Phase
    var phaseMessage: string
    var summary: Option<string>
    var data: Data
    var artifacts: seq<string>
    var warnings: seq<string>
    var errorCode: Option<ErrorCode>
    var message: Option<string>

    constructor (jobId: D.JobId, mode: D.JobMode, timeout: int, username: string, password: string)
      ensures this.jobId == jobId && View() == D.NewJob(mode, timeout) && vpn == Given(username, password)
    {
      this.jobId, this.mode, this.timeout, vpn := jobId, mode, timeout, Given(username, password);
      state, phaseMessage := Created, "created";
      summary, data, artifacts, warnings, errorCode, message := None, map[], [], [], None, None;
    }

    function View(): (j: D.Job)
      reads this
      ensures j.state == state
    {
      D.Job(mode, timeout, state, phaseMessage, summary, data, artifacts, warnings, errorCode, message, vpn.Blank?)
    }

    method SetState(next: Phase, text: string)
      modifies this`state, this`phaseMessage
      ensures state == next && phaseMessage == text
      ensures View() == After(old(View()), D.Report(next, text))
    {
      state := next;
      phaseMessage := text;
      hide ApplyAll;
      TwoWrites(old(View()), D.WriteState(next), D.WritePhaseMessage(text));
    }

    method ToResponse() returns (r: D.View)
      ensures r == D.Snapshot(View())
      ensures (r.ok <==> state == Finished) && r.state == state && r.phaseMessage == phaseMessage
      ensures r.warnings == warnings && r.summary == summary && r.errorCode == errorCode && r.message == message
      ensures r.data == (if data == map[] then None else Some(data))
      ensures r.artifacts == (if artifacts == [] then None else Some(artifacts))
    {
      r := D.View(state == Finished, state, phaseMessage, warnings, None, None, None, None, None);
      if summary.Some? {
        r := r.(summary := summary);
      }
      if data != map[] {
        r := r.(data := Some(data));
      }
      if artifacts != [] {
        r := r.(artifacts := Some(artifacts));
      }
      if errorCode.Some? {
        r := r.(errorCode := errorCode);
      }
      if message.Some? {
        r := r.(message := message);
      }
    }

    /** The failing branches: code, message, then the state. */
    method Fail(code: ErrorCode, text: string, next: Phase)
      modifies this
      ensures View() == After(old(View()), D.Fail(code, text, next)) && vpn == old(vpn)
    {
      hide ApplyAll, After;
      errorCode := Some(code);
      message := Some(text);
      SetState(next, text);
      AfterFail(old(View()), code, text, next);
    }

    /** The successful branch: the outcome fields, then the state. */
    method Succeed(result: RunnerResult)
      modifies this
      ensures View() == After(old(View()), D.Succeed(result)) && vpn == old(vpn)
    {
      hide ApplyAll, After;
      summary := Some(result.summary);
      data := result.data;
      artifacts := result.artifacts;
      warnings := result.warnings;
      SetState(Finished, "finished");
      AfterSucceed(old(View()), result);
    }

    method WipeCredentials()
      modifies this`vpn
      ensures View() == After(old(View()), D.Wipe) && vpn == Blank
    {
      vpn := Blank;
      hide ApplyAll;
      TwoWrites(old(View()), D.WipeCredentials, D.WipeCredentials);
    }
  }

  /** The section the executor enters, by the job and by how its runner thread stands. */
  function Decision(j: D.Job, thread: Thread): D.Section {
    D.Verdict(D.Record(j, D.Joining, thread, D.Reader(0, false, D.UNREAD)))
  }

  /** An undecided job, as it is outside any section. */
  predicate Unsettled(j: D.Job) {
    !Terminal(j.state) && j.errorCode.None? && j.message.None?
  }

  class RunnerDaemonService {
    var jobs: map<D.JobId, RunnerJob>

    /** Every job knows its id, so different ids have different jobs. */
    ghost predicate Valid()
      reads this, Jobs()
    {
      forall id :: id in jobs ==> jobs[id].jobId == id
    }

    ghost function Jobs(): set<object>
      reads this
    {
      set id | id in jobs :: jobs[id] as object
    }

    constructor ()
      ensures Valid() && jobs == map[]
    {
      jobs := map[];
    }

    /** The locked part of `create_job`. */
    method Insert(id: D.JobId, mode: D.JobMode, timeout: int, username: string, password: string)
      returns (job: RunnerJob)
      requires Valid() && id !in jobs
      modifies this
      ensures Valid() && jobs == old(jobs)[id := job] && fresh(job)
      ensures job.View() == D.NewJob(mode, timeout) && job.vpn == Given(username, password)
    {
      job := new RunnerJob(id, mode, timeout, username, password);
      jobs := jobs[id := job];
    }

    method GetJob(id: D.JobId) returns (r: Option<D.View>)
      ensures r == if id in jobs then Some(D.Snapshot(jobs[id].View())) else None
    {
      if id !in jobs {
        return None;
      }
      var response := jobs[id].ToResponse();
      r := Some(response);
    }

    /** `cancel_job`: a job that is decided stays as it is, and the answer tells of the job as it then stands. */
    method CancelJob(id: D.JobId) returns (r: Option<D.View>)
      requires Valid()
      modifies if id in jobs then {jobs[id]} else {}
      ensures r.Some? <==> id in jobs
      ensures id in jobs ==>
                && r == Some(D.Snapshot(jobs[id].View())) && jobs[id].vpn == old(jobs[id].vpn)
                && jobs[id].View() == (if Terminal(old(jobs[id].state)) then old(jobs[id].View())
                                       else After(old(jobs[id].View()), D.CANCELLATION))
      ensures forall other :: other in jobs && other != id ==> jobs[other].View() == old(jobs[other].View())
    {
      hide D.Snapshot, After;
      if id !in jobs {
        return None;
      }
      var job := jobs[id];
      if !Terminal(job.state) {
        job.Fail(OperationCancelled, "job cancelled", Failed);
      }
      var response := job.ToResponse();
      r := Some(response);
    }

    /** A runner's announcement: dropped once the job is decided. */
    method SetState(id: D.JobId, next: Phase, text: string)
      requires Valid() && id in jobs
      modifies jobs[id]
      ensures jobs[id].View() == (if Terminal(old(jobs[id].state)) then old(jobs[id].View())
                                  else After(old(jobs[id].View()), D.Report(next, text)))
      ensures forall other :: other in jobs && other != id ==> jobs[other].View() == old(jobs[other].View())
    {
      hide After;
      if !Terminal(jobs[id].state) {
        jobs[id].SetState(next, text);
      }
    }

    /** The section after the join: whatever was decided first stays. */
    method Decide(id: D.JobId, thread: Thread)
      requires Valid() && id in jobs
      modifies jobs[id]
      ensures jobs[id].View() == After(old(jobs[id].View()), Decision(old(jobs[id].View()), thread))
      ensures Terminal(old(jobs[id].state)) ==> jobs[id].View() == old(jobs[id].View())
      ensures !thread.NotStarted? && Unsettled(old(jobs[id].View())) ==> D.OutcomeIs(thread, jobs[id].View())
      ensures jobs[id].vpn == old(jobs[id].vpn)
      ensures forall other :: other in jobs && other != id ==> jobs[other].View() == old(jobs[other].View())
    {
      hide RunnerJob.View, ApplyAll;
      var job := jobs[id];
      if Terminal(job.state) {
        DecisionStands(job.View(), thread);
        return;
      }
      match thread {
        case Running(_) => job.Fail(OperationTimeout, "timeout", Timeout);
        case NotStarted => job.Fail(OperationTimeout, "timeout", Timeout);
        case Refused(code, message) => job.Fail(code, message, Failed);
        case Crashed(message) => job.Fail(RunnerInternalError, message, Failed);
        case Returned(result) => job.Succeed(result);
      }
      if !thread.NotStarted? && Unsettled(old(job.View())) {
        DecisionDecides(old(job.View()), thread);
      }
    }

    /** The `finally` block. */
    method Close(id: D.JobId)
      requires Valid() && id in jobs
      modifies jobs[id]
      ensures jobs[id].View() == After(old(jobs[id].View()), D.Wipe) && jobs[id].vpn == Blank
      ensures forall other :: other in jobs && other != id ==> jobs[other].View() == old(jobs[other].View())
    {
      jobs[id].WipeCredentials();
    }
  }

  /** A section on a decided job changes nothing that is shown; so the first decision stands. */
  lemma DecisionStands(j: D.Job, thread: Thread)
    requires Terminal(j.state)
    ensures After(j, Decision(j, thread)) == j
  {
  }

  /** A first decision is terminal, with an error code exactly when it is not a success. */
  lemma DecisionDecides(j: D.Job, thread: Thread)
    requires !Terminal(j.state) && j.errorCode.None?
    ensures !thread.NotStarted? && Unsettled(j) ==> D.OutcomeIs(thread, After(j, Decision(j, thread)))
    ensures var k := After(j, Decision(j, thread));
            && Terminal(k.state) && (k.state == Finished <==> thread.Returned?)
            && (k.state == Finished <==> k.errorCode.None?)
            && (k.state == Timeout ==> k.errorCode == Some(OperationTimeout))
            && k.wiped == j.wiped
  {
    hide ApplyAll, After;
    match Decision(j, thread)
    case Succeed(result) => AfterSucceed(j, result);
    case Fail(code, message, state) => AfterFail(j, code, message, state);
    case _ =>
  }
}
