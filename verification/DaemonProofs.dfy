/** What every step of the daemon keeps, and what follows for whole runs. */
module DaemonProofs {
  import opened Common
  import opened Phases
  import opened Daemon

  /** Nothing of an outcome is there yet. */
  ghost predicate Blank(j: Job) {
    && j.summary == None && j.data == map[] && j.artifacts == [] && j.warnings == [] && j.errorCode == None
       && j.message == None
  }

  /** A job outside any section that decides it: blank until terminal, and then with one consistent outcome. */
  ghost predicate Consistent(j: Job) {
    && j.state != Queued && j.state != Cancelled
    && (!Terminal(j.state) ==> Blank(j))
    && (j.state == Finished ==> j.errorCode == None && j.summary.Some? && j.message == None)
    && (j.state == Timeout ==> j.errorCode == Some(OperationTimeout))
    && (Terminal(j.state) && j.state != Finished ==>
          j.errorCode.Some? && j.message.Some? && j.summary == None && j.data == map[] && j.artifacts == []
            && j.warnings == [])
  }

  /** How far a section has come is visible in the job. */
  ghost predicate InSection(j: Job, w: Work) {
    && w.done <= |Writes(w.section)|
    && match w.section
       case Leave => Consistent(j) && Terminal(j.state)
       case Wipe => Consistent(j)
       case Report(phase, _) => Consistent(j) && Working(phase) && !Terminal(j.state)
         && (if w.done == 0 then Rank(j.state) <= Rank(phase) else j.state == phase)
       case Fail(code, message, state) =>
         && (state == Failed || (state == Timeout && code == OperationTimeout))
         && if w.done <= 2 then
              && !Terminal(j.state) && j.state != Queued && j.state != Cancelled
              && j.errorCode == (if w.done >= 1 then Some(code) else None)
                 && j.message == (if w.done >= 2 then Some(message) else None)
              && j.summary == None && j.data == map[] && j.artifacts == [] && j.warnings == []
            else Consistent(j) && j.state == state && j.errorCode == Some(code) && j.message == Some(message)
       case Succeed(r) =>
         && (w.done >= 1 ==> j.summary == Some(r.summary)) && (w.done < 1 ==> j.summary == None)
         && j.data == (if w.done >= 2 then r.data else map[])
         && j.artifacts == (if w.done >= 3 then r.artifacts else [])
         && j.warnings == (if w.done >= 4 then r.warnings else [])
         && j.errorCode == None && j.message == None
         && if w.done <= 4 then !Terminal(j.state) && j.state != Queued && j.state != Cancelled else j.state == Finished
  }

  ghost predicate JobOk(j: Job, work: Option<Work>) {
    if work.Some? then InSection(j, work.value) else Consistent(j)
  }

  /** A section that finishes or fails a job does so with what the runner thread ended in. */
  ghost predicate Earned(section: Section, t: Thread) {
    match section
    case Succeed(result) => t == Returned(result)
    case Fail(code, message, state) =>
      && (state == Failed ==> t == Refused(code, message) || (t == Crashed(message) && code == RunnerInternalError))
      && (state == Timeout ==> message == "timeout")
    case _ => true
  }

  /** A finished job holds what its runner returned; a failed one was cancelled or holds how its runner failed. */
  ghost predicate OutcomeOk(r: Record) {
    var j := r.job;
    && (j.state == Finished ==>
          j.summary.Some? && r.thread == Returned(RunnerResult(j.summary.value, j.data, j.artifacts, j.warnings)))
    && (j.state == Failed ==> j.errorCode.Some? && j.message.Some? && (IsCancelled(j) || FailedAs(r)))
    && (j.state == Timeout ==> j.message == Some("timeout"))
  }

  ghost predicate IsCancelled(j: Job) {
    j.state == Failed && j.errorCode == Some(OperationCancelled) && j.message == Some("job cancelled")
  }

  ghost predicate FailedAs(r: Record)
    requires r.job.errorCode.Some? && r.job.message.Some?
  {
    || r.thread == Refused(r.job.errorCode.value, r.job.message.value)
    || (r.thread == Crashed(r.job.message.value) && r.job.errorCode.value == RunnerInternalError)
  }

  /** Who may be in which section, and where the executor then stands. */
  ghost predicate OwnerOk(r: Record, work: Option<Work>) {
    && (work.Some? && work.value.owner.ByExecutor? ==>
          || (r.executor.Joining? && Decidable(r) && !work.value.section.Wipe? && !work.value.section.Report?
              && Earned(work.value.section, r.thread))
          || (r.executor.Closing? && work.value.section.Wipe?))
    && (work.Some? && work.value.owner.ByCanceller? ==> work.value.section == CANCELLATION)
    && (work.Some? && work.value.owner.ByRunner? ==>
          work.value.section.Report? && r.thread == Running(work.value.section.phase))
  }

  ghost predicate ExecutorOk(r: Record, work: Option<Work>) {
    && (r.job.wiped <==> r.executor.Ended? || (work.Some? && work.value.section.Wipe? && work.value.done == 1))
    && (r.executor.Unborn? || r.executor.Starting? || r.executor.Dead? ==> r.thread.NotStarted?)
    && (r.executor.Joining? ==> !r.thread.NotStarted?)
    && ((r.executor.Closing? || r.executor.Ended?) && Decidable(r) ==> Terminal(r.job.state))
    && (!Decidable(r) && Terminal(r.job.state) ==>
          r.job.state == Failed && r.job.errorCode == Some(OperationCancelled))
    && (r.executor.Dead? ==> ProgramOf(r.job.mode).None?)
    && (!r.executor.Dead? && !r.executor.Starting? && !r.executor.Unborn? ==> ProgramOf(r.job.mode).Some?)
  }

  /** Until the job is decided, its state is the last announcement, or is about to be. */
  ghost predicate PhaseOk(r: Record, work: Option<Work>) {
    && (r.thread.NotStarted? ==> r.job.state == Created || r.job.state == Failed)
    && (r.thread.Running? && !Terminal(r.job.state)
        && !(work.Some? && work.value.section.Report? && work.value.done == 0) ==>
          r.job.state == r.thread.last)
  }

  /** A terminal state in an unlocked answer is the job's own, and so is every field read after it. */
  ghost predicate ReaderOk(j: Job, r: Reader) {
    && r.at <= READS
    && (r.at >= 1 && r.seen.ok ==> j.state == Finished)
    && (r.at >= 2 ==> Rank(r.seen.state) <= Rank(j.state) && r.seen.state != Queued && r.seen.state != Cancelled)
    && (r.at >= 2 && r.seen.ok ==> r.seen.state == Finished)
    && (r.at < 6 ==> r.seen.summary == None) && (r.at < 8 ==> r.seen.data == None)
       && (r.at < 10 ==> r.seen.artifacts == None)
    && (r.at < 12 ==> r.seen.errorCode == None) && (r.at < 14 ==> r.seen.message == None)
    && (r.at >= 2 && Terminal(r.seen.state) ==>
          && j.state == r.seen.state
          && (r.at >= 4 ==> r.seen.warnings == j.warnings)
          && (r.at == 5 ==> (r.present <==> j.summary.Some?)) && (r.at >= 6 ==> r.seen.summary == j.summary)
          && (r.at == 7 ==> (r.present <==> j.data != map[])) && (r.at >= 8 ==> r.seen.data == Snapshot(j).data)
          && (r.at == 9 ==> (r.present <==> j.artifacts != []))
             && (r.at >= 10 ==> r.seen.artifacts == Snapshot(j).artifacts)
          && (r.at == 11 ==> (r.present <==> j.errorCode.Some?)) && (r.at >= 12 ==> r.seen.errorCode == j.errorCode)
          && (r.at == 13 ==> (r.present <==> j.message.Some?)) && (r.at >= 14 ==> r.seen.message == j.message))
  }

  ghost predicate RecordOk(r: Record, work: Option<Work>) {
    && JobOk(r.job, work) && OwnerOk(r, work) && ExecutorOk(r, work) && PhaseOk(r, work) && OutcomeOk(r)
    && ReaderOk(r.job, r.reader)
  }

  ghost predicate Inv(s: Service) {
    && (s.lock.Held? ==> s.lock.job in s.records)
    && forall id :: id in s.records ==> RecordOk(s.records[id], WorkOn(s, id))
  }

  /** The recorded outcome. Credentials and the text of the last phase are not part of it. */
  ghost predicate SameOutcome(j: Job, j': Job) {
    && j'.state == j.state && j'.summary == j.summary && j'.data == j.data && j'.artifacts == j.artifacts
    && j'.warnings == j.warnings && j'.errorCode == j.errorCode && j'.message == j.message
  }

  ghost predicate JobAdvances(j: Job, j': Job) {
    && j'.mode == j.mode && j'.timeout == j.timeout
    && Rank(j.state) <= Rank(j'.state)
    && (Terminal(j.state) ==> SameOutcome(j, j'))
    && (j.wiped ==> j'.wiped)
  }

  lemma WriteStep(r: Record, w: Work)
    requires RecordOk(r, Some(w)) && w.done < |Writes(w.section)|
    ensures var j := Apply(r.job, Writes(w.section)[w.done]);
            JobAdvances(r.job, j) && JobOk(j, Some(w.(done := w.done + 1)))
  {
    hide ReaderOk, ExecutorOk, PhaseOk, OutcomeOk, ReadNext;
    match w.section
    case Succeed(_) =>
    case Fail(_, _, _) =>
    case _ =>
  }

  lemma ReaderSurvives(j: Job, j': Job, r: Reader)
    requires ReaderOk(j, r) && JobAdvances(j, j')
    ensures ReaderOk(j', r)
  {
  }

  lemma ReadStep(j: Job, r: Reader)
    requires ReaderOk(j, r) && r.at < READS && j.state != Queued && j.state != Cancelled
    ensures ReaderOk(j, ReadNext(j, r))
  {
  }

  /** A step as its own job sees it. */
  ghost predicate Good(r: Record, r': Record, work: Option<Work>) {
    RecordOk(r', work) && JobAdvances(r.job, r'.job)
  }

  lemma PerformKeepsOwner(r: Record, w: Work)
    requires OwnerOk(r, Some(w)) && ExecutorOk(r, Some(w)) && JobOk(r.job, Some(w)) && w.done < |Writes(w.section)|
    ensures var r' := r.(job := Apply(r.job, Writes(w.section)[w.done]));
            OwnerOk(r', Some(w.(done := w.done + 1))) && ExecutorOk(r', Some(w.(done := w.done + 1)))
  {
  }

  lemma PerformKeepsPhase(r: Record, w: Work)
    requires OwnerOk(r, Some(w)) && PhaseOk(r, Some(w)) && JobOk(r.job, Some(w)) && ExecutorOk(r, Some(w))
             && w.done < |Writes(w.section)|
    ensures PhaseOk(r.(job := Apply(r.job, Writes(w.section)[w.done])), Some(w.(done := w.done + 1)))
  {
  }

  lemma PerformKeepsOutcome(r: Record, w: Work)
    requires OwnerOk(r, Some(w)) && OutcomeOk(r) && JobOk(r.job, Some(w)) && w.done < |Writes(w.section)|
    ensures OutcomeOk(r.(job := Apply(r.job, Writes(w.section)[w.done])))
  {
  }

  lemma PerformStep(r: Record, w: Work)
    requires RecordOk(r, Some(w)) && w.done < |Writes(w.section)|
    ensures var (r', work) := RecordAfter(r, Some(w), Perform); Good(r, r', work)
  {
    hide JobOk, OwnerOk, ExecutorOk, PhaseOk, OutcomeOk, ReaderOk, JobAdvances, Apply, Writes;
    WriteStep(r, w);
    ReaderSurvives(r.job, Apply(r.job, Writes(w.section)[w.done]), r.reader);
    PerformKeepsOwner(r, w);
    PerformKeepsPhase(r, w);
    PerformKeepsOutcome(r, w);
  }

  lemma DecideStep(r: Record, step: Step)
    requires RecordOk(r, None) && step.Decide? && r.executor.Joining? && Joinable(r.job.timeout)
    ensures var (r', work) := RecordAfter(r, None, step); Good(r, r', work)
  {
    hide ReaderOk;
  }

  lemma ReleaseStep(r: Record, w: Work)
    requires RecordOk(r, Some(w)) && w.done >= |Writes(w.section)|
    ensures var (r', work) := RecordAfter(r, Some(w), Release); Good(r, r', work)
  {
    hide ReaderOk;
  }

  lemma AnnounceStep(r: Record, step: Step)
    requires RecordOk(r, None) && step.Announce? && r.thread.Running? && ProgramOf(r.job.mode).Some?
    requires Announces(ProgramOf(r.job.mode).value, r.thread.last, step.phase)
    ensures var (r', work) := RecordAfter(r, None, step); Good(r, r', work)
  {
    AnnouncementsAdvance(ProgramOf(r.job.mode).value, r.thread.last, step.phase);
    hide ReaderOk, Announces;
  }

  lemma OtherStep(r: Record, work: Option<Work>, step: Step)
    requires RecordOk(r, work) && (step.Launch? || step.Overflow? || step.Close? || step.Cancel? || step.End?)
    requires step.End? || step.Overflow? || work == None
    requires step.Launch? ==> r.executor.Starting?
    requires step.Overflow? ==> r.executor.Joining? && !Joinable(r.job.timeout)
    requires step.Close? ==> r.executor.Closing?
    requires step.End? ==> r.thread.Running? && (step.how.Returned? || step.how.Refused? || step.how.Crashed?)
    requires step.End? && work.Some? ==> !work.value.owner.ByRunner?
    ensures var (r', work') := RecordAfter(r, work, step); Good(r, r', work')
  {
    hide ReaderOk;
  }

  lemma ReadingStep(r: Record, work: Option<Work>, step: Step)
    requires RecordOk(r, work) && step.Read? && r.reader.at < READS
    ensures var (r', work') := RecordAfter(r, work, step); Good(r, r', work')
  {
    ReadStep(r.job, r.reader);
    hide ReaderOk, ReadNext;
  }

  lemma NewRecordOk(r: Record, step: Step)
    requires step.Create?
    ensures var (r', work) := RecordAfter(r, None, step); RecordOk(r', work)
  {
  }

  lemma LocalStep(s: Service, step: Step)
    requires Enabled(s, step) && !step.Create? && RecordOk(s.records[Subject(s, step)], WorkOn(s, Subject(s, step)))
    ensures var id := Subject(s, step);
            var (r', work) := RecordAfter(s.records[id], WorkOn(s, id), step);
            Good(s.records[id], r', work)
  {
    var id := Subject(s, step);
    var r := s.records[id];
    match step {
      case Perform => PerformStep(r, s.lock.work);
      case Release => ReleaseStep(r, s.lock.work);
      case Read(_) => ReadingStep(r, WorkOn(s, id), step);
      case Announce(_, _, _) => AnnounceStep(r, step);
      case Decide(_) => DecideStep(r, step);
      case _ => OtherStep(r, WorkOn(s, id), step);
    }
    hide RecordOk, RecordAfter, Announces, MayReturn, Good, Writes;
  }

  lemma Frame(s: Service, s': Service, id: JobId, r: Record, work: Option<Work>)
    requires s'.records == s.records[id := r] && WorkOn(s', id) == work
    requires s.lock.Held? && s.lock.job != id ==> s'.lock == s.lock
    requires s'.lock.Held? ==> s'.lock.job == id || s'.lock == s.lock
    requires RecordOk(r, work) && Inv(s)
    ensures Inv(s')
  {
    hide RecordOk;
    forall other | other in s'.records ensures RecordOk(s'.records[other], WorkOn(s', other)) {
      if other != id {
        assert WorkOn(s', other) == WorkOn(s, other);
      }
    }
  }

  lemma StepKeepsInv(s: Service, step: Step)
    requires Inv(s) && Enabled(s, step)
    ensures Inv(Next(s, step))
  {
    var s' := Next(s, step);
    var id := Subject(s, step);
    if step.Create? {
      NewRecordOk(s'.records[id], step);
      Frame(s, s', id, s'.records[id], None);
    } else {
      LocalStep(s, step);
      Frame(s, s', id, s'.records[id], WorkOn(s', id));
    }
    hide RecordOk, RecordAfter, Announces, MayReturn, Inv;
  }
}
