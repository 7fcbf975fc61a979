/**
 The runner daemon as a step system. `create_job` answers from a job it reads without the
 lock, so every field write of a locked section and every field read of that answer is a step
 of its own. The lock remembers which section its holder is in and how many of its writes
 are done.
 */
module Daemon {
  import opened Common
  import opened Phases

  type JobId = nat

  datatype JobMode = ExistingContainerJob | NamespaceJob | DryRunJob | JobContainerJob | UnknownJob(name: string)

  /** The text of `runner_mode`. */
  function NameOf(mode: JobMode): string {
    match mode
    case ExistingContainerJob => "existing_container"
    case NamespaceJob => "container_namespace"
    case DryRunJob => "dry_run"
    case JobContainerJob => "job_container"
    case UnknownJob(name) => name
  }

  /** What `_execute_job` runs for a mode; an unknown mode makes it raise before its `try`. */
  function ProgramOf(mode: JobMode): Option<Program> {
    match mode
    case ExistingContainerJob => Some(DaemonExisting)
    case NamespaceJob => Some(DaemonNamespace)
    case DryRunJob => Some(DryRun)
    case JobContainerJob => Some(JobContainer)
    case UnknownJob(_) => None
  }

  datatype Job = Job(
    mode: JobMode, timeout: int, state: Phase, phaseMessage: string,
    summary: Option<string>, data: Data, artifacts: seq<string>, warnings: seq<string>,
    errorCode: Option<ErrorCode>, message: Option<string>, wiped: bool)

  function NewJob(mode: JobMode, timeout: int): Job {
    Job(mode, timeout, Created, "created", None, map[], [], [], None, None, false)
  }

  datatype Write =
    | WriteSummary(summary: string)
    | WriteData(data: Data)
    | WriteArtifacts(artifacts: seq<string>)
    | WriteWarnings(warnings: seq<string>)
    | WriteError(code: ErrorCode)
    | WriteMessage(message: string)
    | WriteState(state: Phase)
    | WritePhaseMessage(text: string)
    | WipeCredentials

  function Apply(j: Job, w: Write): Job {
    match w
    case WriteSummary(summary) => j.(summary := Some(summary))
    case WriteData(data) => j.(data := data)
    case WriteArtifacts(artifacts) => j.(artifacts := artifacts)
    case WriteWarnings(warnings) => j.(warnings := warnings)
    case WriteError(code) => j.(errorCode := Some(code))
    case WriteMessage(message) => j.(message := Some(message))
    case WriteState(state) => j.(state := state)
    case WritePhaseMessage(text) => j.(phaseMessage := text)
    case WipeCredentials => j.(wiped := true)
  }

  /** The locked sections that write to a job. */
  datatype Section =
    | Leave                                                     // finds the job terminal
    | Succeed(result: RunnerResult)
    | Fail(code: ErrorCode, message: string, state: Phase)
    | Report(phase: Phase, text: string)                        // a runner's announcement
    | Wipe

  /** The writes of a section, in the order the code performs them. */
  function Writes(section: Section): seq<Write> {
    match section
    case Leave => []
    case Succeed(r) =>
      [WriteSummary(r.summary), WriteData(r.data), WriteArtifacts(r.artifacts), WriteWarnings(r.warnings),
       WriteState(Finished), WritePhaseMessage("finished")]
    case Fail(code, message, state) =>
      [WriteError(code), WriteMessage(message), WriteState(state), WritePhaseMessage(message)]
    case Report(phase, text) => [WriteState(phase), WritePhaseMessage(text)]
    case Wipe => [WipeCredentials]
  }

  const CANCELLATION := Fail(OperationCancelled, "job cancelled", Failed)

  datatype Owner = ByExecutor | ByRunner | ByCanceller

  /** What a lock holder is doing to a job. */
  datatype Work = Work(owner: Owner, section: Section, done: nat)

  datatype Lock = Free | Held(job: JobId, work: Work)

  /** A join that raises, and a start of the runner thread that raises, take the executor straight to its closing. */
  datatype Executor =
    | Unborn       // its own thread could not be started, after the job was inserted
    | Starting     // has not yet set up its runner
    | Joining      // about to wait for the runner thread, or is inside its deciding section
    | Closing      // about to wipe the credentials
    | Ended
    | Dead         // raised before its `try` block

  /** What `to_response` shows of a job; empty or missing fields are left out of it. */
  datatype View = View(
    ok: bool, state: Phase, phaseMessage: string, warnings: seq<string>, summary: Option<string>, data: Option<Data>,
    artifacts: Option<seq<string>>, errorCode: Option<ErrorCode>, message: Option<string>)

  const UNREAD := View(false, Created, "", [], None, None, None, None, None)

  /** `to_response` under the lock. */
  function Snapshot(j: Job): View {
    View(j.state == Finished, j.state, j.phaseMessage, j.warnings, j.summary,
         if j.data == map[] then None else Some(j.data), if j.artifacts == [] then None else Some(j.artifacts),
         j.errorCode, j.message)
  }

  /**
   `to_response` without the lock: `at` counts its field reads so far. An optional field is
   read twice, once to see whether it is present and once to copy it.
   */
  datatype Reader = Reader(at: nat, present: bool, seen: View)

  const READS: nat := 14

  function ReadNext(j: Job, r: Reader): Reader {
    var v := r.seen;
    var (present, seen) :=
      match r.at
      case 0 => (false, v.(ok := j.state == Finished))
      case 1 => (false, v.(state := j.state))
      case 2 => (false, v.(phaseMessage := j.phaseMessage))
      case 3 => (false, v.(warnings := j.warnings))
      case 4 => (j.summary.Some?, v)
      case 5 => (false, if r.present then v.(summary := j.summary) else v)
      case 6 => (j.data != map[], v)
      case 7 => (false, if r.present then v.(data := Some(j.data)) else v)
      case 8 => (j.artifacts != [], v)
      case 9 => (false, if r.present then v.(artifacts := Some(j.artifacts)) else v)
      case 10 => (j.errorCode.Some?, v)
      case 11 => (false, if r.present then v.(errorCode := j.errorCode) else v)
      case 12 => (j.message.Some?, v)
      case _ => (false, if r.present then v.(message := j.message) else v);
    Reader(r.at + 1, present, seen)
  }

  datatype Record = Record(job: Job, executor: Executor, thread: Thread, reader: Reader)

  datatype Service = Service(records: map<JobId, Record>, lock: Lock)

  const INITIAL := Service(map[], Free)

  /** The executor can decide the job: its runner thread was started, and waiting for it does not raise. */
  predicate Decidable(r: Record) {
    !r.thread.NotStarted? && Joinable(r.job.timeout)
  }

  /** The section the executor enters once its join has returned. */
  function Verdict(r: Record): Section {
    if Terminal(r.job.state) then Leave
    else match r.thread
      case Returned(result) => Succeed(result)
      case Refused(code, message) => Fail(code, message, Failed)
      case Crashed(message) => Fail(RunnerInternalError, message, Failed)
      case _ => Fail(OperationTimeout, "timeout", Timeout)
  }

  /** The outcome a job owes to its runner thread, by how that stood when the executor decided. */
  predicate OutcomeIs(t: Thread, j: Job) {
    match t
    case Returned(result) =>
      && j.state == Finished && j.summary == Some(result.summary) && j.data == result.data
      && j.artifacts == result.artifacts && j.warnings == result.warnings && j.errorCode == None && j.message == None
    case Refused(code, message) => j.state == Failed && j.errorCode == Some(code) && j.message == Some(message)
    case Crashed(message) =>
      j.state == Failed && j.errorCode == Some(RunnerInternalError) && j.message == Some(message)
    case Running(_) => j.state == Timeout && j.errorCode == Some(OperationTimeout) && j.message == Some("timeout")
    case NotStarted => false
  }

  datatype Step =
    | Create(id: JobId, mode: JobMode, timeout: int, starts: bool)   // insert the job and start its executor
    | Read(id: JobId)                           // one field read of the answer to `create_job`
    | Launch(id: JobId, starts: bool)           // set up the runner; starting its thread may raise
    | Overflow(id: JobId)                       // the join raises: its timeout is too long
    | Decide(id: JobId)                         // the join returned: enter the deciding section
    | Perform                                   // one write of the lock holder
    | Release
    | Close(id: JobId)                          // enter the wiping section
    | Cancel(id: JobId)
    | Announce(id: JobId, phase: Phase, text: string)
    | End(id: JobId, how: Thread)

  /** The section being executed on a job, if its lock holder is at work on it. */
  function WorkOn(s: Service, id: JobId): Option<Work> {
    if s.lock.Held? && s.lock.job == id then Some(s.lock.work) else None
  }

  predicate Enabled(s: Service, step: Step) {
    match step
    case Create(id, _, _, _) => s.lock.Free? && id !in s.records
    case Read(id) => id in s.records && !s.records[id].executor.Unborn? && s.records[id].reader.at < READS
    case Launch(id, _) => s.lock.Free? && id in s.records && s.records[id].executor.Starting?
    case Overflow(id) =>
      id in s.records && s.records[id].executor.Joining? && !Joinable(s.records[id].job.timeout)
    case Decide(id) =>
      s.lock.Free? && id in s.records && s.records[id].executor.Joining? && Joinable(s.records[id].job.timeout)
    case Perform => s.lock.Held? && s.lock.job in s.records && s.lock.work.done < |Writes(s.lock.work.section)|
    case Release => s.lock.Held? && s.lock.job in s.records && s.lock.work.done >= |Writes(s.lock.work.section)|
    case Close(id) => s.lock.Free? && id in s.records && s.records[id].executor.Closing?
    case Cancel(id) => s.lock.Free? && id in s.records
    case Announce(id, phase, _) =>
      && s.lock.Free? && id in s.records && s.records[id].thread.Running? && ProgramOf(s.records[id].job.mode).Some?
      && Announces(ProgramOf(s.records[id].job.mode).value, s.records[id].thread.last, phase)
    case End(id, how) =>
      && id in s.records && s.records[id].thread.Running? && (how.Returned? || how.Refused? || how.Crashed?)
      && !(WorkOn(s, id).Some? && WorkOn(s, id).value.owner.ByRunner?)
      && ProgramOf(s.records[id].job.mode).Some?
      && (how.Returned? ==> MayReturn(ProgramOf(s.records[id].job.mode).value, s.records[id].thread.last))
  }

  /** The job a step is about. */
  function Subject(s: Service, step: Step): JobId
    requires Enabled(s, step)
  {
    match step
    case Perform => s.lock.job
    case Release => s.lock.job
    case _ => step.id
  }

  /** What a step does to its job, and what its actor is then doing under the lock. */
  function RecordAfter(r: Record, work: Option<Work>, step: Step): (Record, Option<Work>) {
    match step
    case Create(_, mode, timeout, starts) =>
      (Record(NewJob(mode, timeout), if starts then Starting else Unborn, NotStarted, Reader(0, false, UNREAD)), None)
    case Read(_) => (r.(reader := ReadNext(r.job, r.reader)), work)
    case Launch(_, starts) =>
      if ProgramOf(r.job.mode).None? then (r.(executor := Dead), None)
      else if !starts then (r.(executor := Closing), None)
      else (r.(executor := Joining, thread := Running(Created)), None)
    case Overflow(_) => (r.(executor := Closing), work)
    case Decide(_) => (r, Some(Work(ByExecutor, Verdict(r), 0)))
    case Perform => (
      match work
      case Some(w) =>
        if w.done < |Writes(w.section)|
        then (r.(job := Apply(r.job, Writes(w.section)[w.done])), Some(w.(done := w.done + 1)))
        else (r, work)
      case None => (r, work))
    case Release =>
      if work.Some? && work.value.owner.ByExecutor?
      then (r.(executor := if r.executor.Joining? then Closing else Ended), None)
      else (r, None)
    case Close(_) => (r, Some(Work(ByExecutor, Wipe, 0)))
    case Cancel(_) => (r, if Terminal(r.job.state) then None else Some(Work(ByCanceller, CANCELLATION, 0)))
    case Announce(_, phase, text) =>
      (r.(thread := Running(phase)), if Terminal(r.job.state) then None
        else Some(Work(ByRunner, Report(phase, text), 0)))
    case End(_, how) => (r.(thread := how), work)
  }

  function Next(s: Service, step: Step): Service
    requires Enabled(s, step)
  {
    var id := Subject(s, step);
    var r := if id in s.records then s.records[id]
      else Record(NewJob(UnknownJob(""), 0), Starting, NotStarted, Reader(0, false, UNREAD));
    var (r', work) := RecordAfter(r, WorkOn(s, id), step);
    Service(s.records[id := r'],
            if work.Some? then Held(id, work.value) else if s.lock.Held? && s.lock.job != id then s.lock else Free)
  }
}
