/**
 The worker and the daemon run together: each runner thread of the worker is a client that
 posts one job, reads the unlocked answer, and polls. Requests and answers may be lost, other
 clients may create and cancel jobs, and every thread of both services moves at any time.
 */
module EndToEnd {
  import opened Common
  import opened Phases
  import W = Worker
  import WP = WorkerProofs
  import D = Daemon
  import DP = DaemonProofs
  import DR = DaemonRuns
  import opened PollClient

  type TaskId = W.TaskId
  type JobId = D.JobId

  /** Where the client thread of a task stands. */
  datatype Client =
    | Posting
    | Awaiting(job: JobId)                  // the job exists, the answer to its creation is being built
    | Holding(job: JobId, view: D.View)     // has an answer in hand
    | Polling(job: JobId)
    | Gone(last: Option<JobId>)

  datatype System = System(
    worker: W.Service, daemon: D.Service,
    clients: map<TaskId, Client>,
    origin: map<JobId, TaskId>)             // which task's client created a job

  function Initial(clock: real): System {
    System(W.Initial(clock), D.INITIAL, map[], map[])
  }

  function JobModeOf(mode: W.Mode): D.JobMode {
    match mode
    case DryRunMode => D.DryRunJob
    case ExistingContainerMode => D.ExistingContainerJob
    case JobContainerMode => D.JobContainerJob
    case OtherMode(name) => if name == "container_namespace" then D.NamespaceJob else D.UnknownJob(name)
  }

  /**
   The daemon does what was asked for: the mode keeps its name, and but for the two modes that have executors
   of their own the daemon runs what the worker would have run itself.
   */
  lemma ModesAgree(mode: W.Mode)
    ensures D.NameOf(JobModeOf(mode)) == W.NameOf(mode)
    ensures W.NameOf(mode) != "existing_container" && W.NameOf(mode) != "container_namespace" ==>
              D.ProgramOf(JobModeOf(mode)) == W.CreateRunner(false, mode)
    ensures W.CreateRunner(false, mode).Some? ==> D.ProgramOf(JobModeOf(mode)).Some?
  {
  }

  /** What a client posts: the mode and the timeout of its task. */
  function Request(job: JobId, t: W.Task, starts: bool): D.Step {
    D.Create(job, JobModeOf(t.mode), t.timeout, starts)
  }

  datatype Step =
    | WorkerMoves(w: W.Step)
    | DaemonMoves(d: D.Step)
    | Post(task: TaskId, job: JobId, starts: bool)   // if the job's executor cannot be started, no answer comes
    | Receive(task: TaskId)                 // the answer to the creation arrives
    | Fetch(task: TaskId)                   // one poll, answered under the daemon's lock
    | Handle(task: TaskId)
    | Abandon(task: TaskId, how: Thread)    // a request failed or its answer was lost

  /** What handling an answer makes the worker's runner thread do. */
  function Echo(task: TaskId, v: D.View): Option<W.Step> {
    match React(v)
    case Relay(phase, text) => Some(W.Announce(task, phase, text))
    case Return(result) => Some(W.End(task, Returned(result)))
    case Refuse(code, message) => Some(W.End(task, Refused(code, message)))
    case Wait => None
  }

  predicate Enabled(cfg: W.Config, s: System, step: Step) {
    match step
    case WorkerMoves(w) => !w.Announce? && !w.End? && W.Enabled(cfg, s.worker, w)
    case DaemonMoves(d) => D.Enabled(s.daemon, d)
    case Post(task, job, starts) =>
      && task in s.clients && s.clients[task].Posting? && task in s.worker.entries
      && D.Enabled(s.daemon, Request(job, s.worker.entries[task].task, starts))
    case Receive(task) =>
      && task in s.clients && s.clients[task].Awaiting? && s.clients[task].job in s.daemon.records
      && s.daemon.records[s.clients[task].job].reader.at == D.READS
    case Fetch(task) => task in s.clients && s.clients[task].Polling? && s.clients[task].job in s.daemon.records
      && s.daemon.lock.Free?
    case Handle(task) =>
      && task in s.clients && s.clients[task].Holding?
      && (Echo(task, s.clients[task].view).Some? ==> W.Enabled(cfg, s.worker, Echo(task, s.clients[task].view).value))
    case Abandon(task, how) =>
      && task in s.clients && (s.clients[task].Posting? || s.clients[task].Awaiting? || s.clients[task].Polling?)
      && (how.Refused? || how.Crashed?) && W.Enabled(cfg, s.worker, W.End(task, how))
  }

  function JobOf(c: Client): Option<JobId> {
    match c
    case Posting => None
    case Awaiting(job) => Some(job)
    case Holding(job, _) => Some(job)
    case Polling(job) => Some(job)
    case Gone(last) => last
  }

  function Next(cfg: W.Config, s: System, step: Step): System
    requires Enabled(cfg, s, step)
  {
    match step
    case WorkerMoves(w) =>
      var worker := W.Next(cfg, s.worker, w);
      s.(worker := worker,
         clients := if w.Launch? && worker.entries[w.id].thread.Running? then s.clients[w.id := Posting] else s.clients)
    case DaemonMoves(d) => s.(daemon := D.Next(s.daemon, d))
    case Post(task, job, starts) =>
      s.(daemon := D.Next(s.daemon, Request(job, s.worker.entries[task].task, starts)),
         clients := s.clients[task := Awaiting(job)], origin := s.origin[job := task])
    case Receive(task) =>
      var job := s.clients[task].job;
      s.(clients := s.clients[task := Holding(job, s.daemon.records[job].reader.seen)])
    case Fetch(task) =>
      var job := s.clients[task].job;
      s.(clients := s.clients[task := Holding(job, D.Snapshot(s.daemon.records[job].job))])
    case Handle(task) =>
      var job, echo := s.clients[task].job, Echo(task, s.clients[task].view);
      if echo.None? then s.(clients := s.clients[task := Polling(job)])
      else s.(worker := W.Next(cfg, s.worker, echo.value),
              clients := s.clients[task := if echo.value.End? then Gone(Some(job)) else Polling(job)])
    case Abandon(task, how) =>
      s.(worker := W.Next(cfg, s.worker, W.End(task, how)), clients := s.clients[task := Gone(JobOf(s.clients[task]))])
  }

  // --- The invariant --------------------------------------------------------------------

  ghost predicate Owned(d: D.Service, origin: map<JobId, TaskId>, task: TaskId, job: JobId) {
    job in d.records && job in origin && origin[job] == task
  }

  /** An answer in a client's hand never runs ahead of the job, and is final once terminal. */
  ghost predicate ViewOk(v: D.View, j: D.Job) {
    && Rank(v.state) <= Rank(j.state) && v.state != Queued && v.state != Cancelled
    && (Terminal(v.state) ==> DR.SameAnswer(v, D.Snapshot(j)))
  }

  /** The job finished and this is its result. */
  ghost predicate IsResult(d: D.Service, job: JobId, r: RunnerResult) {
    job in d.records && d.records[job].job.state == Finished && d.records[job].job.summary.Some?
      && r == ResultOf(d.records[job].job)
  }

  ghost predicate ClientOk(d: D.Service, origin: map<JobId, TaskId>, task: TaskId, t: Thread, c: Client) {
    && (JobOf(c).Some? ==> Owned(d, origin, task, JobOf(c).value))
    && match c
       case Posting => t == Running(Created)
       case Awaiting(job) => t == Running(Created)
       case Holding(job, v) => t.Running? && Rank(t.last) <= Rank(v.state) && ViewOk(v, d.records[job].job)
       case Polling(job) => t.Running? && Rank(t.last) <= Rank(d.records[job].job.state)
       case Gone(last) =>
            !t.Running? && !t.NotStarted? && (t.Returned? ==> last.Some? && IsResult(d, last.value, t.result))
  }

  /** A finished task has the result of a finished job. */
  ghost predicate Agrees(d: D.Service, t: W.Task, c: Client) {
    t.state == Finished ==> c.Gone? && c.last.Some? && t.summary.Some? && IsResult(d, c.last.value, t.Result())
  }

  ghost predicate ClientsMatchThreads(entries: WP.Entries, clients: map<TaskId, Client>) {
    && (forall task :: task in clients ==> task in entries)
    && (forall task :: task in entries ==> (task in clients <==> !entries[task].thread.NotStarted?))
  }

  ghost predicate ClientsOk(d: D.Service, origin: map<JobId, TaskId>, entries: WP.Entries,
                            clients: map<TaskId, Client>) {
    forall task :: task in clients && task in entries ==>
      ClientOk(d, origin, task, entries[task].thread, clients[task]) && Agrees(d, entries[task].task, clients[task])
  }

  /** A task without a client has not finished. */
  ghost predicate NoClientNotFinished(entries: WP.Entries) {
    forall task :: task in entries && entries[task].thread.NotStarted? ==> entries[task].task.state != Finished
  }

  /** Each job created for a task is the one its client knows. */
  ghost predicate OneJobEach(d: D.Service, origin: map<JobId, TaskId>, clients: map<TaskId, Client>) {
    forall job :: job in origin ==>
         job in d.records && origin[job] in clients && JobOf(clients[origin[job]]) == Some(job)
  }

  ghost predicate Inv(cfg: W.Config, s: System) {
    && WP.Inv(cfg, s.worker) && DP.Inv(s.daemon)
    && ClientsMatchThreads(s.worker.entries, s.clients)
    && ClientsOk(s.daemon, s.origin, s.worker.entries, s.clients)
    && NoClientNotFinished(s.worker.entries)
    && OneJobEach(s.daemon, s.origin, s.clients)
  }

  // --- What the daemon does does not hurt a client ---------------------------------------

  lemma ViewSurvives(v: D.View, j: D.Job, j': D.Job)
    requires ViewOk(v, j) && DP.JobAdvances(j, j')
    ensures ViewOk(v, j')
  {
  }

  lemma ResultSurvives(d: D.Service, d': D.Service, job: JobId, r: RunnerResult)
    requires IsResult(d, job, r) && DR.Later(d, d')
    ensures IsResult(d', job, r)
  {
  }

  lemma ClientSurvives(d: D.Service, d': D.Service, origin: map<JobId, TaskId>, task: TaskId, e: W.Entry, c: Client)
    requires ClientOk(d, origin, task, e.thread, c) && Agrees(d, e.task, c) && DR.Later(d, d')
    ensures ClientOk(d', origin, task, e.thread, c) && Agrees(d', e.task, c)
  {
    match c
    case Holding(job, v) => ViewSurvives(v, d.records[job].job, d'.records[job].job);
    case Gone(Some(job)) =>
      if e.thread.Returned? {
        ResultSurvives(d, d', job, e.thread.result);
      }
      if e.task.state == Finished {
        ResultSurvives(d, d', job, e.task.Result());
      }
    case _ =>
  }

  lemma DaemonAdvances(d: D.Service, d': D.Service, origin: map<JobId, TaskId>, entries: WP.Entries,
      clients: map<TaskId, Client>)
    requires DR.Later(d, d') && ClientsOk(d, origin, entries, clients) && OneJobEach(d, origin, clients)
    ensures ClientsOk(d', origin, entries, clients) && OneJobEach(d', origin, clients)
  {
    forall task | task in clients && task in entries
      ensures ClientOk(d', origin, task, entries[task].thread, clients[task])
              && Agrees(d', entries[task].task, clients[task])
    {
      ClientSurvives(d, d', origin, task, entries[task], clients[task]);
    }
    hide ClientOk, Agrees, DP.JobAdvances;
  }

  lemma DaemonMovesKeepsInv(cfg: W.Config, s: System, d: D.Step)
    requires Inv(cfg, s) && D.Enabled(s.daemon, d)
    ensures Inv(cfg, Next(cfg, s, DaemonMoves(d)))
  {
    DP.StepKeepsInv(s.daemon, d);
    DR.StepIsLater(s.daemon, d);
    hide D.Next, D.Enabled, DP.Inv, WP.Inv, ClientsOk, OneJobEach, ClientsMatchThreads, NoClientNotFinished;
    DaemonAdvances(s.daemon, D.Next(s.daemon, d), s.origin, s.worker.entries, s.clients);
  }

  // --- Worker moves other than a client's own --------------------------------------------

  /** One entry moves on, and its client with it. */
  lemma OneClient(d: D.Service, origin: map<JobId, TaskId>, entries: WP.Entries, clients: map<TaskId, Client>,
                  task: TaskId, e: W.Entry, c: Client)
    requires task in entries && ClientsMatchThreads(entries, clients) && ClientsOk(d, origin, entries, clients)
    requires !e.thread.NotStarted? && ClientOk(d, origin, task, e.thread, c) && Agrees(d, e.task, c)
    ensures ClientsMatchThreads(entries[task := e], clients[task := c])
    ensures ClientsOk(d, origin, entries[task := e], clients[task := c])
    ensures NoClientNotFinished(entries) ==> NoClientNotFinished(entries[task := e])
  {
    hide ClientOk, Agrees;
  }

  /** What the invariant says of one task. */
  lemma OneTask(cfg: W.Config, s: System, task: TaskId)
    requires Inv(cfg, s) && task in s.worker.entries
    ensures WP.EntryOk(cfg, s.worker.entries[task])
    ensures task in s.worker.secrets <==> !s.worker.entries[task].executor.Ended?
    ensures task in s.clients <==> !s.worker.entries[task].thread.NotStarted?
    ensures task in s.clients ==>
              && ClientOk(s.daemon, s.origin, task, s.worker.entries[task].thread, s.clients[task])
              && Agrees(s.daemon, s.worker.entries[task].task, s.clients[task])
    ensures s.worker.entries[task].thread.NotStarted? ==> s.worker.entries[task].task.state != Finished
  {
    assert WP.SecretsLedger(s.worker.entries, s.worker.secrets.Keys);
    hide WP.EntryOk, ClientOk, Agrees, DP.Inv, OneJobEach, WP.TablesAgree, WP.AuditLedger, WP.OneThreadEach,
      WP.RepliesHold, WP.OneActive;
  }

  predicate Quiet(w: W.Step) {
    WP.NamesTask(w) && !w.Announce? && !w.End? && !(w.Launch? && w.starts)
  }

  /** A worker step that leaves the thread alone keeps what the client knows; a finished task got its result from it. */
  lemma QuietEntry(cfg: W.Config, s: System, w: W.Step, e: W.Entry)
    requires W.Enabled(cfg, s.worker, w) && Quiet(w) && e == s.worker.entries[w.id]
    requires WP.EntryOk(cfg, e)
    requires !e.thread.NotStarted? ==>
             w.id in s.clients && ClientOk(s.daemon, s.origin, w.id, e.thread, s.clients[w.id])
             && Agrees(s.daemon, e.task, s.clients[w.id])
    requires e.thread.NotStarted? ==> e.task.state != Finished
    ensures var e' := W.EntryAfter(cfg, e, w.id in s.worker.secrets, w, s.worker.clock);
            && e'.thread == e.thread
            && (e.thread.NotStarted? ==> e'.task.state != Finished)
            && (!e.thread.NotStarted? ==> Agrees(s.daemon, e'.task, s.clients[w.id]))
  {
    hide Owned, ViewOk, W.CreateRunner;
  }

  lemma Untouched(d: D.Service, origin: map<JobId, TaskId>, entries: WP.Entries, clients: map<TaskId, Client>,
      task: TaskId, e: W.Entry)
    requires task in entries && ClientsMatchThreads(entries, clients) && ClientsOk(d, origin, entries, clients)
             && NoClientNotFinished(entries)
    requires e.thread == entries[task].thread
    requires e.thread.NotStarted? ==> e.task.state != Finished
    requires task in clients ==> Agrees(d, e.task, clients[task])
    ensures ClientsMatchThreads(entries[task := e], clients) && ClientsOk(d, origin, entries[task := e], clients)
    ensures NoClientNotFinished(entries[task := e])
  {
    hide ClientOk, Agrees;
  }

  lemma WorkerMovesKeepsInv(cfg: W.Config, s: System, w: W.Step)
    requires Inv(cfg, s) && cfg.runnerUrl && Enabled(cfg, s, WorkerMoves(w))
    ensures Inv(cfg, Next(cfg, s, WorkerMoves(w)))
  {
    WP.StepKeepsInv(cfg, s.worker, w);
    var worker := W.Next(cfg, s.worker, w);
    if w.Tick? {
    } else if w.Create? {
      CreateKeepsClients(cfg, s, w.call);
    } else if w.Launch? && w.starts {
      LaunchKeepsClients(cfg, s, w);
    } else {
      QuietKeepsClients(cfg, s, w);
    }
    hide WP.Inv, DP.Inv, ClientsOk, OneJobEach, ClientsMatchThreads, NoClientNotFinished, W.EntryAfter, W.CreateTask;
  }

  lemma NewEntry(d: D.Service, origin: map<JobId, TaskId>, entries: WP.Entries, clients: map<TaskId, Client>,
      task: TaskId, e: W.Entry)
    requires ClientsMatchThreads(entries, clients) && ClientsOk(d, origin, entries, clients)
             && NoClientNotFinished(entries)
    requires task !in entries && e.thread.NotStarted? && e.task.state != Finished
    ensures ClientsMatchThreads(entries[task := e], clients) && ClientsOk(d, origin, entries[task := e], clients)
    ensures NoClientNotFinished(entries[task := e])
  {
    hide ClientOk, Agrees;
  }

  lemma CreateKeepsClients(cfg: W.Config, s: System, call: W.CreateCall)
    requires Inv(cfg, s) && call.newId !in s.worker.entries
    ensures var entries := W.CreateTask(cfg, s.worker, call).0.entries;
            ClientsMatchThreads(entries, s.clients) && ClientsOk(s.daemon, s.origin, entries, s.clients)
              && NoClientNotFinished(entries)
  {
    hide DP.Inv, OneJobEach, ClientsOk, ClientsMatchThreads, NoClientNotFinished, W.CreateTask;
    hide WP.TablesAgree, WP.EntriesOk, WP.OneActive, WP.SecretsLedger, WP.AuditLedger, WP.OneThreadEach,
      WP.RepliesHold, WP.Budget;
    WP.RefusalLeavesTables(cfg, s.worker, call);
    var (made, reply) := W.CreateTask(cfg, s.worker, call);
    if W.Makes(reply) {
      WP.StartedAdds(cfg, s.worker, call);
      NewEntry(s.daemon, s.origin, s.worker.entries, s.clients, call.newId, made.entries[call.newId]);
    }
  }

  lemma LaunchedEntry(cfg: W.Config, e: W.Entry, hasSecret: bool, w: W.Step, now: real)
    requires w.Launch? && w.starts && cfg.runnerUrl
    ensures W.EntryAfter(cfg, e, hasSecret, w, now) == e.(executor := W.Joining, thread := Running(Created))
  {
  }

  lemma FreshJobs(d: D.Service, origin: map<JobId, TaskId>, clients: map<TaskId, Client>, task: TaskId, c: Client)
    requires OneJobEach(d, origin, clients) && (task in clients ==> JobOf(c) == JobOf(clients[task]))
    ensures OneJobEach(d, origin, clients[task := c])
  {
    hide JobOf;
  }

  lemma LaunchKeepsClients(cfg: W.Config, s: System, w: W.Step)
    requires Inv(cfg, s) && cfg.runnerUrl && w.Launch? && w.starts && W.Enabled(cfg, s.worker, w)
    ensures var s' := Next(cfg, s, WorkerMoves(w));
            && ClientsMatchThreads(s'.worker.entries, s'.clients)
               && ClientsOk(s.daemon, s.origin, s'.worker.entries, s'.clients)
            && NoClientNotFinished(s'.worker.entries) && OneJobEach(s.daemon, s.origin, s'.clients)
  {
    hide WP.Inv, DP.Inv, Agrees, ClientsOk, ClientsMatchThreads, NoClientNotFinished, OneJobEach, W.EntryAfter,
      WP.EntryOk;
    OneTask(cfg, s, w.id);
    var e := s.worker.entries[w.id];
    Fresh(cfg, e, w);
    var e' := e.(executor := W.Joining, thread := Running(Created));
    LaunchedEntry(cfg, e, w.id in s.worker.secrets, w, s.worker.clock);
    AgreesUntilFinished(s.daemon, e'.task, Posting);
    OneClient(s.daemon, s.origin, s.worker.entries, s.clients, w.id, e', Posting);
    FreshJobs(s.daemon, s.origin, s.clients, w.id, Posting);
  }

  lemma Fresh(cfg: W.Config, e: W.Entry, w: W.Step)
    requires WP.EntryOk(cfg, e) && e.executor.Creating?
    ensures e.thread.NotStarted? && e.task.state == Created
  {
  }

  lemma AgreesUntilFinished(d: D.Service, t: W.Task, c: Client)
    requires t.state != Finished
    ensures Agrees(d, t, c)
  {
  }

  lemma QuietKeepsClients(cfg: W.Config, s: System, w: W.Step)
    requires Inv(cfg, s) && W.Enabled(cfg, s.worker, w) && Quiet(w)
    ensures var s' := Next(cfg, s, WorkerMoves(w));
            && ClientsMatchThreads(s'.worker.entries, s'.clients)
               && ClientsOk(s.daemon, s.origin, s'.worker.entries, s'.clients)
            && NoClientNotFinished(s'.worker.entries) && s'.clients == s.clients
  {
    hide WP.Inv, DP.Inv, ClientOk, Agrees, ClientsOk, ClientsMatchThreads, NoClientNotFinished, OneJobEach,
      W.EntryAfter, WP.EntryOk;
    OneTask(cfg, s, w.id);
    var e := s.worker.entries[w.id];
    QuietEntry(cfg, s, w, e);
    if w.Launch? {
      Fresh(cfg, e, w);
    }
    var e' := W.EntryAfter(cfg, e, w.id in s.worker.secrets, w, s.worker.clock);
    Untouched(s.daemon, s.origin, s.worker.entries, s.clients, w.id, e');
  }

  // --- The client's own moves -------------------------------------------------------------

  /** A client in possession of a job moves on without the worker noticing. */
  lemma ClientMoves(cfg: W.Config, s: System, task: TaskId, c: Client)
    requires Inv(cfg, s) && task in s.clients && task in s.worker.entries && JobOf(c) == JobOf(s.clients[task])
    requires ClientOk(s.daemon, s.origin, task, s.worker.entries[task].thread, c)
    requires Agrees(s.daemon, s.worker.entries[task].task, c)
    ensures Inv(cfg, s.(clients := s.clients[task := c]))
  {
    hide WP.Inv, DP.Inv, ClientOk, Agrees, ClientsMatchThreads, ClientsOk, OneJobEach, NoClientNotFinished, WP.EntryOk,
      Inv, JobOf;
    OneTask(cfg, s, task);
    var e := s.worker.entries[task];
    PartsOf(cfg, s);
    OneClient(s.daemon, s.origin, s.worker.entries, s.clients, task, e, c);
    assert s.worker.entries[task := e] == s.worker.entries;
    FreshJobs(s.daemon, s.origin, s.clients, task, c);
    Assembled(cfg, s.(clients := s.clients[task := c]));
  }

  lemma PartsOf(cfg: W.Config, s: System)
    requires Inv(cfg, s)
    ensures WP.Inv(cfg, s.worker) && DP.Inv(s.daemon) && NoClientNotFinished(s.worker.entries)
    ensures ClientsMatchThreads(s.worker.entries, s.clients)
    ensures ClientsOk(s.daemon, s.origin, s.worker.entries, s.clients)
    ensures OneJobEach(s.daemon, s.origin, s.clients)
  {
    hide WP.Inv, DP.Inv, ClientsMatchThreads, ClientsOk, OneJobEach, NoClientNotFinished;
  }

  lemma Assembled(cfg: W.Config, s: System)
    requires WP.Inv(cfg, s.worker) && DP.Inv(s.daemon) && NoClientNotFinished(s.worker.entries)
    requires ClientsMatchThreads(s.worker.entries, s.clients)
    requires ClientsOk(s.daemon, s.origin, s.worker.entries, s.clients)
    requires OneJobEach(s.daemon, s.origin, s.clients)
    ensures Inv(cfg, s)
  {
    hide WP.Inv, DP.Inv, ClientsMatchThreads, ClientsOk, OneJobEach, NoClientNotFinished;
  }

  /** Before its client is gone, a task cannot have finished. */
  lemma NotFinishedYet(d: D.Service, t: W.Task, c: Client)
    requires Agrees(d, t, c) && !c.Gone?
    ensures t.state != Finished
  {
  }

  /** What the invariant says of one job: an answer in hand, or a snapshot, never runs ahead of it. */
  lemma OneJob(cfg: W.Config, s: System, job: JobId)
    requires Inv(cfg, s) && job in s.daemon.records
    ensures var r := s.daemon.records[job];
            && (r.reader.at == D.READS ==> ViewOk(r.reader.seen, r.job))
            && (s.daemon.lock.Free? ==> ViewOk(D.Snapshot(r.job), r.job))
  {
    assert DP.RecordOk(s.daemon.records[job], D.WorkOn(s.daemon, job)) by { assert DP.Inv(s.daemon); }
    hide Inv;
  }

  lemma ReceiveKeepsInv(cfg: W.Config, s: System, task: TaskId)
    requires Inv(cfg, s) && Enabled(cfg, s, Receive(task))
    ensures Inv(cfg, Next(cfg, s, Receive(task)))
  {
    hide Inv, WP.EntryOk, ViewOk, Agrees, D.Enabled, W.Enabled, D.Next, W.Next;
    ClientHasTask(cfg, s, task);
    OneTask(cfg, s, task);
    var job := s.clients[task].job;
    OneJob(cfg, s, job);
    var view := s.daemon.records[job].reader.seen;
    NotFinishedYet(s.daemon, s.worker.entries[task].task, s.clients[task]);
    AgreesUntilFinished(s.daemon, s.worker.entries[task].task, Holding(job, view));
    ClientMoves(cfg, s, task, Holding(job, view));
  }

  lemma FetchKeepsInv(cfg: W.Config, s: System, task: TaskId)
    requires Inv(cfg, s) && Enabled(cfg, s, Fetch(task))
    ensures Inv(cfg, Next(cfg, s, Fetch(task)))
  {
    hide Inv, WP.EntryOk, ViewOk, Agrees, D.Enabled, W.Enabled, D.Next, W.Next;
    ClientHasTask(cfg, s, task);
    OneTask(cfg, s, task);
    var job := s.clients[task].job;
    OneJob(cfg, s, job);
    var view := D.Snapshot(s.daemon.records[job].job);
    NotFinishedYet(s.daemon, s.worker.entries[task].task, s.clients[task]);
    AgreesUntilFinished(s.daemon, s.worker.entries[task].task, Holding(job, view));
    ClientMoves(cfg, s, task, Holding(job, view));
  }

  lemma PostKeepsInv(cfg: W.Config, s: System, task: TaskId, job: JobId, starts: bool)
    requires Inv(cfg, s) && Enabled(cfg, s, Post(task, job, starts))
    ensures Inv(cfg, Next(cfg, s, Post(task, job, starts)))
  {
    ClientHasTask(cfg, s, task);
    OneTask(cfg, s, task);
    var create := Request(job, s.worker.entries[task].task, starts);
    DaemonMovesKeepsInv(cfg, s, create);
    var d := D.Next(s.daemon, create);
    NotFinishedYet(s.daemon, s.worker.entries[task].task, s.clients[task]);
    assert job !in s.origin by { assert OneJobEach(s.daemon, s.origin, s.clients); }
    assert job in d.records;
    assert s.worker.entries[task].thread == Running(Created);
    var mid := s.(daemon := d);
    assert Inv(cfg, mid);
    hide WP.Inv, DP.Inv, D.Next, D.Enabled, WP.EntryOk, NoClientNotFinished;
    Posted(cfg, mid, task, job);
  }

  lemma Posted(cfg: W.Config, s: System, task: TaskId, job: JobId)
    requires ClientsMatchThreads(s.worker.entries, s.clients)
             && ClientsOk(s.daemon, s.origin, s.worker.entries, s.clients)
    requires OneJobEach(s.daemon, s.origin, s.clients)
    requires task in s.clients && s.clients[task].Posting? && job !in s.origin && job in s.daemon.records
    requires task in s.worker.entries && s.worker.entries[task].thread == Running(Created)
             && s.worker.entries[task].task.state != Finished
    ensures var clients, origin := s.clients[task := Awaiting(job)], s.origin[job := task];
            && ClientsMatchThreads(s.worker.entries, clients) && ClientsOk(s.daemon, origin, s.worker.entries, clients)
            && OneJobEach(s.daemon, origin, clients)
  {
    var clients, origin := s.clients[task := Awaiting(job)], s.origin[job := task];
    forall t | t in clients && t in s.worker.entries
      ensures ClientOk(s.daemon, origin, t, s.worker.entries[t].thread, clients[t])
              && Agrees(s.daemon, s.worker.entries[t].task, clients[t])
    {
      if t != task {
        assert ClientOk(s.daemon, s.origin, t, s.worker.entries[t].thread, s.clients[t]);
        OwnershipGrows(s.daemon, s.origin, origin, t, s.worker.entries[t].thread, s.clients[t], job);
      }
    }
    hide ClientOk, Agrees;
  }

  lemma OwnershipGrows(d: D.Service, origin: map<JobId, TaskId>, origin': map<JobId, TaskId>, task: TaskId, t: Thread,
      c: Client, job: JobId)
    requires ClientOk(d, origin, task, t, c) && job !in origin && job in origin'
             && origin' == origin[job := origin'[job]]
    ensures ClientOk(d, origin', task, t, c)
  {
  }

  /** The worker's side of a client's announcement or ending. */
  lemma EchoedEntry(cfg: W.Config, s: System, w: W.Step)
    requires (w.Announce? || w.End?) && W.Enabled(cfg, s.worker, w) && WP.EntryOk(cfg, s.worker.entries[w.id])
    requires s.worker.entries[w.id].task.state != Finished
    ensures var e' := W.Next(cfg, s.worker, w).entries[w.id];
            && e'.task.state != Finished
            && e'.thread == (if w.Announce? then Running(w.phase) else w.how)
            && W.Next(cfg, s.worker, w).entries == s.worker.entries[w.id := e']
  {
    if w.Announce? {
      AnnouncementsAdvance(W.CreateRunner(cfg.runnerUrl, s.worker.entries[w.id].task.mode).value,
        s.worker.entries[w.id].thread.last, w.phase);
    }
    hide Announces, MayReturn;
  }

  /** The client's thread announces or ends, and the client itself moves on. */
  lemma EchoKeepsInv(cfg: W.Config, s: System, w: W.Step, c: Client)
    requires Inv(cfg, s) && (w.Announce? || w.End?) && W.Enabled(cfg, s.worker, w)
    requires w.id in s.clients && !s.clients[w.id].Gone? && JobOf(c) == JobOf(s.clients[w.id])
    requires ClientOk(s.daemon, s.origin, w.id, if w.Announce? then Running(w.phase) else w.how, c)
    requires w.End? ==> !w.how.NotStarted?
    ensures Inv(cfg, s.(worker := W.Next(cfg, s.worker, w), clients := s.clients[w.id := c]))
  {
    OneTask(cfg, s, w.id);
    WP.StepKeepsInv(cfg, s.worker, w);
    NotFinishedYet(s.daemon, s.worker.entries[w.id].task, s.clients[w.id]);
    EchoedEntry(cfg, s, w);
    hide WP.Inv, DP.Inv, WP.EntryOk, W.Next, W.Enabled, Agrees, ClientOk, ClientsOk, ClientsMatchThreads,
      NoClientNotFinished, OneJobEach;
    var e' := W.Next(cfg, s.worker, w).entries[w.id];
    AgreesUntilFinished(s.daemon, e'.task, c);
    OneClient(s.daemon, s.origin, s.worker.entries, s.clients, w.id, e', c);
    FreshJobs(s.daemon, s.origin, s.clients, w.id, c);
  }

  /** After an answer the client stands where the invariant wants it. */
  lemma Reacted(d: D.Service, origin: map<JobId, TaskId>, task: TaskId, t: Thread, c: Client)
    requires c.Holding? && ClientOk(d, origin, task, t, c)
    requires DP.Consistent(d.records[c.job].job) || d.records[c.job].job.state != Finished
    ensures var w := Echo(task, c.view);
            && (w.None? ==> ClientOk(d, origin, task, t, Polling(c.job)))
            && (w.Some? && w.value.Announce? ==>
               ClientOk(d, origin, task, Running(w.value.phase), Polling(c.job)) && t.Running?
                                                 && Announces(DaemonClient, t.last, w.value.phase))
            && (w.Some? && w.value.End? ==> ClientOk(d, origin, task, w.value.how, Gone(Some(c.job))))
            && (w.Some? ==> w.value.Announce? || (w.value.End? && (w.value.how.Returned? || w.value.how.Refused?)))
            && (w.Some? ==> w.value.id == task)
  {
    if c.view.state == Finished {
      FinishedAnswerRebuildsResult(d.records[c.job].job, c.view);
    }
  }

  lemma JobIsConsistent(s: System, job: JobId)
    requires DP.Inv(s.daemon) && job in s.daemon.records
    ensures DP.Consistent(s.daemon.records[job].job) || s.daemon.records[job].job.state != Finished
  {
    assert DP.RecordOk(s.daemon.records[job], D.WorkOn(s.daemon, job));
  }

  lemma HandleKeepsInv(cfg: W.Config, s: System, task: TaskId)
    requires Inv(cfg, s) && Enabled(cfg, s, Handle(task))
    ensures Inv(cfg, Next(cfg, s, Handle(task)))
  {
    hide Inv, WP.EntryOk, Agrees, Echo, W.Enabled, W.Next, DP.Inv, DP.Consistent, ViewOk, D.Enabled;
    ClientHasTask(cfg, s, task);
    OneTask(cfg, s, task);
    DaemonPart(cfg, s);
    var c := s.clients[task];
    var e := s.worker.entries[task];
    JobIsConsistent(s, c.job);
    Reacted(s.daemon, s.origin, task, e.thread, c);
    NotFinishedYet(s.daemon, e.task, c);
    hide ClientOk;
    var echo := Echo(task, c.view);
    if echo.None? {
      AgreesUntilFinished(s.daemon, e.task, Polling(c.job));
      ClientMoves(cfg, s, task, Polling(c.job));
    } else if echo.value.Announce? {
      EchoKeepsInv(cfg, s, echo.value, Polling(c.job));
    } else {
      EchoKeepsInv(cfg, s, echo.value, Gone(Some(c.job)));
    }
  }

  /**
   The worker never refuses what a client has to announce or to end with: the step system does not hold
   clients back.
   */
  lemma ClientsAreNeverHeldBack(cfg: W.Config, s: System, task: TaskId)
    requires Inv(cfg, s) && cfg.runnerUrl && task in s.clients && s.clients[task].Holding?
    ensures Enabled(cfg, s, Handle(task))
  {
    hide Inv, WP.EntryOk, Agrees, DP.Consistent, DP.Inv, W.Enabled, D.Enabled, React, ViewOk;
    ClientHasTask(cfg, s, task);
    OneTask(cfg, s, task);
    DaemonPart(cfg, s);
    var c, e := s.clients[task], s.worker.entries[task];
    JobIsConsistent(s, c.job);
    Reacted(s.daemon, s.origin, task, e.thread, c);
    if Echo(task, c.view).Some? {
      EchoEnabled(cfg, s.worker, Echo(task, c.view).value);
    }
  }

  lemma ClientHasTask(cfg: W.Config, s: System, task: TaskId)
    requires Inv(cfg, s) && task in s.clients
    ensures task in s.worker.entries
  {
    hide WP.Inv, DP.Inv, ClientsOk, OneJobEach, NoClientNotFinished;
  }

  lemma EchoEnabled(cfg: W.Config, w: W.Service, step: W.Step)
    requires cfg.runnerUrl && (step.Announce? || step.End?) && step.id in w.entries
             && w.entries[step.id].thread.Running?
    requires step.Announce? ==> Announces(DaemonClient, w.entries[step.id].thread.last, step.phase)
    requires step.End? ==> step.how.Returned? || step.how.Refused? || step.how.Crashed?
    ensures W.Enabled(cfg, w, step)
  {
    assert W.CreateRunner(cfg.runnerUrl, w.entries[step.id].task.mode) == Some(DaemonClient);
  }

  /** A runner thread refuses and its executor collects that: the task fails with the runner's code. */
  lemma RefusalIsCollected(cfg: W.Config, w: W.Service, task: TaskId, code: ErrorCode, message: string)
    requires cfg.runnerUrl && task in w.entries && w.entries[task].thread.Running? && w.entries[task].executor.Joining?
    requires Joinable(w.entries[task].task.timeout)
    ensures W.Enabled(cfg, w, W.End(task, Refused(code, message)))
    ensures var w1 := W.Next(cfg, w, W.End(task, Refused(code, message)));
            && W.Enabled(cfg, w1, W.Collect(task))
            && var t := W.Next(cfg, w1, W.Collect(task)).entries[task].task;
                 t.state == Failed && t.errorCode == Some(code)
  {
    EchoEnabled(cfg, w, W.End(task, Refused(code, message)));
    hide MayReturn, Announces, W.CreateRunner;
  }

  /** Where the timeout is too long for a join, nothing is collected: the task fails with an internal error. */
  lemma RefusalIsMissed(cfg: W.Config, w: W.Service, task: TaskId, code: ErrorCode, message: string)
    requires cfg.runnerUrl && task in w.entries && w.entries[task].thread.Running? && w.entries[task].executor.Joining?
    requires !Joinable(w.entries[task].task.timeout)
    ensures W.Enabled(cfg, w, W.End(task, Refused(code, message)))
    ensures var w1 := W.Next(cfg, w, W.End(task, Refused(code, message)));
            && W.Enabled(cfg, w1, W.Overflow(task))
            && var w2 := W.Next(cfg, w1, W.Overflow(task));
               && W.Enabled(cfg, w2, W.Normalize(task))
               && var t := W.Next(cfg, w2, W.Normalize(task)).entries[task].task;
                  t.state == Failed && t.errorCode == Some(InternalError)
  {
    EchoEnabled(cfg, w, W.End(task, Refused(code, message)));
    hide MayReturn, Announces, W.CreateRunner;
  }

  lemma DaemonPart(cfg: W.Config, s: System)
    requires Inv(cfg, s)
    ensures DP.Inv(s.daemon)
  {
  }

  lemma AbandonKeepsInv(cfg: W.Config, s: System, task: TaskId, how: Thread)
    requires Inv(cfg, s) && Enabled(cfg, s, Abandon(task, how))
    ensures Inv(cfg, Next(cfg, s, Abandon(task, how)))
  {
    hide Inv, WP.EntryOk, Agrees, W.Enabled, W.Next, D.Enabled, D.Next, ViewOk, IsResult;
    ClientHasTask(cfg, s, task);
    OneTask(cfg, s, task);
    EchoKeepsInv(cfg, s, W.End(task, how), Gone(JobOf(s.clients[task])));
  }

  lemma StepKeepsInv(cfg: W.Config, s: System, step: Step)
    requires Inv(cfg, s) && cfg.runnerUrl && Enabled(cfg, s, step)
    ensures Inv(cfg, Next(cfg, s, step))
  {
    match step
    case WorkerMoves(w) => WorkerMovesKeepsInv(cfg, s, w);
    case DaemonMoves(d) => DaemonMovesKeepsInv(cfg, s, d);
    case Post(task, job, starts) => PostKeepsInv(cfg, s, task, job, starts);
    case Receive(task) => ReceiveKeepsInv(cfg, s, task);
    case Fetch(task) => FetchKeepsInv(cfg, s, task);
    case Handle(task) => HandleKeepsInv(cfg, s, task);
    case Abandon(task, how) => AbandonKeepsInv(cfg, s, task, how);
  }
}
