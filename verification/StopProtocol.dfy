/**
 The audio bot's cancellation: one polling thread admits and stops jobs, one thread a job
 prepares and plays. `_stop` sets the flag and reads the process slot under the lock; the
 converter is started without the lock and re-checked, the player is started under the lock.
 */
module StopProtocol {
  import opened Common

  type User = int
  type JobId = nat
  type Pid = nat

  datatype Process = Process(running: bool, signalled: bool)

  /** Where a job's thread stands. */
  datatype Stage =
    | Downloading
    | Converting               // passed the check after the download, about to start the converter
    | Spawned(pid: Pid)        // converter started, not yet in the slot
    | Assigned(pid: Pid)       // in the slot, the flag not yet re-checked
    | Waiting(pid: Pid)        // for the converter
    | Clearing                 // about to empty the slot
    | Verifying                // vehicle and VPN, after the check that follows the conversion
    | Announcing               // passed the check that follows the verification; about to take the lock
    | Locked                   // has the lock, about to check the flag
    | Cleared                  // has the lock, found the flag unset, about to start the player
    | Started(pid: Pid)        // has the lock, player started, not yet in the slot
    | Stored(pid: Pid)         // has the lock, player in the slot
    | Playing(pid: Pid)
    | Closing                  // about to run the `finally` block
    | Gone

  datatype Job = Job(
    user: User, cancelled: bool, slot: Option<Pid>, stage: Stage,
    converter: Option<Pid>, player: Option<Pid>,
    stopped: bool,             // whether a `_stop` set the flag
    raised: bool)              // whether the thread raised while it played

  /** What the polling thread is in the middle of. */
  datatype Poller =
    | Free
    | Admitting(user: User)                        // found no job for the user
    | Probing(job: JobId, slot: Option<Pid>)       // `_stop` after its locked part
    | Killing(job: JobId, pid: Pid)                // `_stop` found the process running

  /**
   The signal handler, which runs on the polling thread: `stop_all` takes the jobs one by one,
   and reads the process of each three times without the lock; then it ends the polling thread.
   */
  datatype Handler =
    | Resting
    | Sweeping(left: set<JobId>)               // between two jobs
    | Flagged(job: JobId, left: set<JobId>)    // has set the flag, about to see whether there is a process
    | Seen(job: JobId, left: set<JobId>)       // there was one; about to ask whether it runs
    | Alive(job: JobId, left: set<JobId>)      // it ran; about to signal it
    | Exited                                   // the polling thread is gone

  datatype Bot = Bot(
    jobs: map<User, JobId>, table: map<JobId, Job>, processes: map<Pid, Process>,
    lock: Option<JobId>,       // the job thread that holds the lock across steps
    poller: Poller, handler: Handler)

  const INITIAL := Bot(map[], map[], map[], None, Free, Resting)

  datatype Step =
    | Admit(user: User)
    | Begin(job: JobId)
    | Stop(user: User)
    | Probe
    | Kill
    | HandlerStarts
    | HandlerFlags(job: JobId)
    | HandlerLooks
    | HandlerAsks
    | HandlerSignals
    | HandlerExits
    | Move(job: JobId, pid: Pid)     // the job's thread does its next step; `pid` names a process it starts
    | Fail(job: JobId)               // the thread's current call raises
    | Exit(pid: Pid)                 // a process ends

  predicate HoldsLock(stage: Stage) {
    stage.Locked? || stage.Cleared? || stage.Started? || stage.Stored?
  }

  predicate Running(b: Bot, pid: Pid) {
    pid in b.processes && b.processes[pid].running
  }

  /** Whether a job's thread can take its next step. */
  predicate Ready(b: Bot, stage: Stage, pid: Pid) {
    match stage
    case Converting => pid !in b.processes
    case Cleared => pid !in b.processes
    case Waiting(p) => !Running(b, p)
    case Playing(p) => !Running(b, p)
    case Announcing => b.lock.None?
    case Closing => b.lock.None?
    case Gone => false
    case _ => true
  }

  predicate Enabled(b: Bot, step: Step) {
    match step
    case Admit(user) => b.handler.Resting? && b.poller.Free? && b.lock.None?
    case Begin(job) => b.handler.Resting? && b.poller.Admitting? && b.lock.None? && job !in b.table
    case Stop(user) => b.handler.Resting? && b.poller.Free? && b.lock.None?
    case Probe => b.handler.Resting? && b.poller.Probing?
    case Kill => b.handler.Resting? && b.poller.Killing?
    case HandlerStarts => b.handler.Resting? && b.lock.None?
    case HandlerFlags(job) => b.handler.Sweeping? && job in b.handler.left && job in b.table
    case HandlerLooks => b.handler.Flagged? && b.handler.job in b.table
    case HandlerAsks => b.handler.Seen? && b.handler.job in b.table
    case HandlerSignals => b.handler.Alive? && b.handler.job in b.table
    case HandlerExits => b.handler.Sweeping? && b.handler.left == {}
    case Move(job, pid) =>
      job in b.table && Ready(b, b.table[job].stage, pid)
    case Fail(job) => job in b.table && CanRaise(b.table[job].stage)
    case Exit(pid) => Running(b, pid)
  }

  /** Stages at which a download, a check of the vehicle, a message, a process start or a wait can raise. */
  predicate CanRaise(stage: Stage) {
    stage.Downloading? || stage.Converting? || stage.Waiting? || stage.Verifying? || stage.Announcing?
      || stage.Locked? || stage.Cleared? || stage.Playing?
  }

  function Signal(processes: map<Pid, Process>, pid: Pid): map<Pid, Process> {
    if pid in processes && processes[pid].running then processes[pid := Process(true, true)] else processes
  }

  /** A thread's next step, as far as its own job goes. */
  function JobAfter(j: Job, pid: Pid): Job {
    match j.stage
    case Downloading => j.(stage := if j.cancelled then Closing else Converting)
    case Converting => j.(stage := Spawned(pid), converter := Some(pid))
    case Spawned(p) => j.(stage := Assigned(p), slot := Some(p))
    case Assigned(p) => j.(stage := Waiting(p))
    case Waiting(_) => j.(stage := Clearing)
    case Clearing => j.(stage := if j.cancelled then Closing else Verifying, slot := None)
    case Verifying => j.(stage := if j.cancelled then Closing else Announcing)
    case Announcing => j.(stage := Locked)
    case Locked => j.(stage := if j.cancelled then Closing else Cleared)
    case Cleared => j.(stage := Started(pid), player := Some(pid))
    case Started(p) => j.(stage := Stored(p), slot := Some(p))
    case Stored(p) => j.(stage := Playing(p))
    case Playing(_) => j.(stage := Closing)
    case Closing => j.(stage := Gone)
    case Gone => j
  }

  /** It starts the converter or the player, or terminates a converter it finds cancelled. */
  function ProcessesAfter(processes: map<Pid, Process>, j: Job, pid: Pid): map<Pid, Process> {
    if j.stage.Converting? || j.stage.Cleared? then processes[pid := Process(true, false)]
    else if j.stage.Assigned? && j.cancelled then Signal(processes, j.stage.pid)
    else processes
  }

  function MoveJob(b: Bot, id: JobId, pid: Pid): Bot
    requires id in b.table
  {
    var j := b.table[id];
    b.(table := b.table[id := JobAfter(j, pid)],
       processes := ProcessesAfter(b.processes, j, pid),
       lock := if j.stage.Announcing? then Some(id)
               else if j.stage.Stored? || (j.stage.Locked? && j.cancelled) then None
               else b.lock,
       jobs := if j.stage.Closing? && j.user in b.jobs && b.jobs[j.user] == id then b.jobs - {j.user} else b.jobs)
  }

  /** An exception: the converter's own `finally` empties the slot after killing a converter that ran too long. */
  function Raise(b: Bot, id: JobId): Bot
    requires id in b.table
  {
    var j := b.table[id];
    b.(table := b.table[id := j.(stage := Closing, slot := if j.stage.Waiting? then None
      else j.slot, raised := j.raised || j.stage.Playing?)],
       processes := if j.stage.Waiting?
         && j.stage.pid in b.processes then b.processes[j.stage.pid := b.processes[j.stage.pid].(running := false)]
         else b.processes,
       lock := if HoldsLock(j.stage) then None else b.lock)
  }

  function Next(b: Bot, step: Step): Bot
    requires Enabled(b, step)
  {
    match step
    case Admit(user) => b.(poller := if user in b.jobs then Free else Admitting(user))
    case Begin(id) =>
      b.(jobs := b.jobs[b.poller.user := id],
         table := b.table[id := Job(b.poller.user, false, None, Downloading, None, None, false, false)],
         poller := Free)
    case Stop(user) =>
      if user in b.jobs && b.jobs[user] in b.table then
        var id := b.jobs[user];
        b.(table := b.table[id := b.table[id].(cancelled := true, stopped := true)],
          poller := Probing(id, b.table[id].slot))
      else b
    case Probe =>
      b.(poller := if b.poller.slot.Some?
        && Running(b, b.poller.slot.value) then Killing(b.poller.job, b.poller.slot.value) else Free)
    case Kill => b.(processes := Signal(b.processes, b.poller.pid), poller := Free)
    case HandlerStarts => b.(handler := Sweeping(b.jobs.Values))
    case HandlerFlags(id) =>
      b.(table := b.table[id := b.table[id].(cancelled := true)], handler := Flagged(id, b.handler.left - {id}))
    case HandlerLooks =>
      b.(handler := if b.table[b.handler.job].slot.None? then Sweeping(b.handler.left)
        else Seen(b.handler.job, b.handler.left))
    case HandlerAsks =>
      // a slot that is empty by now makes the handler raise
      var slot := b.table[b.handler.job].slot;
      b.(handler := if slot.None? then Exited
                    else if Running(b, slot.value) then Alive(b.handler.job, b.handler.left)
                    else Sweeping(b.handler.left))
    case HandlerSignals =>
      var slot := b.table[b.handler.job].slot;
      if slot.None? then b.(handler := Exited)
      else b.(processes := Signal(b.processes, slot.value), handler := Sweeping(b.handler.left))
    case HandlerExits => b.(handler := Exited)
    case Move(id, pid) => MoveJob(b, id, pid)
    case Fail(id) => Raise(b, id)
    case Exit(pid) => b.(processes := b.processes[pid := b.processes[pid].(running := false)])
  }

  // --- The invariant -------------------------------------------------------------------------------

  /** The job's processes, its stage and its slot fit together. */
  ghost predicate JobOk(b: Bot, id: JobId, j: Job) {
    Fits(b.processes, b.lock == Some(id), j)
  }

  ghost predicate Fits(processes: map<Pid, Process>, hasLock: bool, j: Job) {
    && (hasLock <==> HoldsLock(j.stage))
    && (j.stopped ==> j.cancelled)
    && (j.stage.Cleared? || j.stage.Started? ==> !j.stopped)
    && ConverterFits(processes, j) && PlayerFits(processes, j)
  }

  /** The converter is in the slot while it is waited for, and has ended afterwards. */
  ghost predicate ConverterFits(processes: map<Pid, Process>, j: Job) {
    && (j.converter.Some? ==> j.converter.value in processes)
    && (j.stage.Downloading? || j.stage.Converting? ==> j.converter.None?)
    && (j.stage.Spawned? || j.stage.Assigned? || j.stage.Waiting? ==> j.converter == Some(j.stage.pid))
    && (j.stage.Assigned? || j.stage.Waiting? ==> j.slot == Some(j.stage.pid))
    && (j.converter.Some? && !j.stage.Spawned? && !j.stage.Assigned? && !j.stage.Waiting? ==>
       !processes[j.converter.value].running)
  }

  /** The player is in the slot from the moment the lock is released. */
  ghost predicate PlayerFits(processes: map<Pid, Process>, j: Job) {
    && (j.player.Some? ==> j.player.value in processes)
    && (j.player.Some? ==> j.stage.Started? || j.stage.Stored? || j.stage.Playing? || j.stage.Closing? || j.stage.Gone?)
    && (j.stage.Started? || j.stage.Stored? || j.stage.Playing? ==> j.player == Some(j.stage.pid))
    && (j.stage.Stored? || j.stage.Playing? ==> j.slot == Some(j.stage.pid))
    && (j.player.Some? && (j.stage.Closing? || j.stage.Gone?) ==> j.slot == j.player)
    && (j.raised ==> j.player.Some? && (j.stage.Closing? || j.stage.Gone?))
    && (j.player.Some? && (j.stage.Closing? || j.stage.Gone?) && processes[j.player.value].running ==> j.raised)
    && (j.stage.Verifying? || j.stage.Announcing? || j.stage.Locked? || j.stage.Cleared? || j.stage.Started? ==>
       j.slot.None?)
  }

  /** A `_stop` in progress owes this process a signal. */
  ghost predicate Owed(b: Bot, pid: Pid) {
    (b.poller.Probing? && b.poller.slot == Some(pid)) || (b.poller.Killing? && b.poller.pid == pid)
  }

  /** The process has ended, was signalled, or will be: by the `_stop` under way or by the thread's own re-check. */
  ghost predicate Doomed(b: Bot, j: Job, pid: Pid) {
    pid in b.processes ==>
      || !b.processes[pid].running || b.processes[pid].signalled || Owed(b, pid)
      || ((j.stage.Spawned? || j.stage.Assigned?) && j.stage.pid == pid)
  }

  ghost predicate StoppedOk(b: Bot, j: Job) {
    j.stopped ==>
         (j.converter.Some? ==> Doomed(b, j, j.converter.value)) && (j.player.Some? ==> Doomed(b, j, j.player.value))
  }

  ghost predicate TableOk(b: Bot) {
    forall id :: id in b.table ==> JobOk(b, id, b.table[id]) && StoppedOk(b, b.table[id])
  }

  /** Every job whose thread still lives is its user's job in the table of jobs. */
  ghost predicate OneJobPerUser(b: Bot) {
    && (forall user :: user in b.jobs ==>
          b.jobs[user] in b.table && b.table[b.jobs[user]].user == user && !b.table[b.jobs[user]].stage.Gone?)
    && (forall id :: id in b.table && !b.table[id].stage.Gone? ==>
       b.table[id].user in b.jobs && b.jobs[b.table[id].user] == id)
    && (b.poller.Admitting? ==> b.poller.user !in b.jobs)
  }

  ghost predicate Inv(b: Bot) {
    TableOk(b) && OneJobPerUser(b) && (b.lock.Some? ==> b.lock.value in b.table)
  }

  // --- Steps -------------------------------------------------------------------------------------------

  /** No process comes back to life or loses a signal. */
  ghost predicate Ages(p: map<Pid, Process>, p': map<Pid, Process>) {
    forall pid :: pid in p ==>
         pid in p' && (p'[pid].running ==> p[pid].running) && (p[pid].signalled ==> p'[pid].signalled)
  }

  /** What the others owe to a step of one job: nothing they rely on changed. */
  lemma OthersKeep(b: Bot, b': Bot, id: JobId, other: JobId)
    requires TableOk(b) && other in b.table && other != id && Ages(b.processes, b'.processes)
    requires b'.poller == b.poller
    requires b.lock == Some(other) <==> b'.lock == Some(other)
    ensures JobOk(b', other, b.table[other]) && StoppedOk(b', b.table[other])
  {
    assert JobOk(b, other, b.table[other]) && StoppedOk(b, b.table[other]);
  }

  lemma OneJobMoves(b: Bot, b': Bot, id: JobId)
    requires TableOk(b) && id in b.table && id in b'.table && b'.table == b.table[id := b'.table[id]]
    requires Ages(b.processes, b'.processes) && b'.poller == b.poller
    requires forall other :: other in b.table && other != id ==> (b.lock == Some(other) <==> b'.lock == Some(other))
    requires JobOk(b', id, b'.table[id]) && StoppedOk(b', b'.table[id])
    ensures TableOk(b')
  {
    forall other | other in b'.table ensures JobOk(b', other, b'.table[other]) && StoppedOk(b', b'.table[other]) {
      if other != id {
        OthersKeep(b, b', id, other);
      }
    }
  }

  lemma MoveAges(b: Bot, id: JobId, pid: Pid)
    requires Enabled(b, Move(id, pid))
    ensures Ages(b.processes, ProcessesAfter(b.processes, b.table[id], pid))
  {
  }

  lemma MoveIsLocal(b: Bot, id: JobId, pid: Pid)
    requires Enabled(b, Move(id, pid)) && JobOk(b, id, b.table[id]) && (b.lock.Some? ==> b.lock.value in b.table)
    ensures var b' := MoveJob(b, id, pid);
            && (forall other :: other in b.table && other != id ==> (b.lock == Some(other) <==> b'.lock == Some(other)))
            && (b'.lock.Some? ==> b'.lock.value in b'.table)
            && b'.table[id].user == b.table[id].user
            && (b'.table[id].stage.Gone? <==> b.table[id].stage.Closing?)
  {
    hide ProcessesAfter;
  }

  lemma ConverterMoves(processes: map<Pid, Process>, j: Job, pid: Pid)
    requires ConverterFits(processes, j)
    requires (j.stage.Converting? || j.stage.Cleared?) ==> pid !in processes
    requires j.stage.Waiting? && j.stage.pid in processes ==> !processes[j.stage.pid].running
    ensures ConverterFits(ProcessesAfter(processes, j, pid), JobAfter(j, pid))
  {
  }

  lemma PlayerMoves(processes: map<Pid, Process>, j: Job, pid: Pid)
    requires PlayerFits(processes, j)
    requires j.stage.Playing? && j.stage.pid in processes ==> !processes[j.stage.pid].running
    ensures PlayerFits(ProcessesAfter(processes, j, pid), JobAfter(j, pid))
  {
  }

  lemma MoveKeepsJob(b: Bot, id: JobId, pid: Pid)
    requires Enabled(b, Move(id, pid)) && JobOk(b, id, b.table[id])
    ensures var b' := MoveJob(b, id, pid); JobOk(b', id, b'.table[id])
  {
    ConverterMoves(b.processes, b.table[id], pid);
    PlayerMoves(b.processes, b.table[id], pid);
    hide ConverterFits, PlayerFits, ProcessesAfter;
  }

  lemma MoveKeepsStopped(b: Bot, id: JobId, pid: Pid)
    requires Enabled(b, Move(id, pid)) && JobOk(b, id, b.table[id]) && StoppedOk(b, b.table[id])
    ensures var b' := MoveJob(b, id, pid); StoppedOk(b', b'.table[id])
  {
    var j := b.table[id];
    match j.stage
    case Converting =>
    case Cleared =>
    case Assigned(_) =>
    case _ =>
  }

  lemma MoveKeepsUsers(b: Bot, b': Bot, id: JobId)
    requires OneJobPerUser(b) && id in b.table && id in b'.table && b'.table == b.table[id := b'.table[id]]
             && b'.poller == b.poller
    requires b'.table[id].user == b.table[id].user && !b.table[id].stage.Gone?
    requires b'.table[id].stage.Gone? ==> b'.jobs == b.jobs - {b.table[id].user}
    requires !b'.table[id].stage.Gone? ==> b'.jobs == b.jobs
    ensures OneJobPerUser(b')
  {
  }

  lemma MoveKeepsInv(b: Bot, id: JobId, pid: Pid)
    requires Inv(b) && Enabled(b, Move(id, pid))
    ensures Inv(Next(b, Move(id, pid)))
  {
    var b' := MoveJob(b, id, pid);
    assert JobOk(b, id, b.table[id]) && StoppedOk(b, b.table[id]);
    assert !b.table[id].stage.Gone?;
    assert b.jobs[b.table[id].user] == id;
    assert b'.jobs == if b.table[id].stage.Closing? then b.jobs - {b.table[id].user} else b.jobs;
    MoveIsLocal(b, id, pid);
    MoveAges(b, id, pid);
    MoveKeepsJob(b, id, pid);
    MoveKeepsStopped(b, id, pid);
    hide JobOk, StoppedOk, TableOk, OneJobPerUser, ProcessesAfter, JobAfter, Ages, Enabled;
    OneJobMoves(b, b', id);
    MoveKeepsUsers(b, b', id);
  }

  lemma RaiseKeepsJob(b: Bot, id: JobId)
    requires Enabled(b, Fail(id)) && JobOk(b, id, b.table[id]) && StoppedOk(b, b.table[id])
    ensures var b' := Raise(b, id);
              JobOk(b', id, b'.table[id]) && StoppedOk(b', b'.table[id]) && Ages(b.processes, b'.processes)
  {
  }

  lemma RaiseKeepsInv(b: Bot, id: JobId)
    requires Inv(b) && Enabled(b, Fail(id))
    ensures Inv(Next(b, Fail(id)))
  {
    var b' := Raise(b, id);
    assert JobOk(b, id, b.table[id]) && StoppedOk(b, b.table[id]);
    hide JobOk, StoppedOk, TableOk, OneJobPerUser, Ages;
    RaiseKeepsJob(b, id);
    OneJobMoves(b, b', id);
    MoveKeepsUsers(b, b', id);
  }

  /** Processes end or are signalled; nothing else changes. */
  lemma ProcessesAge(b: Bot, b': Bot)
    requires Inv(b) && b' == b.(processes := b'.processes) && Ages(b.processes, b'.processes)
    ensures Inv(b')
  {
    forall id | id in b'.table ensures JobOk(b', id, b'.table[id]) && StoppedOk(b', b'.table[id]) {
      assert JobOk(b, id, b.table[id]) && StoppedOk(b, b.table[id]);
    }
    hide TableOk;
  }

  /** A `_stop` settles what it owed. */
  lemma PollerMovesOn(b: Bot, b': Bot)
    requires Inv(b) && b' == b.(processes := b'.processes, poller := b'.poller) && Ages(b.processes, b'.processes)
    requires !b'.poller.Admitting?
    requires forall pid :: Owed(b, pid) && pid in b.processes ==>
             Owed(b', pid) || !b'.processes[pid].running || b'.processes[pid].signalled
    ensures Inv(b')
  {
    forall id | id in b'.table ensures JobOk(b', id, b'.table[id]) && StoppedOk(b', b'.table[id]) {
      assert JobOk(b, id, b.table[id]) && StoppedOk(b, b.table[id]);
    }
    hide TableOk;
  }

  lemma StopKeepsInv(b: Bot, user: User)
    requires Inv(b) && Enabled(b, Stop(user))
    ensures Inv(Next(b, Stop(user)))
  {
    if user in b.jobs {
      var id := b.jobs[user];
      var b' := Next(b, Stop(user));
      assert JobOk(b, id, b.table[id]) && StoppedOk(b, b.table[id]);
      assert JobOk(b', id, b'.table[id]) && StoppedOk(b', b'.table[id]);
      forall other | other in b'.table ensures JobOk(b', other, b'.table[other]) && StoppedOk(b', b'.table[other]) {
        if other != id {
          assert JobOk(b, other, b.table[other]) && StoppedOk(b, b.table[other]);
        }
      }
      hide JobOk, StoppedOk;
    }
  }

  lemma BeginKeepsInv(b: Bot, id: JobId)
    requires Inv(b) && Enabled(b, Begin(id))
    ensures Inv(Next(b, Begin(id)))
  {
    var b' := Next(b, Begin(id));
    forall other | other in b'.table ensures JobOk(b', other, b'.table[other]) && StoppedOk(b', b'.table[other]) {
      if other != id {
        assert JobOk(b, other, b.table[other]) && StoppedOk(b, b.table[other]);
      }
    }
    hide JobOk, StoppedOk;
  }

  lemma HandlerKeepsInv(b: Bot, id: JobId)
    requires Inv(b) && Enabled(b, HandlerFlags(id))
    ensures Inv(Next(b, HandlerFlags(id)))
  {
    var b' := Next(b, HandlerFlags(id));
    forall other | other in b'.table ensures JobOk(b', other, b'.table[other]) && StoppedOk(b', b'.table[other]) {
      assert JobOk(b, other, b.table[other]) && StoppedOk(b, b.table[other]);
    }
    hide JobOk, StoppedOk;
  }

  lemma StepKeepsInv(b: Bot, step: Step)
    requires Inv(b) && Enabled(b, step)
    ensures Inv(Next(b, step))
  {
    match step
    case Admit(_) =>
      forall id | id in b.table ensures JobOk(Next(b, step), id, b.table[id]) && StoppedOk(Next(b, step), b.table[id]) {
        assert JobOk(b, id, b.table[id]) && StoppedOk(b, b.table[id]);
      }
      hide JobOk, StoppedOk;
    case Begin(id) => BeginKeepsInv(b, id); hide Inv;
    case Stop(user) => StopKeepsInv(b, user); hide Inv;
    case Probe => PollerMovesOn(b, Next(b, step)); hide Inv;
    case Kill => PollerMovesOn(b, Next(b, step)); hide Inv;
    case HandlerFlags(id) => HandlerKeepsInv(b, id); hide Inv;
    case HandlerSignals =>
      ProcessesAge(b, Next(b, step).(handler := b.handler));
      SameButHandler(Next(b, step).(handler := b.handler), Next(b, step));
      hide Inv;
    case HandlerStarts => SameButHandler(b, Next(b, step)); hide Inv;
    case HandlerLooks => SameButHandler(b, Next(b, step)); hide Inv;
    case HandlerAsks => SameButHandler(b, Next(b, step)); hide Inv;
    case HandlerExits => SameButHandler(b, Next(b, step)); hide Inv;
    case Move(id, pid) => MoveKeepsInv(b, id, pid); hide Inv;
    case Fail(id) => RaiseKeepsInv(b, id); hide Inv;
    case Exit(_) => ProcessesAge(b, Next(b, step)); hide Inv;
  }

  lemma SameButHandler(b: Bot, b': Bot)
    requires Inv(b) && b' == b.(handler := b'.handler)
    ensures Inv(b')
  {
    forall id | id in b'.table ensures JobOk(b', id, b'.table[id]) && StoppedOk(b', b'.table[id]) {
      assert JobOk(b, id, b.table[id]) && StoppedOk(b, b.table[id]);
    }
    hide TableOk;
  }

  // --- Whole runs ----------------------------------------------------------------------------------------

  ghost predicate Execution(states: seq<Bot>, steps: seq<Step>) {
    && |states| == |steps| + 1 && states[0] == INITIAL
    && forall i :: 0 <= i < |steps| ==> Enabled(states[i], steps[i]) && states[i + 1] == Next(states[i], steps[i])
  }

  lemma {:induction false} ExecutionKeepsInv(states: seq<Bot>, steps: seq<Step>, i: nat)
    requires Execution(states, steps) && i < |states|
    ensures Inv(states[i])
  {
    if i > 0 {
      ExecutionKeepsInv(states, steps, i - 1);
      StepKeepsInv(states[i - 1], steps[i - 1]);
      hide Inv;
    }
  }

  /**
   Once a `_stop` has set a job's flag, in every interleaving each converter or player of that
   job was never started, has ended, was signalled, is about to be signalled by that `_stop`
   (if the signal handler does not end the polling thread before), or is about to be terminated
   by the job's own re-check; and when that `_stop` is over and the re-check done, nothing of
   the job runs unsignalled.
   */
  lemma StopReachesEveryProcess(states: seq<Bot>, steps: seq<Step>, i: nat, id: JobId, pid: Pid)
    requires Execution(states, steps) && i < |states| && id in states[i].table && states[i].table[id].stopped
    requires states[i].table[id].converter == Some(pid) || states[i].table[id].player == Some(pid)
    ensures pid in states[i].processes && Doomed(states[i], states[i].table[id], pid)
    ensures states[i].poller.Free? && !states[i].table[id].stage.Spawned? && !states[i].table[id].stage.Assigned? ==>
              !states[i].processes[pid].running || states[i].processes[pid].signalled
  {
    ExecutionKeepsInv(states, steps, i);
    assert JobOk(states[i], id, states[i].table[id]) && StoppedOk(states[i], states[i].table[id]);
    hide Inv, Enabled, Next;
  }

  /** A stopped job never starts its player any more. */
  lemma StoppedJobsStayStopped(states: seq<Bot>, steps: seq<Step>, i: nat, id: JobId)
    requires Execution(states, steps) && i < |steps| && id in states[i].table && states[i].table[id].stopped
    ensures id in states[i + 1].table && states[i + 1].table[id].stopped
            && states[i + 1].table[id].player == states[i].table[id].player
  {
    ExecutionKeepsInv(states, steps, i);
    assert JobOk(states[i], id, states[i].table[id]);
    StopIsForGood(states[i], steps[i], id);
    hide Inv, Enabled, Next;
  }

  lemma StopIsForGood(b: Bot, step: Step, id: JobId)
    requires Enabled(b, step) && id in b.table && b.table[id].stopped && JobOk(b, id, b.table[id])
    ensures var b' := Next(b, step); id in b'.table && b'.table[id].stopped && b'.table[id].player == b.table[id].player
  {
    hide ConverterFits, PlayerFits, ProcessesAfter, Signal;
  }

  /** A converter it had still started is terminated by the thread's own next step, unless it has ended. */
  lemma RecheckTerminates(b: Bot, id: JobId, pid: Pid, any: Pid)
    requires Inv(b) && id in b.table && b.table[id].cancelled && b.table[id].stage == Assigned(pid)
    ensures var b' := Next(b, Move(id, any));
              pid in b'.processes && (!b'.processes[pid].running || b'.processes[pid].signalled)
  {
    assert JobOk(b, id, b.table[id]);
    hide TableOk, OneJobPerUser, StoppedOk;
  }

  /** Two jobs of one user never live at the same time. */
  lemma OneLiveJobPerUser(states: seq<Bot>, steps: seq<Step>, i: nat, a: JobId, b: JobId)
    requires Execution(states, steps) && i < |states| && a in states[i].table && b in states[i].table
    requires !states[i].table[a].stage.Gone? && !states[i].table[b].stage.Gone?
             && states[i].table[a].user == states[i].table[b].user
    ensures a == b
  {
    ExecutionKeepsInv(states, steps, i);
    hide TableOk;
  }

  /** The flag is set by nothing but an exception in a thread that plays. */
  lemma RaisedOnlyWhilePlaying(b: Bot, step: Step, id: JobId)
    requires Enabled(b, step) && id in b.table
    ensures id in Next(b, step).table
    ensures Next(b, step).table[id].raised <==> b.table[id].raised || (step == Fail(id) && b.table[id].stage.Playing?)
  {
    hide ProcessesAfter, Signal;
  }

  /** Within the first `i` steps, the thread of a job raised while it played. */
  ghost predicate RaisedPlaying(states: seq<Bot>, steps: seq<Step>, i: nat, id: JobId)
    requires i <= |steps| && i <= |states|
  {
    exists k :: 0 <= k < i && steps[k] == Fail(id) && PlaysIn(states[k], id)
  }

  predicate PlaysIn(b: Bot, id: JobId) {
    id in b.table && b.table[id].stage.Playing?
  }

  /** That is what the flag remembers. */
  lemma {:induction false} FlagRemembers(states: seq<Bot>, steps: seq<Step>, i: nat, id: JobId)
    requires Execution(states, steps) && i < |states|
    ensures RaisedPlaying(states, steps, i, id) <==> id in states[i].table && states[i].table[id].raised
  {
    if i > 0 {
      FlagRemembers(states, steps, i - 1, id);
      if id in states[i - 1].table {
        RaisedOnlyWhilePlaying(states[i - 1], steps[i - 1], id);
      } else {
        NewJobHasNotRaised(states[i - 1], steps[i - 1], id);
      }
      OneStepMore(states, steps, i, id);
      hide Enabled, Next, PlaysIn, RaisedPlaying;
    }
  }

  lemma OneStepMore(states: seq<Bot>, steps: seq<Step>, i: nat, id: JobId)
    requires 0 < i <= |steps| && i <= |states|
    ensures RaisedPlaying(states, steps, i, id) <==>
              RaisedPlaying(states, steps, i - 1, id) || (steps[i - 1] == Fail(id) && PlaysIn(states[i - 1], id))
  {
  }

  lemma NewJobHasNotRaised(b: Bot, step: Step, id: JobId)
    requires Enabled(b, step) && id !in b.table
    ensures step != Fail(id) && (id in Next(b, step).table ==> !Next(b, step).table[id].raised)
  {
    hide ProcessesAfter, Signal;
  }

  /**
   Which players `_stop` can reach: a player that runs has its job in the table of jobs, and not
   about to be removed, unless at some earlier step its thread raised while it played. As long as it
   is there, a `_stop` of its user finds the job and owes the player its signal.
   */
  lemma RunningPlayerIsInReach(states: seq<Bot>, steps: seq<Step>, i: nat, id: JobId, pid: Pid)
    requires Execution(states, steps) && i < |states| && id in states[i].table
    requires states[i].table[id].player == Some(pid) && Running(states[i], pid)
    ensures var b := states[i];
            var j := b.table[id];
            && (RaisedPlaying(states, steps, i, id) <==>
                  j.user !in b.jobs || b.jobs[j.user] != id || j.stage.Closing?)
            && (!RaisedPlaying(states, steps, i, id) && Enabled(b, Stop(j.user)) ==>
                  Next(b, Stop(j.user)).poller == Probing(id, Some(pid)))
  {
    ExecutionKeepsInv(states, steps, i);
    FlagRemembers(states, steps, i, id);
    hide RaisedPlaying;
    assert JobOk(states[i], id, states[i].table[id]);
    hide StoppedOk, TableOk;
  }

  /**
   Once the signal handler has started, the polling thread does nothing more: a `_stop` it interrupted
   stays unfinished.
   */
  lemma {:induction false} HandlerEndsPolling(states: seq<Bot>, steps: seq<Step>, i: nat, j: nat)
    requires Execution(states, steps) && i <= j < |states| && !states[i].handler.Resting?
    ensures !states[j].handler.Resting? && states[j].poller == states[i].poller
  {
    if i < j {
      HandlerEndsPolling(states, steps, i, j - 1);
      PollerIsFrozen(states[j - 1], steps[j - 1]);
      hide Enabled, Next;
    }
  }

  lemma PollerIsFrozen(b: Bot, step: Step)
    requires Enabled(b, step) && !b.handler.Resting?
    ensures !Next(b, step).handler.Resting? && Next(b, step).poller == b.poller
  {
    hide JobAfter, ProcessesAfter, Signal, Ready;
  }

  /**
   What `_stop` cannot reach: when a message of the playing thread raises, the thread's `finally`
   block takes the job out of the table while its player runs on, and a later `_stop` finds no job.
   */
  lemma FailedMessageOrphansPlayer(b: Bot, id: JobId, pid: Pid, any: Pid)
    requires Inv(b) && b.lock.None? && id in b.table && b.table[id].stage == Playing(pid) && Running(b, pid)
    ensures Enabled(b, Fail(id))
    ensures var b1 := Next(b, Fail(id));
            && Enabled(b1, Move(id, any))
            && var b2 := Next(b1, Move(id, any));
               && b.table[id].user !in b2.jobs && Running(b2, pid) && b2.processes == b.processes
               && b2.poller == b.poller && b2.lock.None? && b2.handler == b.handler
               && id in b2.table && b2.table[id].player == Some(pid) && b2.table[id].raised
  {
    assert JobOk(b, id, b.table[id]);
    hide TableOk, StoppedOk, Fits;
  }
}
