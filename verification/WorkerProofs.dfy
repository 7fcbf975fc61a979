/** What every step of the worker keeps, and what follows for whole runs. */
module WorkerProofs {
  import opened Common
  import opened Phases
  import opened RateLimits
  import opened Worker

  type Entries = map<TaskId, Entry>

  /** A task nobody has decided about yet. */
  ghost predicate Undecided(t: Task) {
    && !Terminal(t.state) && t.state != Queued && t.state != Cancelled && t.phase == t.state
    && t.summary == None && t.data == map[] && t.artifacts == [] && t.warnings == []
    && t.errorCode == None && t.message == None && t.finishedAt == None
    && (t.state == Created <==> t.startedAt == None)
  }

  /** A task whose outcome is recorded. */
  ghost predicate Decided(t: Task) {
    && Terminal(t.state) && t.phase == t.state
    && t.startedAt.Some? && t.finishedAt.Some?
    && (t.state == Finished <==> t.errorCode == None)
    && (t.state == Finished <==> t.summary.Some?)
  }

  /** What the executor raised: the exception of its runner thread, a join's, or that of a start without a thread. */
  ghost predicate RaisedFor(e: Entry)
    requires e.executor.Raising?
  {
    || e.thread == Crashed(e.executor.text)
    || (!Joinable(e.task.timeout) && e.executor.text == TOO_LONG)
    || e.thread.NotStarted?
  }

  /** A timeout too long for a join spoils the task. */
  ghost predicate Spoilt(t: Task) {
    !Joinable(t.timeout) ==> t.state == Failed && t.errorCode == Some(InternalError)
  }

  ghost predicate EntryOk(cfg: Config, e: Entry) {
    match e.executor
    case Unborn => Undecided(e.task) && e.task.state == Created && e.thread == NotStarted
    case Loading => Undecided(e.task) && e.task.state == Created && e.thread == NotStarted
    case Creating => Undecided(e.task) && e.task.state == Created && e.thread == NotStarted
    case Joining =>
      && Undecided(e.task) && e.thread != NotStarted && CreateRunner(cfg.runnerUrl, e.task.mode).Some?
      && (e.thread.Running? ==> e.task.state == e.thread.last)
    case Raising(_) =>
      && Undecided(e.task)
      && (e.thread.Running? ==> e.task.state == e.thread.last)
      && RaisedFor(e)
    case Finalising => Decided(e.task) && Spoilt(e.task)
    case Ended => Decided(e.task) && Spoilt(e.task)
  }

  ghost predicate EntriesOk(cfg: Config, entries: Entries) {
    forall id :: id in entries ==> EntryOk(cfg, entries[id])
  }

  ghost predicate TablesAgree(entries: Entries, byRequest: map<RequestId, TaskId>) {
    && (forall id :: id in entries ==>
          entries[id].task.requestId in byRequest && byRequest[entries[id].task.requestId] == id)
    && (forall r :: r in byRequest ==> byRequest[r] in entries && entries[byRequest[r]].task.requestId == r)
  }

  ghost predicate OneActive(entries: Entries) {
    forall a, b ::
      a in entries && b in entries && !Terminal(entries[a].task.state) && !Terminal(entries[b].task.state) ==>
         a == b
  }

  ghost predicate SecretsLedger(entries: Entries, stored: set<TaskId>) {
    forall id :: id in stored <==> id in entries && !entries[id].executor.Ended?
  }

  ghost predicate Recorded(audit: seq<AuditRecord>, id: TaskId) {
    exists i :: 0 <= i < |audit| && audit[i].task == id
  }

  /** The record is of a finalised task and says what the task says. */
  ghost predicate RecordHolds(entries: Entries, r: AuditRecord) {
    r.task in entries && entries[r.task].executor.Ended? && r == AuditOf(r.task, entries[r.task].task, 0.0)
  }

  /** At most one record a task, true of the task now; exactly one for each finalised task whose write did not fail. */
  ghost predicate AuditLedger(entries: Entries, audit: seq<AuditRecord>, unaudited: set<TaskId>) {
    && (forall i :: 0 <= i < |audit| ==> RecordHolds(entries, audit[i]))
    && (forall i, j :: 0 <= i < j < |audit| ==> audit[i].task != audit[j].task)
    && (forall id :: id in entries && entries[id].executor.Ended? ==> (Recorded(audit, id) <==> id !in unaudited))
    && (forall id :: id in unaudited ==> id in entries && entries[id].executor.Ended?)
  }

  ghost predicate OneThreadEach(entries: Entries, threads: seq<TaskId>) {
    && (forall id :: id in entries && !entries[id].executor.Unborn? <==> id in threads)
    && (forall i, j :: 0 <= i < j < |threads| ==> threads[i] != threads[j])
  }

  /** The task is the one that was asked for. */
  ghost predicate IsAsked(t: Task, call: CreateCall) {
    && call.requestId == Some(t.requestId) && call.user == Some(t.user) && call.fingerprint == t.fingerprint
    && call.body.Some? && t.mode == call.body.value.mode && t.timeout == call.body.value.timeout > 0
  }

  /** A reply that named a task still names the task of its request id, created from the same body. */
  ghost predicate ReplyHolds(entries: Entries, byRequest: map<RequestId, TaskId>, call: CreateCall, reply: Reply) {
    !reply.Rejected? ==>
      && call.requestId.Some? && call.requestId.value in byRequest && byRequest[call.requestId.value] == reply.task
      && reply.task in entries && entries[reply.task].task.fingerprint == call.fingerprint
      && (Makes(reply) ==> IsAsked(entries[reply.task].task, call))
  }

  ghost predicate RepliesHold(entries: Entries, byRequest: map<RequestId, TaskId>, replies: seq<(CreateCall, Reply)>) {
    forall i :: 0 <= i < |replies| ==> ReplyHolds(entries, byRequest, replies[i].0, replies[i].1)
  }

  ghost predicate Budget(cfg: Config, accepted: seq<Call>, clock: real) {
    Ordered(accepted, clock) && Earned(cfg.globalLimit, cfg.userLimit, accepted)
  }

  ghost predicate Inv(cfg: Config, s: Service) {
    && EntriesOk(cfg, s.entries)
    && TablesAgree(s.entries, s.byRequest)
    && OneActive(s.entries)
    && SecretsLedger(s.entries, s.secrets.Keys)
    && AuditLedger(s.entries, s.audit, s.unaudited)
    && OneThreadEach(s.entries, s.threads)
    && RepliesHold(s.entries, s.byRequest, s.replies)
    && Budget(cfg, s.accepted, s.clock)
  }

  lemma InitialInv(cfg: Config, clock: real)
    ensures Inv(cfg, Initial(clock))
  {
  }

  // --- Steps on one task -----------------------------------------------------------

  predicate NamesTask(step: Step) {
    !step.Tick? && !step.Create?
  }

  ghost predicate SameRequest(t: Task, t': Task) {
    && t'.requestId == t.requestId && t'.user == t.user && t'.fingerprint == t.fingerprint && t'.mode == t.mode
    && t'.timeout == t.timeout && t'.createdAt == t.createdAt
  }

  /** A task step seen locally: the entry stays well formed, an outcome is never rewritten, the rank never falls. */
  ghost predicate Advance(cfg: Config, e: Entry, e': Entry, ended: bool) {
    && EntryOk(cfg, e')
    && (Terminal(e.task.state) ==> e'.task == e.task)
    && Rank(e.task.state) <= Rank(e'.task.state)
    && SameRequest(e.task, e'.task)
    && (e'.executor.Ended? <==> e.executor.Ended? || ended)
    && (e'.executor.Unborn? <==> e.executor.Unborn?)
    && (ended ==> !e.executor.Ended?)
  }

  ghost predicate DecidedFrom(t: Task, t': Task) {
    Decided(t') && Rank(t.state) <= Rank(t'.state) && SameRequest(t, t')
  }

  /** Each of the executor's closing writes decides an undecided task and leaves its identity alone. */
  lemma ClosingWritesDecide(t: Task, r: RunnerResult, code: ErrorCode, text: string, now: real)
    requires Undecided(t)
    ensures DecidedFrom(t, TimedOut(t, now)) && DecidedFrom(t, RunnerRefused(t, code, text, now))
    ensures DecidedFrom(t, Completed(t, r, now)) && DecidedFrom(t, Normalized(t, text, now))
  {
  }

  lemma AnnouncedStaysUndecided(t: Task, phase: Phase, text: string, now: real)
    requires Undecided(t) && Working(phase)
    ensures var t' := t.SetState(phase, text, now);
            Undecided(t') && t'.state == phase && SameRequest(t, t')
  {
  }

  lemma ClosingStep(cfg: Config, e: Entry, hasSecret: bool, step: Step, now: real)
    requires EntryOk(cfg, e) && (step.GiveUp? || step.Collect? || step.Normalize?)
    requires step.Normalize? ==> e.executor.Raising?
    requires step.GiveUp? || step.Collect? ==> e.executor.Joining? && Joinable(e.task.timeout)
    requires step.GiveUp? <==> !step.Normalize? && e.thread.Running?
    ensures Advance(cfg, e, EntryAfter(cfg, e, hasSecret, step, now), false)
  {
    var nothing := RunnerResult("", map[], [], []);
    hide TimedOut, RunnerRefused, Completed, Normalized, WithoutResult, Announces, CreateRunner, DecidedFrom,
      Undecided, Decided;
    assert EntryOk(cfg, e);
    var e' := EntryAfter(cfg, e, hasSecret, step, now);
    if step.Normalize? {
      ClosingWritesDecide(e.task, nothing, InternalError, e.executor.text, now);
      NormalizedCode(e.task, e.executor.text, now);
    } else if step.GiveUp? {
      ClosingWritesDecide(e.task, nothing, InternalError, "", now);
    } else {
      match e.thread
      case Returned(r) => ClosingWritesDecide(e.task, r, InternalError, "", now);
      case Refused(code, text) => ClosingWritesDecide(e.task, nothing, code, text, now);
      case _ =>
    }
    assert e'.task == e.task || DecidedFrom(e.task, e'.task);
    Closed(cfg, e, e');
  }

  lemma NormalizedCode(t: Task, text: string, now: real)
    ensures Normalized(t, text, now).errorCode == Some(InternalError) && Normalized(t, text, now).state == Failed
  {
  }

  lemma Closed(cfg: Config, e: Entry, e': Entry)
    requires EntryOk(cfg, e) && Undecided(e.task) && !e.executor.Ended? && !e.executor.Unborn?
    requires (e'.task == e.task && e'.executor.Raising? && !e'.thread.Running? && RaisedFor(e'))
             || (DecidedFrom(e.task, e'.task) && e'.executor.Finalising?
                 && (Joinable(e.task.timeout) || (e'.task.state == Failed && e'.task.errorCode == Some(InternalError))))
    ensures Advance(cfg, e, e', false)
  {
  }

  lemma AnnounceStep(cfg: Config, e: Entry, hasSecret: bool, step: Step, now: real)
    requires EntryOk(cfg, e) && step.Announce? && e.thread.Running? && CreateRunner(cfg.runnerUrl, e.task.mode).Some?
    requires Announces(CreateRunner(cfg.runnerUrl, e.task.mode).value, e.thread.last, step.phase)
    ensures Advance(cfg, e, EntryAfter(cfg, e, hasSecret, step, now), false)
  {
    AnnouncementsAdvance(CreateRunner(cfg.runnerUrl, e.task.mode).value, e.thread.last, step.phase);
    if !Terminal(e.task.state) {
      AnnouncedStaysUndecided(e.task, step.phase, step.text, now);
    }
    hide Announces, Undecided;
  }

  lemma OtherStep(cfg: Config, e: Entry, hasSecret: bool, step: Step, now: real)
    requires EntryOk(cfg, e) && (step.Load? || step.Launch? || step.Overflow? || step.Finalise? || step.End?)
    requires step.Load? ==> e.executor.Loading? && hasSecret
    requires step.Launch? ==> e.executor.Creating?
    requires step.Overflow? ==> e.executor.Joining? && !Joinable(e.task.timeout)
    requires step.Finalise? ==> e.executor.Finalising?
    requires step.End? ==> e.thread.Running? && !step.how.Running? && step.how != NotStarted
    ensures Advance(cfg, e, EntryAfter(cfg, e, hasSecret, step, now), step.Finalise?)
  {
  }

  lemma EntryStep(cfg: Config, s: Service, step: Step)
    requires NamesTask(step) && Enabled(cfg, s, step) && EntryOk(cfg, s.entries[step.id])
    requires step.id in s.secrets <==> !s.entries[step.id].executor.Ended?
    ensures Advance(cfg, s.entries[step.id], Next(cfg, s, step).entries[step.id], step.Finalise?)
  {
    var e, hasSecret := s.entries[step.id], step.id in s.secrets;
    if step.Announce? {
      AnnounceStep(cfg, e, hasSecret, step, s.clock);
    } else if step.GiveUp? || step.Collect? || step.Normalize? {
      ClosingStep(cfg, e, hasSecret, step, s.clock);
    } else {
      OtherStep(cfg, e, hasSecret, step, s.clock);
    }
    hide EntryOk, Advance, EntryAfter, Announces, MayReturn, CreateRunner;
  }

  lemma OneEntry(cfg: Config, entries: Entries, id: TaskId, e: Entry, ended: bool)
    requires EntriesOk(cfg, entries) && id in entries && Advance(cfg, entries[id], e, ended)
    ensures EntriesOk(cfg, entries[id := e])
    ensures OneActive(entries) ==> OneActive(entries[id := e])
  {
  }

  lemma OneEntryInTables(cfg: Config, entries: Entries, id: TaskId, e: Entry, ended: bool,
                         byRequest: map<RequestId, TaskId>,
                         replies: seq<(CreateCall, Reply)>, threads: seq<TaskId>)
    requires id in entries && Advance(cfg, entries[id], e, ended)
    ensures TablesAgree(entries, byRequest) ==> TablesAgree(entries[id := e], byRequest)
    ensures RepliesHold(entries, byRequest, replies) ==> RepliesHold(entries[id := e], byRequest, replies)
    ensures OneThreadEach(entries, threads) ==> OneThreadEach(entries[id := e], threads)
  {
    hide EntryOk, Rank;
  }

  lemma OneEntryInSecrets(cfg: Config, entries: Entries, id: TaskId, e: Entry, ended: bool, stored: set<TaskId>)
    requires id in entries && Advance(cfg, entries[id], e, ended)
    requires SecretsLedger(entries, stored)
    ensures SecretsLedger(entries[id := e], if ended then stored - {id} else stored)
  {
    hide EntryOk, Rank;
  }

  /** The duration of a decided task is settled. */
  lemma DecidedDuration(t: Task, now: real, later: real)
    requires Decided(t)
    ensures t.Duration(now) == t.Duration(later) && t.Duration(now).Some?
  {
  }

  lemma RecordedAppended(audit: seq<AuditRecord>, r: AuditRecord, id: TaskId)
    ensures Recorded(audit + [r], id) <==> Recorded(audit, id) || r.task == id
  {
    var longer := audit + [r];
    assert longer[|audit|] == r;
    if Recorded(audit, id) {
      var i :| 0 <= i < |audit| && audit[i].task == id;
      assert longer[i].task == id;
    }
  }

  lemma RecordsKept(cfg: Config, entries: Entries, id: TaskId, e: Entry, ended: bool, audit: seq<AuditRecord>)
    requires EntriesOk(cfg, entries) && id in entries && Advance(cfg, entries[id], e, ended)
    requires forall i :: 0 <= i < |audit| ==> RecordHolds(entries, audit[i])
    ensures forall i :: 0 <= i < |audit| ==> RecordHolds(entries[id := e], audit[i])
    ensures ended ==> !Recorded(audit, id) && forall i :: 0 <= i < |audit| ==> audit[i].task != id
  {
    forall i | 0 <= i < |audit| ensures RecordHolds(entries[id := e], audit[i]) {
      assert RecordHolds(entries, audit[i]);
      if audit[i].task == id {
        assert EntryOk(cfg, entries[id]);
      }
    }
  }

  lemma OneEntryInAudit(cfg: Config, entries: Entries, id: TaskId, e: Entry, ended: bool, written: bool,
                        audit: seq<AuditRecord>, unaudited: set<TaskId>, now: real)
    requires EntriesOk(cfg, entries) && id in entries && Advance(cfg, entries[id], e, ended)
    requires AuditLedger(entries, audit, unaudited)
    ensures AuditLedger(entries[id := e], if ended && written then audit + [AuditOf(id, e.task, now)] else audit,
                        if ended && !written then unaudited + {id} else unaudited)
  {
    hide EntryOk, Rank, RecordHolds, Recorded, SameRequest, AuditOf, EntriesOk;
    RecordsKept(cfg, entries, id, e, ended, audit);
    RecordNamesTask(id, e.task, now);
    var audit' := if ended && written then audit + [AuditOf(id, e.task, now)] else audit;
    if ended && written {
      assert RecordHolds(entries[id := e],
        AuditOf(id, e.task, now)) by { RecordOfEntry(cfg, entries[id := e], id, now); }
      forall other ensures Recorded(audit', other) <==> Recorded(audit, other) || other == id {
        RecordedAppended(audit, AuditOf(id, e.task, now), other);
      }
    }
  }

  lemma RecordNamesTask(id: TaskId, t: Task, now: real)
    ensures AuditOf(id, t, now).task == id
  {
  }

  lemma RecordOfEntry(cfg: Config, entries: Entries, id: TaskId, now: real)
    requires id in entries && EntryOk(cfg, entries[id]) && entries[id].executor.Ended?
    ensures RecordHolds(entries, AuditOf(id, entries[id].task, now))
  {
    DecidedDuration(entries[id].task, now, 0.0);
  }

  lemma TaskStepKeepsInv(cfg: Config, s: Service, step: Step)
    requires Inv(cfg, s) && Enabled(cfg, s, step) && NamesTask(step)
    ensures Inv(cfg, Next(cfg, s, step))
  {
    var s' := Next(cfg, s, step);
    var id := step.id;
    var ended := step.Finalise?;
    EntryStep(cfg, s, step);
    hide EntriesOk, TablesAgree, OneActive, SecretsLedger, AuditLedger, OneThreadEach, RepliesHold, Budget, Advance,
      EntryAfter;
    var e := s'.entries[id];
    assert s'.entries == s.entries[id := e];
    OneEntry(cfg, s.entries, id, e, ended);
    OneEntryInTables(cfg, s.entries, id, e, ended, s.byRequest, s.replies, s.threads);
    OneEntryInSecrets(cfg, s.entries, id, e, ended, s.secrets.Keys);
    assert s'.secrets.Keys == if ended then s.secrets.Keys - {id} else s.secrets.Keys;
    OneEntryInAudit(cfg, s.entries, id, e, ended, ended && step.written, s.audit, s.unaudited, s.clock);
  }

  // --- create_task -----------------------------------------------------------------

  /**
   A refused or replayed `create_task` changes no table. A replay, a conflict and a
   rate-limited call cost nothing of the budget; a task is started only when none is active.
   */
  lemma RefusalLeavesTables(cfg: Config, s: Service, call: CreateCall)
    requires TablesAgree(s.entries, s.byRequest)
    ensures var (s', reply) := CreateTask(cfg, s, call);
            && s'.replies == s.replies && s'.audit == s.audit && s'.unaudited == s.unaudited && s'.clock == s.clock
            && (!Makes(reply) ==>
                  s'.entries == s.entries && s'.byRequest == s.byRequest && s'.secrets == s.secrets
                    && s'.threads == s.threads)
            && (reply.Replayed? || reply == Rejected(RequestIdConflict) || reply == Rejected(RateLimited) ==>
               s'.accepted == s.accepted)
            && (reply.Replayed? <==>
                  (call.requestId.Some? && call.requestId.value in s.byRequest
                   && s.entries[s.byRequest[call.requestId.value]].task.fingerprint == call.fingerprint))
            && (reply.Replayed? ==> reply.task == s.byRequest[call.requestId.value])
            && (Makes(reply) ==>
                 !Busy(s) && call.requestId.Some? && call.requestId.value !in s.byRequest && reply.task == call.newId)
  {
    hide Admits, Busy;
  }

  /** What a started task adds: one fresh entry, in every table. */
  ghost predicate Added(s: Service, s': Service, call: CreateCall) {
    && call.newId !in s.entries && call.requestId.Some? && call.requestId.value !in s.byRequest
    && (forall id :: id in s.entries ==> Terminal(s.entries[id].task.state))
    && call.newId in s'.entries && s'.entries == s.entries[call.newId := s'.entries[call.newId]]
    && s'.entries[call.newId].executor == (if call.starts then Loading else Unborn)
    && s'.entries[call.newId].thread.NotStarted?
    && Undecided(s'.entries[call.newId].task) && s'.entries[call.newId].task.state == Created
    && s'.entries[call.newId].task.requestId == call.requestId.value
    && IsAsked(s'.entries[call.newId].task, call)
    && s'.byRequest == s.byRequest[call.requestId.value := call.newId]
    && s'.secrets == s.secrets[call.newId := call.body.value.credentials]
    && s'.threads == (if call.starts then s.threads + [call.newId] else s.threads)
    && s'.replies == s.replies + [(call, if call.starts then Started(call.newId) else Dropped(call.newId))]
    && s'.audit == s.audit && s'.unaudited == s.unaudited
  }

  lemma AddedKeepsTables(s: Service, s': Service, call: CreateCall)
    requires Added(s, s', call) && TablesAgree(s.entries, s.byRequest)
    ensures TablesAgree(s'.entries, s'.byRequest)
  {
    hide Undecided, Terminal;
  }

  lemma AddedKeepsEntries(cfg: Config, s: Service, s': Service, call: CreateCall)
    requires Added(s, s', call)
    ensures OneActive(s'.entries)
    ensures EntriesOk(cfg, s.entries) ==> EntriesOk(cfg, s'.entries)
    ensures SecretsLedger(s.entries, s.secrets.Keys) ==> SecretsLedger(s'.entries, s'.secrets.Keys)
  {
    hide Undecided, Terminal;
  }

  lemma AddedKeepsLogs(s: Service, s': Service, call: CreateCall)
    requires Added(s, s', call) && TablesAgree(s.entries, s.byRequest)
    ensures OneThreadEach(s.entries, s.threads) ==> OneThreadEach(s'.entries, s'.threads)
    ensures AuditLedger(s.entries, s.audit, s.unaudited) ==> AuditLedger(s'.entries, s'.audit, s'.unaudited)
  {
    hide TablesAgree;
  }

  lemma AddedKeepsReplies(s: Service, s': Service, call: CreateCall)
    requires Added(s, s', call) && TablesAgree(s.entries, s.byRequest) && RepliesHold(s.entries, s.byRequest, s.replies)
    ensures RepliesHold(s'.entries, s'.byRequest, s'.replies)
  {
    forall i | 0 <= i < |s'.replies| ensures ReplyHolds(s'.entries, s'.byRequest, s'.replies[i].0, s'.replies[i].1) {
      if i < |s.replies| {
        assert ReplyHolds(s.entries, s.byRequest, s.replies[i].0, s.replies[i].1);
      }
    }
  }

  lemma CreateKeepsBudget(cfg: Config, s: Service, call: CreateCall)
    requires Budget(cfg, s.accepted, s.clock)
    ensures var s' := CreateTask(cfg, s, call).0; Budget(cfg, s'.accepted, s'.clock)
  {
    hide Ordered, Earned, Record, Admits, Busy, Within, Of;
    if call.user.Some? {
      RecordKeepsHistory(cfg.globalLimit, cfg.userLimit, s.accepted, s.clock, call.user.value, s.clock);
    }
  }

  lemma StartedAdds(cfg: Config, s: Service, call: CreateCall)
    requires TablesAgree(s.entries, s.byRequest) && call.newId !in s.entries && Makes(CreateTask(cfg, s, call).1)
    ensures Added(s, Next(cfg, s, Create(call)), call)
  {
    RefusalLeavesTables(cfg, s, call);
    hide TablesAgree, Admits, Record, Busy, Undecided, Terminal, NewTask;
    Idle(s);
    NewIsUndecided(call.requestId.value, call.user.value, call.fingerprint, call.body.value.mode,
      call.body.value.timeout, s.clock);
  }

  lemma Idle(s: Service)
    requires !Busy(s)
    ensures forall id :: id in s.entries ==> Terminal(s.entries[id].task.state)
  {
  }

  lemma NewIsUndecided(requestId: RequestId, user: int, fingerprint: string, mode: Mode, timeout: int, now: real)
    ensures var t := NewTask(requestId, user, fingerprint, mode, timeout, now);
            && Undecided(t) && t.state == Created && t.requestId == requestId && t.fingerprint == fingerprint
            && t.user == user && t.mode == mode && t.timeout == timeout && t.createdAt == now
  {
  }

  lemma RefusedKeepsReplies(s: Service, call: CreateCall, reply: Reply)
    requires TablesAgree(s.entries, s.byRequest) && RepliesHold(s.entries, s.byRequest, s.replies)
    requires ReplyHolds(s.entries, s.byRequest, call, reply)
    ensures RepliesHold(s.entries, s.byRequest, s.replies + [(call, reply)])
  {
    var longer := s.replies + [(call, reply)];
    forall i | 0 <= i < |longer| ensures ReplyHolds(s.entries, s.byRequest, longer[i].0, longer[i].1) {
      if i < |s.replies| {
        assert ReplyHolds(s.entries, s.byRequest, s.replies[i].0, s.replies[i].1);
      }
    }
  }

  lemma CreateKeepsInv(cfg: Config, s: Service, call: CreateCall)
    requires Inv(cfg, s) && Enabled(cfg, s, Create(call))
    ensures Inv(cfg, Next(cfg, s, Create(call)))
  {
    var (made, reply) := CreateTask(cfg, s, call);
    var s' := Next(cfg, s, Create(call));
    CreateKeepsBudget(cfg, s, call);
    RefusalLeavesTables(cfg, s, call);
    if Makes(reply) {
      StartedAdds(cfg, s, call);
      AddedKeepsTables(s, s', call);
      AddedKeepsEntries(cfg, s, s', call);
      AddedKeepsLogs(s, s', call);
      AddedKeepsReplies(s, s', call);
    } else {
      RefusedKeepsReplies(s, call, reply);
    }
    hide EntriesOk, TablesAgree, OneActive, SecretsLedger, AuditLedger, OneThreadEach, RepliesHold, Budget, CreateTask;
  }

  lemma StepKeepsInv(cfg: Config, s: Service, step: Step)
    requires Inv(cfg, s) && Enabled(cfg, s, step)
    ensures Inv(cfg, Next(cfg, s, step))
  {
    match step
    case Tick(_) =>
    case Create(call) => CreateKeepsInv(cfg, s, call);
    case _ => TaskStepKeepsInv(cfg, s, step);
  }
}
