# Verification of the bo-vpn agent

This Dafny project models the parts of the agent in which several things happen at once or a small
slip loses data, and proves what they promise. `dafny verify dfyconfig.toml` checks all of it.

**Task protocol.** The worker (`Worker`, `WorkerProofs`, `WorkerRuns`, `WorkerOutcomes`) and the
runner daemon (`Daemon`, `DaemonProofs`, `DaemonRuns`) are step systems: the environment chooses
which HTTP, executor or runner thread moves next, which thread cannot be started, when a join times
out, what a runner announces and how it ends. A join raises exactly if the timeout is too long for
it. A critical section of the worker is one step. In the daemon every field write under the lock and
every field read of the answer that `create_job` builds without the lock is a step of its own, since
that answer can interleave with the writes. `EndToEnd` composes both with the polling client
(`PollClient`), `EndToEndConverse` says when a finished job means a finished task, and
`EndToEndGaps` has a run for each of the four causes that can part them. `Runners` shows that the
local runners follow the lifecycle the step systems allow them. `RateLimiter` is a class with a
ghost history. `WorkerObjects` and `DaemonObjects` hold the mutable objects of both services, tasks
shared by two tables included, and their methods are proved to do what the steps do.

**Tunnel.** `ConnectHeader` has the two reading loops, `RelayLoops` the two copying loops, and
`Tunnel`, `TunnelProofs`, `TunnelRuns`, `TunnelTargets` helper, proxy and target as processes over
byte queues, with every chunking, partial send and schedule. Transparency is stated up to the first
socket error, because the proxy writes its `ERR` line into a stream that is already open.

**Audio bot.** `BotSettings` resolves branches and targets (with `IPv4` addresses read for real),
`BotSettingsFile` treats saving and loading of any settings file, `BotSession` is the bot's state as
a class, with every handler possibly cut short, and `BotDialogs` says what users see. `StopProtocol`
has cancellation against preparation and playback as a step system, with the signal handler on the
polling thread; `StopAll` says exactly what `stop_all` reaches, `StopGaps` has two runs that escape,
and `StopRestraint` shows who is left alone.

**Managed login, log rotation, kernels.** `ManagedLogin` is one run of the container-namespace
executor as a trace; `LogRotation` the doctor's log files; `Utf8` the byte-bounded truncation;
`Text` and `Inventory` normalisation, lookup and the mtime cache.

## Results that qualify the code

- The answer of `create_job` may name the state `finished` and say `ok: false`, exactly if the job
  finished between two of its reads (`DaemonRuns.OkLagsExactly`).
- Both services accept a `timeout_sec` that is too long for a join (above 9223372036), and the join then
  raises. The daemon's executor wipes the credentials and ends with the job undecided, for good unless
  somebody cancels it; so it does when its runner thread cannot be started. The worker's task fails as an
  internal error while its runner thread runs on (`DaemonRuns.LeftUndecidedExactly`,
  `EndToEndConverse.TooLongNeverFinishes`).
- A create whose executor thread cannot be started blocks the worker for good
  (`WorkerRuns.DroppedBlocksForGood`).
- A finished job means a finished task unless a request was lost, the worker gave up waiting, its join
  raised or the client's thread could not be started; each of the four can part them
  (`EndToEndConverse`, `EndToEndGaps`). A daemon `timeout` becomes a worker `failed` with
  code `operation_timeout`.
- An unknown runner mode kills the daemon's executor before its `try`: the job stays undecided and
  its credentials stay in memory (`DaemonRuns.ExecutorsEndClean`).
- `stop_all` misses a player exactly if it looks while the thread is between its last check of the flag
  and the player's place in the slot (`StopAll.StopAllReaches`). It also ends early, with an exception,
  when a slot it has seen filled is empty by the time it asks again.
- A running player is out of reach of `_stop` exactly if its thread raised while it played
  (`StopProtocol.RunningPlayerIsInReach`).
- A settings file with an infinite volume, such as `1e999`, keeps the bot from starting
  (`BotSettingsFile.InfiniteVolumeStopsTheBot`). One with keys such as "100" and "0100" can leave a
  target that contradicts the user's settings (`BotSettingsFile.KeysDecide`).
- A branch name that normalisation does not lead back to, such as one with an underscore, is lost at
  a restart. The exact condition differs for users with and without a target, because a target has
  the name normalised a second time (`BotSettingsFile.RoundTrip`). With such a name, a vehicle that
  is listed under the branch's own name can turn a saved number into a volume (`AmbushDecides`).
- The default branch never decides a target: where it would apply, no branch lists the number
  (`BotSettings.ChooseBranch`).

## Model

| member | source | states |
|---|---|---|
| RateLimits.RateLimiter.Trim | bo_vpn_agent/service.py:40-43 | What is kept is a suffix of the queue that starts at the cutoff or later; everything dropped is older |
| RateLimits.RateLimiter.Check | bo_vpn_agent/service.py:28-38 | A call is accepted exactly when the complete history of accepted calls leaves room for it in the last minute, over all and for the user, although user queues are trimmed only when their user calls; the history grows by accepted calls alone |
| RateLimits.KeptAreCounted | bo_vpn_agent/service.py:40-43 | The trimmed queue holds exactly the calls that the history counts in the last minute |
| RateLimits.RecordKeepsHistory | bo_vpn_agent/service.py:28-38 | A history in which every call was rightly accepted, in order of time, stays one |
| RateLimits.EveryMinuteIsBounded | bo_vpn_agent/service.py:21-38 | In such a history no closed interval of 60 seconds, wherever it starts, holds more calls than the global limit, nor more of one user than the user limit |
| WorkerProofs.InitialInv | bo_vpn_agent/service.py:47-56 | The invariant of the worker holds when it starts |
| WorkerProofs.RefusalLeavesTables | bo_vpn_agent/service.py:64-89 | A create that is refused or replayed changes none of the three tables; a replay, a conflict or a rate-limited call costs nothing of the budget; a task is made only when none is active |
| WorkerProofs.StepKeepsInv | bo_vpn_agent/service.py:64-246 | Every critical section of every thread, in whatever order the threads take them, and every join and thread start that raises, keeps the invariant of the worker |
| WorkerRuns.NothingIsUndone | bo_vpn_agent/service.py:167-246 | Between any two states of any run, a terminal task keeps state, outcome and timestamps, no task falls back to an earlier phase, and tables and logs lose nothing |
| WorkerRuns.AtMostOneActiveTask | bo_vpn_agent/service.py:79-81 | In every state of every run at most one task is not terminal, and while there is one no create starts another |
| WorkerRuns.OutlivingRunnerIsHarmless | bo_vpn_agent/service.py:235-240 | A runner thread that is still alive after its task was decided changes no task, its own or a later one, and no table |
| WorkerRuns.AnnouncementsNeverDecide | bo_vpn_agent/service.py:180-184 | No announcement of a runner and no ending of one makes a task terminal; only its executor does |
| WorkerRuns.SameRequestSameTask | bo_vpn_agent/service.py:64-89 | Over a whole history, creates with one request id that made or found a task were given the same body and one and the same task, whose executor was started exactly once, or never if starting it raised |
| WorkerRuns.DroppedBlocksForGood | bo_vpn_agent/service.py:79-89 | When the start of a new task's thread raises, the tables are already written: in every later state of every run that task is undecided, its credentials are stored, and no create makes a task |
| WorkerRuns.DropHappens | bo_vpn_agent/service.py:82-89 | It takes a single create that is admitted: the run of one step in which the start raises |
| WorkerRuns.TablesAreInverse | bo_vpn_agent/service.py:83-84 | The table by request id and the table by task id hold the same tasks, one for one |
| WorkerRuns.MinuteBudget | bo_vpn_agent/service.py:75-77 | In every state of every run, no closed minute holds more charged creates than the limits allow |
| WorkerRuns.CredentialsLedger | bo_vpn_agent/service.py:83-87 | Credentials are stored for exactly the tasks whose executor has not finalised: for every active task, and for none once all executors have ended |
| WorkerRuns.FallbacksAreNeverNeeded | bo_vpn_agent/service.py:170-174 | No run comes to the branch for missing credentials, nor to the fallback for a task left undecided (lines 230-232) |
| WorkerRuns.AuditMatchesForever | bo_vpn_agent/service.py:225-233 | Each finalised task whose record could be written has exactly one audit record; its state, its error code and its duration are those of the task, then and in every later state |
| WorkerRuns.OutcomesAreConsistent | bo_vpn_agent/service.py:187-224 | A finished task has a result and no error; a failed or timed-out one has an error and no result |
| WorkerRuns.TooLongNeverSucceeds | bo_vpn_agent/service.py:187-225 | In no run does a task whose timeout is too long for a join finish or time out: it is undecided or has failed as an internal error |
| WorkerProofs.DecidedDuration | bo_vpn_agent/models.py:78-84 | The duration of a decided task no longer depends on the clock |
| WorkerOutcomes.OutcomesAreEarned | bo_vpn_agent/service.py:187-225 | In any run a decided task was decided at one step of its executor, at the time stamped on it, and holds what that step found: the whole result the runner returned, code and text of its failure, the timeout of a runner that still ran, or as an internal error the text of what was raised |
| WorkerOutcomes.StampsAreTimes | bo_vpn_agent/models.py:86-97 | At every step of every run: the step that creates a task, takes it out of `created` or ends it stamps creation, start or end with its own time, and no step changes a stamp that is set |
| WorkerOutcomes.TimesInOrder | bo_vpn_agent/models.py:86-97 | In every state of every run created <= started <= finished, and none lies in the future |
| WorkerOutcomes.DurationMeasures | bo_vpn_agent/models.py:78-84 | The duration d of a decided task, in every state of every run: start + d <= end < start + d + 1 |
| WorkerOutcomes.AnswersHaveReasons | bo_vpn_agent/service.py:64-89 | In every state of every run: a conflict exactly for a known request id with another body, a rate limit exactly if the last minute is full over all or for the user, busy exactly if that is passed and a task is undecided, a task exactly if nothing of this holds and the body is valid; and the user is charged exactly where the limit was passed |
| WorkerOutcomes.MadeAsAsked | bo_vpn_agent/service.py:82-89 | A task that a create made has the request id, user, fingerprint, mode and positive timeout of that call in every later state, and while credentials are stored for it they are those of that call |
| WorkerObjects.TaskObject.SetState | bo_vpn_agent/models.py:86-97 | The object after the call is the value that the step system computes: the first start and the first end are stamped with the time of the call, and no other |
| WorkerObjects.TaskObject.DurationSec | bo_vpn_agent/models.py:78-84 | Whole seconds from start to end or to now, zero where that is before the start; present exactly once the task has started or is terminal |
| WorkerObjects.WorkerService.ActiveTask | bo_vpn_agent/service.py:242-246 | The search over the table finds a task exactly when one is not terminal |
| WorkerObjects.WorkerService.CreateTask | bo_vpn_agent/service.py:64-89 | On tables whose objects are shared and updated in place, the call answers and leaves behind what the step system says, on every path, and leaves the task in the tables if starting its thread raises |
| WorkerObjects.WorkerService.SetState | bo_vpn_agent/service.py:235-240 | Announcing a phase on the shared object refines the step of the same name; other tasks are untouched |
| WorkerObjects.WorkerService.Decide | bo_vpn_agent/service.py:187-218 | Timeout, refusal and result, each written field by field, refine the executor's deciding step; a crash, and a join that raises with the runner still alive, are passed on to the handler |
| WorkerObjects.WorkerService.Normalize | bo_vpn_agent/service.py:219-225 | The handler for any exception refines the normalising step |
| WorkerObjects.WorkerService.Finalise | bo_vpn_agent/service.py:226-233 | The final block refines the finalising step, and the audit record tells of the task as it stays |
| Phases.AnnouncementsAdvance | bo_vpn_agent/runner.py:43-53 | Whatever a runner may announce is a working state, and never of lower rank than its last announcement |
| Phases.PathClimbs | bo_vpn_agent/runner.py:102-118 | Along any sequence of announcements of any runner the rank never falls |
| Runners.DryRun | bo_vpn_agent/runner.py:39-53 | Announces the five phases in order, whatever becomes of its artifact, and returns only after the last |
| Runners.ExistingContainer | bo_vpn_agent/runner.py:102-118 | Returns if and only if a port answers; otherwise it refuses, having announced the first three phases |
| Runners.JobContainer | bo_vpn_agent/runner.py:124-129 | Announces one phase and always refuses |
| Runners.DaemonExisting | bo_vpn_agent/runner_daemon.py:171-181 | Announces one phase, then ends as the executor does |
| PollClient.FinishedAnswerRebuildsResult | bo_vpn_agent/runner.py:143-152 | From the answer about a finished job the client rebuilds summary, data, artifacts and warnings exactly, although empty ones are left out of the answer |
| PollClient.RelayedAdvance | bo_vpn_agent/runner.py:143-147 | Polling skips states, yet of answers that never go back it makes announcements that never go back |
| PollClient.Poll | bo_vpn_agent/runner.py:140-160 | The loop relays the working states among the answers in order and ends with the first decisive one, be it an outcome, a lost connection or something that is no answer; it ends with what that answer holds, a failure with the code and text of the answer unless they are empty |
| DaemonProofs.StepKeepsInv | bo_vpn_agent/runner_daemon.py:79-213 | Every single field write under the lock, every single field read of the unlocked answer, every move of executor, runner and canceller, and every join and thread start that raises, keeps the invariant of the daemon |
| DaemonRuns.FirstTerminalWins | bo_vpn_agent/runner_daemon.py:94-103 | With cancel, timeout, failure and success racing, a terminal job keeps state, result and error for good, and no job falls back to an earlier phase |
| DaemonRuns.OutcomesAreConsistent | bo_vpn_agent/runner_daemon.py:186-210 | `queued` and `cancelled` never occur; a finished job has a result and no error; a failed or timed-out one has an error and no result |
| DaemonRuns.OutcomesAreEarned | bo_vpn_agent/runner_daemon.py:183-210 | In any run a decided job was cancelled, and says so, or its executor decided it at a step at which it was undecided, and it holds what the runner thread had come to then: the whole result returned, code and text of the failure, or the timeout of a thread that still ran; a finished job holds the result of its thread in every state |
| DaemonRuns.ExecutorsEndClean | bo_vpn_agent/runner_daemon.py:141-213 | An executor that has ended left the credentials wiped, and its job terminal if the runner thread was started and the timeout is one a join accepts; one that died did so exactly because the mode is unknown, leaving the credentials in place and the job undecided, unless a canceller decides it; nothing else wipes credentials |
| DaemonRuns.LeftUndecidedExactly | bo_vpn_agent/runner_daemon.py:141-213 | Exactly which jobs are left undecided when their executor is over, in any run: those whose runner thread was not started or whose timeout is too long for a join, and that no canceller has decided; cancelling is the only way such a job is ever decided |
| DaemonRuns.JobIsLeft | bo_vpn_agent/runner_daemon.py:183-213 | Both happen to a recognised mode: a run from the start, nobody cancelling, in which the join raises for a timeout of 10000000000, and one in which starting the runner thread raises; the executor ends, the credentials are wiped, the job is as it was created |
| DaemonRuns.ExecutorCanEnd | bo_vpn_agent/runner_daemon.py:170-213 | From every reachable state an executor that was started, of a job of a recognised mode, can be brought to its end with the credentials wiped by its own moves and the lock holder's; its job is then terminal if the timeout is one a join accepts and starting the runner thread has not raised |
| DaemonRuns.ExecutorEndsInTwelveMoves | bo_vpn_agent/runner_daemon.py:170-213 | In any run an executor makes at most twelve moves, whatever the others do in between; it has moves left exactly from its start until it has ended or died, and nothing but the lock in other hands keeps it from them |
| DaemonRuns.UnlockedAnswerIsFinal | bo_vpn_agent/runner_daemon.py:45-85 | When the answer that `create_job` builds without the lock shows a terminal state, its outcome is that of the job in every later state, because outcome fields are written before the state and read after it |
| DaemonRuns.OkImpliesFinished | bo_vpn_agent/runner_daemon.py:45-50 | An answer that claims `ok` names the finished state |
| DaemonRuns.OkMayLag | bo_vpn_agent/runner_daemon.py:45-50 | The converse is false: a run in which the answer names the finished state and yet does not claim `ok` |
| DaemonRuns.OkLagsExactly | bo_vpn_agent/runner_daemon.py:45-50 | Exactly when: the job was not finished when the answer read the flag, and was when it read the state |
| DaemonObjects.SectionsAddUp | bo_vpn_agent/runner_daemon.py:186-210 | The writes of a locked section, one step each, add up to the section, and no other job changes |
| DaemonObjects.QuietAnswer | bo_vpn_agent/runner_daemon.py:45-66 | An unlocked answer that nobody disturbs is the locked one |
| DaemonObjects.DecisionDecides | bo_vpn_agent/runner_daemon.py:186-210 | The section after the join makes an undecided job terminal with the outcome owed to how the runner thread stands: its whole result, its failure, or a timeout |
| DaemonObjects.DecisionStands | bo_vpn_agent/runner_daemon.py:188-189 | On a decided job that section changes nothing |
| DaemonObjects.RunnerJob.ToResponse | bo_vpn_agent/runner_daemon.py:45-66 | The answer shows state, text and warnings as they are and each outcome field exactly if it is there |
| DaemonObjects.RunnerJob.SetState | bo_vpn_agent/runner_daemon.py:39-43 | State first, then the text: the two writes of a reporting section |
| DaemonObjects.RunnerDaemonService.GetJob | bo_vpn_agent/runner_daemon.py:87-92 | An unknown id is told from a known one; a known job is shown as it stands |
| DaemonObjects.RunnerDaemonService.CancelJob | bo_vpn_agent/runner_daemon.py:94-103 | An undecided job fails as cancelled, a decided one is left alone, the answer shows the job afterwards, and no other job changes |
| DaemonObjects.RunnerDaemonService.SetState | bo_vpn_agent/runner_daemon.py:160-165 | An announcement about a decided job is dropped |
| DaemonObjects.RunnerDaemonService.Decide | bo_vpn_agent/runner_daemon.py:186-210 | A decided job stays as it is; an undecided one gets the whole outcome of its runner thread, or times out; no other job changes |
| DaemonObjects.RunnerDaemonService.Close | bo_vpn_agent/runner_daemon.py:211-213 | The credentials of this job, and of no other, are gone; nothing that is shown changes |
| EndToEnd.StepKeepsInv | bo_vpn_agent/runner.py:140-160 | Worker, polling client and daemon together keep the invariant that ties them, under every interleaving |
| EndToEnd.ModesAgree | bo_vpn_agent/runner.py:204-218 | The runner mode keeps its name on the way to the daemon, which runs for it what the worker would have run itself, but for the two modes that have executors of their own |
| EndToEnd.ClientsAreNeverHeldBack | bo_vpn_agent/runner.py:143-160 | The worker never refuses what a client has to announce or to end with, so the composition excludes no behaviour of the client |
| EndToEndRuns.NothingIsUndone | bo_vpn_agent/runner.py:143-160 | Over any stretch of any run of both services, outcomes are never rewritten and no task or job moves to a lower phase, also where polling skips states |
| EndToEndRuns.PollCatchesUp | bo_vpn_agent/runner.py:143-147 | A poll that finds the job at work brings the undecided task to exactly the state and text of the job; one that finds it new changes nothing in the worker |
| EndToEndRuns.FinishedTasksAgreeForever | bo_vpn_agent/service.py:210-218 | From the moment a worker task is finished and ever after, exactly one daemon job was created for it, that job is finished, and summary, data, artifacts and warnings are equal, and are what the job's runner thread returned |
| EndToEndRuns.AtMostOneJobPerTask | bo_vpn_agent/runner.py:140-142 | No task ever has two daemon jobs, however its run ends |
| EndToEndRuns.LostConnectionFailsTask | bo_vpn_agent/runner.py:177-194 | A lost connection fails the worker task whatever the daemon job does or has done: with its own code, or as an internal error where the timeout is too long for a join |
| EndToEndConverse.DecidedAlikeForever | bo_vpn_agent/runner.py:140-160 | Agreement both ways: in any run in which no request of a task's client was lost, its thread was started, the worker did not give up on it and no join for it raised (which none does for a timeout a join accepts), a decided task has exactly a decided job; for good the task is finished if and only if the job is, and else has failed with the job's own error code and text, unless those are empty |
| EndToEndConverse.JobsAreAsAsked | bo_vpn_agent/runner.py:162-172 | In every run a job created for a task has the runner mode and the timeout of the task |
| EndToEndConverse.TooLongNeverFinishes | bo_vpn_agent/runner.py:162-172 | What a timeout too long for a join does in both services, in every run: the task can only fail, as an internal error, and a job created for it can only be cancelled |
| EndToEndGaps.LostAnswerParts | bo_vpn_agent/runner.py:177-194 | Why the first condition: a run from the start in which nothing but a lost request parts them, and that ends with a finished job and a failed task |
| EndToEndGaps.LateAnswerParts | bo_vpn_agent/service.py:187-197 | A run from the start in which nothing but giving up parts them, and that ends with a finished job and a timed-out task |
| EndToEndGaps.LongTimeoutParts | bo_vpn_agent/service.py:187-225 | With any timeout too long for a join, a run from the start in which nothing but the raising join parts them: the task has failed, its runner thread runs on, and the job is undecided |
| EndToEndGaps.UnstartedClientParts | bo_vpn_agent/service.py:186-225 | A run from the start in which nothing but the failed start of the client's thread parts them: the task has failed and there is no job |
| EndToEndRuns.DaemonTimeoutFailsTask | bo_vpn_agent/runner.py:155-156 | A daemon job that timed out makes its worker task fail, with the timeout code, or as an internal error where the timeout is too long for a join |
| ConnectHeader.RequestIsCutOfStream | bo_vpn_agent/tcp_proxy.py:43-48 | However much was read when the loop had enough, line and remainder are those of the stream, cut at its first newline within 512 bytes, else at 512 |
| ConnectHeader.AcceptsWhatIsNamed | bo_vpn_agent/tcp_proxy.py:48-58 | The proxy accepts exactly the ASCII lines of three words, `CONNECT`, an address 172.26.x.y or 172.27.x.y and a port, and connects to what they name |
| ConnectHeader.ReadRequest | bo_vpn_agent/tcp_proxy.py:41-48 | For every segmentation of the stream the loop ends, and what it accepts depends on the stream alone |
| ConnectHeader.ReadLine | scripts/proxy_connect.py:10-17 | Reads up to and including the first newline within 1024 bytes and not a byte more |
| TunnelProofs.StepKeepsInv | bo_vpn_agent/tcp_proxy.py:15-71 | Every accepted piece of a send, every chunk received, every end of stream, close and error keeps the invariant that accounts for each byte between stdin and the target, and back |
| TunnelRuns.TargetReceivesCutStream | bo_vpn_agent/tcp_proxy.py:41-63 | Whatever the client: the target has received a prefix of what the client sent behind the cut, over-read bytes included, and all of it once the end was passed on |
| TunnelTargets.OnlyWhatWasNamed | bo_vpn_agent/tcp_proxy.py:36-63 | In any run, whoever the client is: the proxy has connected, if anywhere, to the address and port that the client's line names; until then no byte has gone to a target or come from one, and no OK line is on its way |
| TunnelTargets.RefusedLinesGoNowhere | bo_vpn_agent/tcp_proxy.py:48-67 | While a complete line names no destination, nothing is connected and nothing sent to a target, and the client gets nothing but a piece of the ERR line |
| TunnelTargets.HelperAsksForItsTarget | scripts/proxy_connect.py:23-25 | The header that the helper sends for a vehicle address and a port is cut and read by the proxy as exactly this address and port |
| TunnelTargets.HelperGetsItsTarget | scripts/proxy_connect.py:23-28 | With this helper, in any run, the proxy connects to that address and port or nowhere |
| TunnelRuns.UpstreamIsTransparent | scripts/proxy_connect.py:30-44 | Through helper and proxy, the target has received a prefix of stdin, and all of it once both relays have passed the end on |
| TunnelRuns.DownstreamIsTransparent | bo_vpn_agent/tcp_proxy.py:15-34 | While the proxy has not raised, stdout is a prefix of what the target sent, and all of it when the helper saw the end; after an error it is such a prefix and a piece of the error line |
| TunnelRuns.NoSendAfterShutdown | bo_vpn_agent/tcp_proxy.py:25-32 | No relay direction sends on a connection that was shut for sending |
| TunnelRuns.ErrorBreaksTransparency | bo_vpn_agent/tcp_proxy.py:64-67 | Why the claim ends at the first error: with every accepted header and every error text there is a run in which the proxy raises while relaying and its error line reaches stdout as if the target had sent it |
| TunnelRuns.NoErrorAfterTheEnd | bo_vpn_agent/tcp_proxy.py:64-67 | Once the target's end was passed on, nothing more is sent to the client in any run, so no piece of an error line either |
| RelayLoops.Serve | bo_vpn_agent/tcp_proxy.py:22-32 | One readable source: nothing of its stream is lost or doubled, and the other socket is shut for sending only when its stream is complete |
| RelayLoops.Relay | bo_vpn_agent/tcp_proxy.py:15-34 | In every order of service the loop ends; without an exception both directions are complete, with one, of a receive or a send, each has delivered a prefix |
| RelayLoops.WriteOut | scripts/proxy_connect.py:50-53 | However few bytes each write takes, the whole chunk is written once and in order, and a prefix of it if a write raises |
| RelayLoops.Copy | scripts/proxy_connect.py:30-57 | Whatever the selector reports and whichever send, shutdown or write raises: the socket has a prefix of stdin and stdout a prefix of what was received; without an exception nothing that was read is missing, and the loop ends exactly with the socket's stream |
| StopProtocol.StepKeepsInv | bo_vpn_agent/telegram_audio_bot.py:594-702 | Every step of the polling thread, of the job threads, of processes and of the signal handler keeps the invariant of the stop protocol |
| StopProtocol.StopReachesEveryProcess | bo_vpn_agent/telegram_audio_bot.py:775-790 | Once `_stop` has set a job's flag, in every interleaving each converter or player of that job was never started, has ended, was signalled, or is about to be signalled by that `_stop` or by the preparer's re-check; when both are done, nothing of the job runs unsignalled |
| StopProtocol.HandlerEndsPolling | bo_vpn_agent/telegram_audio_bot.py:807-810 | Once the signal handler has begun, the polling thread does nothing more, so that a `_stop` it interrupted never sends its signal |
| StopProtocol.RunningPlayerIsInReach | bo_vpn_agent/telegram_audio_bot.py:697-702 | Exactly which players `_stop` cannot reach: the job of a running player is missing from the table of jobs, or about to be removed, if and only if at some earlier step of the run its thread raised while it played; otherwise a `_stop` of its user finds the job and owes the player its signal |
| StopProtocol.FlagRemembers | bo_vpn_agent/telegram_audio_bot.py:661-702 | In any run a job is flagged as raised if and only if some earlier step was an exception of its thread while it played |
| StopProtocol.FailedMessageOrphansPlayer | bo_vpn_agent/telegram_audio_bot.py:693-702 | From every state with a running player, an exception in its thread takes the job out of the table and leaves the player running |
| StopProtocol.StoppedJobsStayStopped | bo_vpn_agent/telegram_audio_bot.py:649-660 | A stopped job never starts its player |
| StopProtocol.RecheckTerminates | bo_vpn_agent/telegram_audio_bot.py:600-604 | A converter started although the flag was set is terminated by the preparer's own next step, unless it has ended; that no other converter is, see `StopRestraint` |
| StopProtocol.OneLiveJobPerUser | bo_vpn_agent/telegram_audio_bot.py:220-238 | Two jobs of one user never live at the same time |
| StopRestraint.UncancelledIsSpared | bo_vpn_agent/telegram_audio_bot.py:594-604 | In any run, no converter and no player of a job that is not cancelled was ever signalled, whatever others stop meanwhile |
| StopRestraint.CancelledMeansAsked | bo_vpn_agent/telegram_audio_bot.py:775-801 | A job is cancelled only by an earlier `_stop` of its own user, or by the signal handler |
| StopRestraint.SignalsAreAsked | bo_vpn_agent/telegram_audio_bot.py:775-801 | A process that was signalled belongs to a job that was cancelled in one of these ways before |
| StopRestraint.OneOwnerEach | bo_vpn_agent/telegram_audio_bot.py:594-660 | In any run a process belongs to one job |
| StopRestraint.ThreadsKeepToThemselves | bo_vpn_agent/telegram_audio_bot.py:594-702 | A step of a job's thread, an exception included, neither ends nor signals a process of another job |
| StopAll.StopAllReaches | bo_vpn_agent/telegram_audio_bot.py:792-801 | Exactly what `stop_all` reaches: when it looks for the process of a job it has flagged, each process of the job has ended, is signalled, awaits its thread's re-check or is being seen to, in every state of every continuation, if and only if the thread is not between its last check of the flag and the player's place in the slot |
| StopGaps.StopAllMissesPlayer | bo_vpn_agent/telegram_audio_bot.py:792-801 | That gap is reached: a run from the start in which `stop_all` is over, the polling thread has ended, and the player of a flagged job runs on unsignalled |
| StopGaps.PlayerIsOrphaned | bo_vpn_agent/telegram_audio_bot.py:661-702 | A run from the start in which a message of the playing thread raises: the player runs on, the job is gone from the table, and `_stop` of its user changes nothing |
| BotSettings.SpellingDecides | bo_vpn_agent/telegram_audio_bot.py:521-530 | Names that differ in surrounding whitespace, in case, or in underscores against dashes mean the same branch or none |
| BotSettings.SurvivesExactly | bo_vpn_agent/telegram_audio_bot.py:521-530 | Exactly which branch names are fixed points: those that an alias leads back to, and those that are their own spelling and that no alias leads away from |
| BotSettings.UnderscoreNeedsAlias | bo_vpn_agent/telegram_audio_bot.py:521-530 | A branch name with an underscore survives normalisation if and only if an alias leads back to it |
| BotSettings.ChooseBranch | bo_vpn_agent/telegram_audio_bot.py:342-360 | Finds the branch named, else the user's own, else the only branch that lists the number, if that branch lists it; the default branch never matters |
| BotSettings.ParseTarget | bo_vpn_agent/telegram_audio_bot.py:339-379 | Finds a target exactly when one fits the arguments, the user's settings and the inventory, with an address inside 172.26.0.0/15, a volume of 1 to 100 and a known channel; and that one is unique |
| IPv4.OctetRoundTrip | bo_vpn_agent/telegram_audio_bot.py:367-369 | Each value of an octet has exactly one spelling |
| IPv4.ShowUndoesParse | bo_vpn_agent/telegram_audio_bot.py:379 | Showing the address that was read gives the text of the inventory, so the target holds the inventory's entry |
| IPv4.VehicleNetworkIs | bo_vpn_agent/telegram_audio_bot.py:367-369 | An address is in 172.26.0.0/15 exactly when it starts with 172.26 or 172.27 |
| BotSettingsFile.DistinctLoads | bo_vpn_agent/telegram_audio_bot.py:492-519 | A file in which no two keys denote one allowed user, read to its end, leaves a state that keeps the invariant, whatever its entries hold, and only for allowed users |
| BotSettingsFile.KeysDecide | bo_vpn_agent/telegram_audio_bot.py:500-519 | Exactly when that is guaranteed: every file with given keys that is read to its end loads well if and only if no two of the keys denote one allowed user, as "100" and "0100" do |
| BotSettingsFile.InfiniteVolumeStopsTheBot | bo_vpn_agent/telegram_audio_bot.py:507-519 | Distinct keys do not protect against everything: a file with one key and an infinite volume, whose `int` raises what is not handled, is not read to its end |
| BotSettingsFile.ClashBreaks | bo_vpn_agent/telegram_audio_bot.py:500-517 | For any two colliding keys and any resolvable target, a file whose loading leaves a target that disagrees with the user's settings |
| BotSettingsFile.AmbushBreaks | bo_vpn_agent/telegram_audio_bot.py:513-517 | Where a branch name does not survive normalisation, a vehicle carries that name and another name leads there, a file takes a saved number for a volume |
| BotSettingsFile.AmbushDecides | bo_vpn_agent/telegram_audio_bot.py:513-517 | Exactly what the configuration must avoid: all files with distinct keys that are read to their end load well if and only if there is no such branch |
| BotSettingsFile.Restart | bo_vpn_agent/telegram_audio_bot.py:473-519 | What was saved, loaded under an inventory that may have changed, gives each allowed user with a surviving branch name the branch, the effective settings, and the target at its present address or no target |
| BotSettingsFile.RoundTrip | bo_vpn_agent/telegram_audio_bot.py:473-519 | With the inventory unchanged a user gets branch, target, effective volume and channel back if and only if the branch name survives the normalisations it goes through |
| BotSettingsFile.FixedPointSurvives | bo_vpn_agent/telegram_audio_bot.py:521-530 | A branch name that is a fixed point of normalisation survives |
| BotSession.AudioBot.Start | bo_vpn_agent/telegram_audio_bot.py:135-160 | There is a bot if and only if the settings file is read to its end; then each user is as the file says, awaiting nothing, and the invariant holds if the keys are distinct |
| BotSession.AudioBot.Load | bo_vpn_agent/telegram_audio_bot.py:492-519 | The loop ends exactly if no entry of an allowed user has an infinite volume, and then leaves each user with what the entries about that user yield, in order |
| BotSession.AudioBot.LoadEntry | bo_vpn_agent/telegram_audio_bot.py:501-519 | One entry changes its own user only, as far as it gets before something raises that is handled; an infinite volume is not |
| BotSession.AudioBot.Save | bo_vpn_agent/telegram_audio_bot.py:473-490 | In whatever order the users are written, the file then tells of every user what a restart needs; if saving fails, the file is as it was |
| BotSession.AudioBot.SetAudio | bo_vpn_agent/telegram_audio_bot.py:389-396 | The target follows the settings, the invariant is kept whether or not the file can be written, and nobody else is touched |
| BotSession.AudioBot.HandleBranch | bo_vpn_agent/telegram_audio_bot.py:320-337 | No name asks for one, an unknown name changes nothing, a known one is stored and drops the target; the number is awaited only if the file was written |
| BotSession.AudioBot.HandleTarget | bo_vpn_agent/telegram_audio_bot.py:285-309 | A text that does not parse changes nothing at all; one that does sets target, branch and settings together |
| BotSession.AudioBot.HandleVolume | bo_vpn_agent/telegram_audio_bot.py:265-281 | A whole number of 1 to 100 sets the volume; anything else is asked for again |
| BotSession.AudioBot.HandleCommand | bo_vpn_agent/telegram_audio_bot.py:240-318 | Every command does to its user what is specified for it and nothing to anyone else; an unknown command changes nothing |
| BotSession.AudioBot.HandleMessage | bo_vpn_agent/telegram_audio_bot.py:183-238 | A text is taken for the one input that is awaited, a track starts a job for the user's present target exactly if there is one and the user is not busy, and a stranger changes nothing |
| BotSession.AudioBot.HandleAction | bo_vpn_agent/telegram_audio_bot.py:453-471 | Each panel action has its specified effect; volume steps stay within 1 to 100 |
| BotSession.AudioBot.HandleCallback | bo_vpn_agent/telegram_audio_bot.py:441-471 | Only a panel of the user's own has an effect, and only if the API has answered |
| BotSession.AudioBot.Run | bo_vpn_agent/telegram_audio_bot.py:162-181 | Over every sequence of updates, with any handler cut short by a failing save or API call, the invariant holds (one awaited input at most, volume and channel in range, every target the inventory's entry and in agreement with branch and settings); each user's state depends on that user's updates alone; and the file is always that of the last successful write, whole and for all users as of one moment |
| BotSession.AudioBot.SavedIsDistinct | bo_vpn_agent/telegram_audio_bot.py:473-480 | No two entries of a file that the bot wrote are about one user, and the file is read to its end |
| BotSession.AudioBot.NextStart | bo_vpn_agent/telegram_audio_bot.py:473-519 | What the next start makes of such a file, for every user and under any inventory: exactly what the entry last written for the user yields; all of it, as far as the inventory has it, for an allowed user whose branch name survives |
| BotSession.AudioBot.SameStart | bo_vpn_agent/telegram_audio_bot.py:473-519 | Under the configuration of the last write, a restart gives a user everything that was last written back if and only if the branch name survives |
| BotSession.SessionFromNothing | bo_vpn_agent/telegram_audio_bot.py:135-181 | Any session from an empty file, with writes failing at any time: the file left is that of the last successful write, the last state if every write succeeded |
| BotSession.NextBot | bo_vpn_agent/telegram_audio_bot.py:135-160 | The bot that starts on that file, with perhaps another inventory, starts, keeps the invariant, has for each user what was last written as far as it can be restored, and still knows the file as that of the last successful write |
| BotSession.Lives | bo_vpn_agent/telegram_audio_bot.py:135-181 | Any number of restarts, with another inventory, other aliases or other users each time and writes failing at any time: every start yields what was last written successfully in any life before it, and the last bot stands where its own updates take it from there |
| BotDialogs.DialogIsCommand | bo_vpn_agent/telegram_audio_bot.py:190-208 | From every state, asking with `/volume`, `/branch` or `/target` and answering in a second message does to the settings what the command with the answer behind it does; a user without a branch who asks for a target is asked for the branch first |
| BotDialogs.VolumeIsSet | bo_vpn_agent/telegram_audio_bot.py:265-281 | `/volume N`: the volume is N and nothing else but the target's volume changes, if N is 1 to 100; else nothing changes and it is asked for |
| BotDialogs.BranchIsSet | bo_vpn_agent/telegram_audio_bot.py:320-337 | `/branch NAME`: a known branch is set, the target dropped and the audio settings kept; an unknown one changes nothing at all |
| BotDialogs.TargetIsSet | bo_vpn_agent/telegram_audio_bot.py:285-309 | `/target WORDS`: the one target the words mean is taken over with its branch, volume and channel; where they mean none, nothing changes |
| BotDialogs.TargetWordByWord | bo_vpn_agent/telegram_audio_bot.py:339-379 | `/target BRANCH NUMBER VOLUME CHANNEL` sets just these; `/target NUMBER` sets the entry of the user's own branch with the volume and channel in force |
| BotDialogs.PlainCommandsChangeNothing | bo_vpn_agent/telegram_audio_bot.py:240-318 | The other commands leave all settings alone, and nothing is awaited after them |
| BotDialogs.TrackIsPlayed | bo_vpn_agent/telegram_audio_bot.py:210-238 | A track starts a job for exactly the user's target, unless it is too large or the user is busy; a user without a target is asked for one |
| BotDialogs.QuieterAndLouder | bo_vpn_agent/telegram_audio_bot.py:462-466 | The callbacks `audio:USER:quieter` and `audio:USER:louder` change the volume by five, down and up within 1 to 100, and nothing else but the target's volume |
| BotDialogs.ChannelAndBranchButtons | bo_vpn_agent/telegram_audio_bot.py:454-461 | A channel button sets that channel alone, an unknown one changes nothing; a branch button does what the command does |
| BotDialogs.AskingButtons | bo_vpn_agent/telegram_audio_bot.py:467-472 | The asking buttons are the first half of a dialog; whatever was awaited before no longer is |
| BotDialogs.OtherPanelsDoNothing | bo_vpn_agent/telegram_audio_bot.py:441-453 | Another user's panel, one the API has not answered or one whose message is gone changes nothing |
| ManagedLogin.Login | bo_vpn_agent/container_namespace_executor.py:116-136 | The writes of a login are the first of its four lines; it fails exactly at the write that raises, as a failure of the VPN client if the system refuses, else with that exception |
| ManagedLogin.PollUntilConnected | bo_vpn_agent/container_namespace_executor.py:66-78 | At most one probe more than the intervals that cover the timeout; it gives up only past the deadline, ends with the first probe that is not negative, and no probe is skipped |
| ManagedLogin.EnsureConnected | bo_vpn_agent/container_namespace_executor.py:57-136 | One probe; a login only if that was negative, sessions are managed and credentials are there; polling only after all four lines; whatever a command, the secret file, the look for the control channel or a write raises is what leaves it |
| ManagedLogin.CleanUp | bo_vpn_agent/container_namespace_executor.py:207-223 | The disconnect sequence is written once, or the warning says why not, or the exception that is not one of the system leaves it |
| ManagedLogin.StripNewlines | bo_vpn_agent/container_namespace_executor.py:219-223 | Only newlines are dropped, and all of them at the end |
| ManagedLogin.PayloadIsTheSequence | bo_vpn_agent/container_namespace_executor.py:219-223 | The one write of a cleanup is the disconnect sequence line by line and in order, each line ended |
| ManagedLogin.Run | bo_vpn_agent/container_namespace_executor.py:27-55 | On every exit, whatever was raised, the cleanup has happened; its warnings are in the result that was built before, through the list both share; it replaces the outcome exactly if it raises itself |
| ManagedLogin.ControlChannelLines | bo_vpn_agent/container_namespace_executor.py:116-136 | What reaches the control channel in any run: nothing, or the first of menu entry, `1`, user name and password, which are those of the task or of the secret file, all four once polling starts; a login only in a managed session without a connection; then the disconnect sequence at most once |
| ManagedLogin.OperatesOnlyWhenConnected | bo_vpn_agent/container_namespace_executor.py:27-44 | The operation follows a probe that succeeded, with nothing but announcements in between; in that probe the commands for interface and route both ran to their end in time and saw what they looked for |
| ManagedLogin.PhasesOfARun | bo_vpn_agent/container_namespace_executor.py:27-55 | Exactly which phases each kind of run announces, cleanup included |
| ManagedLogin.RunFollowsThePhases | bo_vpn_agent/container_namespace_executor.py:27-55 | They are a sequence that the lifecycle of a daemon job allows, and a result is returned only where it may be |
| LogRotation.DoctorLog.ShiftBackups | scripts/vpn_doctor.py:97-100 | The descending loop never overwrites a backup: wherever an error stops it, the backups still spell the same text in the same order; without errors each has moved up by one |
| LogRotation.DoctorLog.Rotate | scripts/vpn_doctor.py:90-102 | Wherever an error stops it, backups and live log spell what they spelled before, short of at most the oldest backup; below the limit nothing moves |
| LogRotation.DoctorLog.Log | scripts/vpn_doctor.py:104-112 | After every call the files, oldest first, are a suffix of everything ever logged, and with no error each stays below the limit plus one line |
| LogRotation.JoinedMove | scripts/vpn_doctor.py:97-100 | Renaming a backup into the free place above it keeps the order of everything |
| LogRotation.AtMost | scripts/vpn_doctor.py:90-102 | Backups numbered 1 to N are at most N files |
| Utf8.LimitIsLongestPrefix | bo_vpn_agent/command_exec.py:66-70 | For every text and limit the result is the longest prefix of whole characters that fits (sections 3 and 4 of RFC 3629), and truncation stays within three bytes of the limit |
| Utf8.LimitChangesExactlyTruncated | bo_vpn_agent/command_exec.py:66-74 | The text changes exactly when it is reported as truncated, and truncating again changes nothing |
| Utf8.RoundTrip | bo_vpn_agent/command_exec.py:66-70 | Decoding, with errors ignored, undoes encoding |
| Utf8.FlagMeansLoss | bo_vpn_agent/command_exec.py:35-63 | A command result is flagged exactly when one of its two streams lost something |
| Text.NormalizeKeepsWords | bo_vpn_agent/vehicle_inventory.py:106-111 | Two spellings normalise to the same text exactly when they have the same words; normalising again changes nothing; only blank text normalises to nothing |
| Text.PlateIsIdentifier | bo_vpn_agent/vehicle_inventory.py:106-111 | The two normalisations agree |
| Inventory.ResolveMeetsSpecification | bo_vpn_agent/vehicle_inventory.py:55-66 | A record is the answer exactly when the query is not blank and the record is the only match in the first identifier field that matches at all; several matches there are an error |
| Inventory.BlankNeverMatches | bo_vpn_agent/vehicle_inventory.py:55-66 | A record without a value in a field is never found by that field |
| Inventory.PriorityIs | bo_vpn_agent/vehicle_inventory.py:55-66 | The only match by garage number is the answer; without any, the only match by vehicle id; without any, the only match by plate |
| Inventory.ParseReadsRows | bo_vpn_agent/vehicle_inventory.py:87-103 | One record for each row, in order and column by column, if every row has an address and an identifier; else the error of the first row that has not, by its number |
| Inventory.WhitespaceDoesNotMatter | bo_vpn_agent/vehicle_inventory.py:55-66 | Other or more whitespace in a query does not change the answer |
| Inventory.VehicleInventory.LoadRecords | bo_vpn_agent/vehicle_inventory.py:87-103 | The cache yields what parsing the file afresh would, as long as changed content comes with a changed mtime; an error leaves the cache alone |
| Inventory.VehicleInventory.ResolveQuery | bo_vpn_agent/vehicle_inventory.py:55-66 | The loop over the fields, on cached records, gives the specified answer for the present file |
| Inventory.VehicleInventory.ResolveVehicle | bo_vpn_agent/vehicle_inventory.py:68-85 | The first identifier that is given decides the field; a bare number is a query |
| Inventory.VehicleInventory.AnswerAll | bo_vpn_agent/vehicle_inventory.py:49-103 | Over any sequence of files and requests in which equal mtimes mean equal content, each answer is that of a fresh parse of the file as it then is |

## Left out

- HTTP handlers, bearer checks, JSON encoding and real sockets: their effects are steps or parameters.
- Docker, nsenter, ssh and ffmpeg calls: abstract outcomes; `existing_container_executor.py` is one outcome as a whole.
- Fingerprints and UUIDs: equality of payloads, and identifiers that are fresh by assumption.
- The longest wait that a join accepts: the constant of platforms with 64-bit times; only the run of `DaemonRuns.JobIsLeft` depends on its value.
- Clocks: real or integer readings that never go back, constant within one critical section; durations truncate as `int` does.
- Texts of messages and errors: kept only where another component reads them; most are placeholders in English.
- Payload validation in `_build_task` and `_build_job`: a missing or malformed request id, user or body is one rejected case each.
- `health()` of the worker: it walks the task table without the lock; no claim is made about it.
- The artifact store, and the write of the audit line itself: a write that fails is a parameter, and its task is then excepted from the ledger.
- Exclusivity of the control channel: the daemon does not serialise jobs, so the trace of `ManagedLogin` is that of one run.
- ManagedLogin.Run: requires a positive poll interval and a clock that advances by it between two readings; with interval 0 the loop has no bound. A write of the control channel that raises is taken to have appended nothing.
- ManagedLogin.EnsureConnected: probes, clock and raising writes come from the environment by number; the delays between the four lines are not modelled, and announcing a phase is taken not to raise.
- Utf8.LimitIsLongestPrefix: texts are sequences of Unicode scalar values, so lone surrogates, which make the encoding raise, and negative limits do not occur.
- LogRotation.DoctorLog.Log: a write that fails halfway is taken to have appended nothing; `clean`, whose redaction is not claimed to be complete, yields the line as a parameter.
- Inventory.VehicleInventory.LoadRecords: one snapshot of the file stands for both its `stat` and its opening, so a file replaced between the two is not a case; sequential calls only, since the class is not synchronised; that an address of a record is valid is an uninterpreted predicate.
- TunnelTargets.OnlyWhatWasNamed: `int` of a port is uninterpreted; that an address of another kind is refused follows from its not being a dotted quad; reset connections are the failing steps of helper and proxy.
- RelayLoops.Copy: a receive that raises is not a case of this loop; it is the failing step of the helper in `Tunnel`.
- The relay of `Tunnel` and the job threads of `StopProtocol`: several processes at work at once, hence step systems and not methods; objects of the jobs are values there.
- BotSettings.ParseTarget: lower-casing and `int` are those of the standard library and uninterpreted; the texts of its errors are left out.
- BotSettingsFile.DistinctLoads: requires that no branch is an ambush in the sense of `AmbushDecides`, which is exactly what is needed, and that the inventory lists no empty number, which its loader ensures.
- BotSession.AudioBot.Start: a file nested so deeply that reading it raises a recursion error is not a case; an unreadable file counts as a missing one; a file that is there is its list of members.
- StopProtocol.StepKeepsInv: a job thread that cannot be started is one that never moves, which leaves its user busy; a second signal while the handler runs, and the interpreter's own shutdown after it, are not steps; removing a job's temporary files is taken not to raise.
- BotSession.AudioBot.Run: handlers run one after the other, as the polling loop has them; whether a user is busy is a parameter here and part of `StopProtocol` there; the reading of the selection of media and of chat ids is not modelled.
- Panels, keyboards, downloads, the vehicle check of the bot through the worker, `_marker_int` and playback messages: no state beyond what is modelled.
- `VpnDoctor.repair`, `inspect`, `preflight` and `record_state`; configuration and environment loading; operation tables and capability answers: straight-line code.
