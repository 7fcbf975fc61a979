/**
 One run of the container-namespace executor: probe, log in through the control channel, poll
 until the interface and the route are there, operate, and clean up on every exit. Commands,
 clock readings and failing writes come from the environment; what the run does is its trace.
 */
module ManagedLogin {
  import opened Common
  import opened Phases
  import IPv4

  datatype Config = Config(
    manageSession: bool, stopAfterTask: bool, secretLogin: bool,
    timeout: int, interval: int, menuIndex: string, disconnect: Option<seq<string>>)

  /** What leaves a block: a `RunnerFailure` with its code, or any other exception. */
  datatype Exception = Failure(code: ErrorCode) | Escaped(text: string)

  /** How one command ended: whether its output names what was looked for, or that running it raised. */
  datatype Command = Ran(timedOut: bool, succeeded: bool, found: bool) | Unrunnable(text: string)

  datatype Probe = Up | Down | Broken(error: Exception)

  const VPN_ERROR := Failure(RunnerCode("vpn_client_error"))
  const TIMED_OUT := Failure(OperationTimeout)

  function Verdict(address: Command, routes: Command): Probe {
    if address.Unrunnable? then Broken(Escaped(address.text))
    else if address.timedOut then Broken(TIMED_OUT)
    else if !(address.succeeded && address.found) then Down
    else if routes.Unrunnable? then Broken(Escaped(routes.text))
    else if routes.timedOut then Broken(TIMED_OUT)
    else if !routes.succeeded then Broken(VPN_ERROR)
    else if routes.found then Up
    else Down
  }

  /** The command ran to its end in time, and its output names what was looked for. */
  predicate Saw(c: Command) {
    c.Ran? && !c.timedOut && c.succeeded && c.found
  }

  /** Connected means that the interface and the route were both seen. */
  lemma UpNeedsInterfaceAndRoute(address: Command, routes: Command)
    ensures Verdict(address, routes) == Up <==> Saw(address) && Saw(routes)
  {
  }

  datatype Vpn = InlineOnce(username: string, password: string) | ContainerSecret | OtherVpn

  /** The secret file: what it holds under the two names, or how reading it raises. */
  datatype SecretFile = Holds(username: string, password: string) | Unreadable | Undecodable(text: string)

  /** `_credentials`. */
  function Credentials(cfg: Config, vpn: Vpn, secretFile: SecretFile): Result<(string, string), Exception> {
    match vpn
    case InlineOnce(username, password) => if username == ""
      || password == "" then Err(VPN_ERROR) else Ok((username, password))
    case ContainerSecret => (
      if !cfg.secretLogin then Err(VPN_ERROR)
      else match secretFile
        case Holds(username, password) => if username == ""
          || password == "" then Err(VPN_ERROR) else Ok((username, password))
        case Unreadable => Err(VPN_ERROR)
        case Undecodable(text) => Err(Escaped(text)))
    case OtherVpn => Err(VPN_ERROR)
  }

  datatype Operation = VehicleReachability | BasicStatus | OtherOperation

  datatype Performed = Done(summary: string, data: Data, warnings: seq<string>) | Throws(error: Exception)

  /** How a write to the control channel raises: as an error of the system, or otherwise. */
  datatype WriteError = OsError | OtherError(text: string)

  /**
   The environment: the i-th probe, the i-th clock reading of the polling loop, how looking for the control
   channel raises and how the i-th write to it does, if they do.
   */
  datatype Env = Env(
    address: nat -> Command, routes: nat -> Command, clock: nat -> int,
    lookFails: Option<string>, writeFails: nat -> Option<WriteError>,
    secretFile: SecretFile, performed: Performed)

  datatype Event =
    | SetState(phase: Phase)
    | Probed(probe: Probe)
    | Wrote(line: string)
    | WriteFailed(line: string)
    | Operated

  /** A list of warnings that the result and the executor share. */
  class StringList {
    var items: seq<string>

    constructor ()
      ensures items == []
    {
      items := [];
    }

    method Extend(more: seq<string>)
      modifies this
      ensures items == old(items) + more
    {
      items := items + more;
    }
  }

  datatype RunnerOutcome = Returned(summary: string, data: Data, warnings: StringList) | Raised(error: Exception)

  /** The writes that reached the control channel. */
  function Written(trace: seq<Event>): seq<string> {
    if trace == [] then []
    else (if trace[0].Wrote? then [trace[0].line] else []) + Written(trace[1..])
  }

  lemma {:induction false} WrittenAppends(a: seq<Event>, b: seq<Event>)
    ensures Written(a + b) == Written(a) + Written(b)
  {
    if a == [] {
      assert a + b == b;
    } else {
      var head := if a[0].Wrote? then [a[0].line] else [];
      assert (a + b)[0] == a[0] && (a + b)[1..] == a[1..] + b;
      WrittenAppends(a[1..], b);
      assert head + (Written(a[1..]) + Written(b)) == head + Written(a[1..]) + Written(b);
    }
  }

  /** The phases announced, in order. */
  function Announced(trace: seq<Event>): seq<Phase> {
    if trace == [] then []
    else (if trace[0].SetState? then [trace[0].phase] else []) + Announced(trace[1..])
  }

  lemma {:induction false} AnnouncedAppends(a: seq<Event>, b: seq<Event>)
    ensures Announced(a + b) == Announced(a) + Announced(b)
  {
    if a == [] {
      assert a + b == b;
    } else {
      var head := if a[0].SetState? then [a[0].phase] else [];
      assert (a + b)[0] == a[0] && (a + b)[1..] == a[1..] + b;
      AnnouncedAppends(a[1..], b);
      assert head + (Announced(a[1..]) + Announced(b)) == head + Announced(a[1..]) + Announced(b);
    }
  }

  /** What the four writes of a login append. */
  function LoginLines(cfg: Config, credentials: (string, string)): seq<string> {
    [cfg.menuIndex + "\n", "1\n", credentials.0 + "\n", credentials.1 + "\n"]
  }

  /** A login that got as far as `n` lines: those were written, and the next one failed unless all four were. */
  ghost predicate LoginTrace(cfg: Config, credentials: (string, string), trace: seq<Event>, n: nat) {
    && n <= 4 && |trace| == (if n < 4 then n + 1 else 4)
    && (forall i :: 0 <= i < n ==> trace[i] == Wrote(LoginLines(cfg, credentials)[i]))
    && (n < 4 ==> trace[n] == WriteFailed(LoginLines(cfg, credentials)[n]))
  }

  /** What a login makes of a write that raises. */
  function LoginError(e: WriteError): Exception {
    match e
    case OsError => VPN_ERROR
    case OtherError(text) => Escaped(text)
  }

  /** One write of a login. */
  method WriteLine(env: Env, i: nat, line: string) returns (event: Event, error: Option<Exception>)
    ensures event == if env.writeFails(i).Some? then WriteFailed(line) else Wrote(line)
    ensures error == if env.writeFails(i).Some? then Some(LoginError(env.writeFails(i).value)) else None
  {
    match env.writeFails(i)
    case Some(raised) => return WriteFailed(line), Some(LoginError(raised));
    case None => return Wrote(line), None;
  }

  /** The four writes of `_login`. */
  method Login(cfg: Config, env: Env, credentials: (string, string)) returns (trace: seq<Event>,
      error: Option<Exception>)
    ensures exists n: nat ::
              && LoginTrace(cfg, credentials, trace, n) && (error.None? <==> n == 4)
              && (n < 4 ==> env.writeFails(n).Some? && error == Some(LoginError(env.writeFails(n).value)))
  {
    var event;
    event, error := WriteLine(env, 0, cfg.menuIndex + "\n");
    trace := [event];
    if error.Some? {
      assert LoginTrace(cfg, credentials, trace, 0);
      return;
    }
    event, error := WriteLine(env, 1, "1\n");
    trace := trace + [event];
    if error.Some? {
      assert LoginTrace(cfg, credentials, trace, 1);
      return;
    }
    event, error := WriteLine(env, 2, credentials.0 + "\n");
    trace := trace + [event];
    if error.Some? {
      assert LoginTrace(cfg, credentials, trace, 2);
      return;
    }
    event, error := WriteLine(env, 3, credentials.1 + "\n");
    trace := trace + [event];
    assert LoginTrace(cfg, credentials, trace, if error.Some? then 3 else 4);
  }

  /** The number of intervals that cover a timeout, rounded up. */
  function Intervals(timeout: int, interval: int): nat
    requires interval > 0
  {
    if timeout <= 0 then 0 else (timeout + interval - 1) / interval
  }

  lemma FewIntervals(n: nat, timeout: int, interval: int)
    requires interval > 0 && n * interval < timeout
    ensures n < Intervals(timeout, interval)
  {
    var q := Intervals(timeout, interval);
    assert timeout <= q * interval;
    if q <= n {
      TimesMonotone(q, n, interval);
      assert false;
    }
  }

  lemma TimesMonotone(a: nat, b: nat, k: int)
    requires a <= b && k > 0
    ensures a * k <= b * k
  {
  }

  /** Readings never go back, and a sleep of one interval lies between two readings of the loop. */
  ghost predicate ClockAdvances(env: Env, interval: int) {
    env.clock(0) <= env.clock(1) && forall i: nat :: i >= 1 ==> env.clock(i) + interval <= env.clock(i + 1)
  }

  lemma {:induction false} ClockAtLeast(env: Env, interval: int, n: nat)
    requires ClockAdvances(env, interval) && n >= 1
    ensures env.clock(n) >= env.clock(0) + (n - 1) * interval
  {
    if n > 1 {
      ClockAtLeast(env, interval, n - 1);
      assert (n - 1) * interval == (n - 2) * interval + interval;
    }
  }

  /** All probes but the last found nothing. */
  ghost predicate Polls(trace: seq<Event>) {
    (forall e :: e in trace ==> e.Probed?) && forall i :: 0 <= i < |trace| - 1 ==> trace[i] == Probed(Down)
  }

  /** The probes of the loop are those of the environment, after the one made before the login. */
  ghost predicate ProbesFrom(env: Env, trace: seq<Event>) {
    forall i :: 0 <= i < |trace| ==> trace[i] == Probed(Verdict(env.address(i + 1), env.routes(i + 1)))
  }

  /** The error a last probe ends in, if it is not a success. */
  function GivesUp(last: Probe): Option<Exception> {
    match last
    case Up => None
    case Down => Some(VPN_ERROR)
    case Broken(error) => Some(error)
  }

  /** The loop against the deadline; probe number 0 was made before the login. */
  method PollUntilConnected(cfg: Config, env: Env) returns (trace: seq<Event>, error: Option<Exception>)
    requires cfg.interval > 0 && ClockAdvances(env, cfg.interval)
    ensures trace != [] && Polls(trace)
    ensures |trace| <= Intervals(cfg.timeout, cfg.interval) + 1
    ensures error == GivesUp(trace[|trace| - 1].probe)
    ensures trace[|trace| - 1] == Probed(Down) ==> env.clock(|trace|) >= env.clock(0) + cfg.timeout
    ensures ProbesFrom(env, trace)
  {
    var deadline := env.clock(0) + cfg.timeout;
    var attempt: nat := 1;
    trace := [];
    while true
      invariant attempt == |trace| + 1
      invariant attempt <= Intervals(cfg.timeout, cfg.interval) + 1
      invariant forall i :: 0 <= i < |trace| ==> trace[i] == Probed(Down)
      invariant ProbesFrom(env, trace)
      decreases Intervals(cfg.timeout, cfg.interval) + 2 - attempt
    {
      var probe := Verdict(env.address(attempt), env.routes(attempt));
      trace := trace + [Probed(probe)];
      if probe.Broken? {
        return trace, Some(probe.error);
      }
      if probe.Up? {
        return trace, None;
      }
      if env.clock(attempt) >= deadline {
        return trace, Some(VPN_ERROR);
      }
      ClockAtLeast(env, cfg.interval, attempt);
      FewIntervals(attempt - 1, cfg.timeout, cfg.interval);
      attempt := attempt + 1;
    }
  }

  /** What `_ensure_vpn_connected` may have done: probed once; then perhaps logged in; then perhaps polled. */
  ghost predicate Connecting(cfg: Config, env: Env, vpn: Vpn, login: seq<Event>, polling: seq<Event>,
      error: Option<Exception>) {
    var first := Verdict(env.address(0), env.routes(0));
    var credentials := Credentials(cfg, vpn, env.secretFile);
    if first != Down || !cfg.manageSession then login == [] && polling == [] && error == GivesUp(first)
    else if credentials.Err? then login == [] && polling == [] && error == Some(credentials.error)
    else if env.lookFails.Some? then login == [] && polling == [] && error == Some(Escaped(env.lookFails.value))
    else exists n: nat :: LoggedIn(cfg, env, credentials.value, login, polling, error, n)
  }

  /**
   The login got to line `n`; after all four, polling follows, until it succeeds, breaks or the deadline
   has passed.
   */
  ghost predicate LoggedIn(cfg: Config, env: Env, credentials: (string, string),
                           login: seq<Event>, polling: seq<Event>, error: Option<Exception>, n: nat) {
    && LoginTrace(cfg, credentials, login, n)
    && (n < 4 ==> polling == [] && env.writeFails(n).Some? && error == Some(LoginError(env.writeFails(n).value)))
    && (n == 4 ==> PolledToTheEnd(cfg, env, polling, error))
  }

  ghost predicate PolledToTheEnd(cfg: Config, env: Env, polling: seq<Event>, error: Option<Exception>) {
    && polling != [] && Polls(polling) && ProbesFrom(env, polling)
    && (cfg.interval > 0 ==> |polling| <= Intervals(cfg.timeout, cfg.interval) + 1)
    && error == GivesUp(polling[|polling| - 1].probe)
    && (polling[|polling| - 1] == Probed(Down) ==> env.clock(|polling|) >= env.clock(0) + cfg.timeout)
  }

  method EnsureConnected(cfg: Config, env: Env, vpn: Vpn)
    returns (trace: seq<Event>, error: Option<Exception>, login: seq<Event>, polling: seq<Event>)
    requires cfg.interval > 0 && ClockAdvances(env, cfg.interval)
    ensures trace == [Probed(Verdict(env.address(0), env.routes(0)))] + login + polling
    ensures Connecting(cfg, env, vpn, login, polling, error)
  {
    var first := Verdict(env.address(0), env.routes(0));
    trace, login, polling := [Probed(first)], [], [];
    if first.Broken? {
      return trace, Some(first.error), [], [];
    }
    if first.Up? {
      return trace, None, [], [];
    }
    if !cfg.manageSession {
      return trace, Some(VPN_ERROR), [], [];
    }
    var credentials := Credentials(cfg, vpn, env.secretFile);
    if credentials.Err? {
      return trace, Some(credentials.error), [], [];
    }
    if env.lookFails.Some? {
      return trace, Some(Escaped(env.lookFails.value)), [], [];
    }
    login, error := Login(cfg, env, credentials.value);
    ghost var n: nat :| LoginTrace(cfg, credentials.value, login, n) && (error.None? <==> n == 4)
      && (n < 4 ==> env.writeFails(n).Some? && error == Some(LoginError(env.writeFails(n).value)));
    trace := trace + login;
    if error.None? {
      polling, error := PollUntilConnected(cfg, env);
      trace := trace + polling;
    }
    assert LoggedIn(cfg, env, credentials.value, login, polling, error, n);
  }

  const NOT_CONFIGURED := ["UniVPN cleanup requested, but disconnect sequence is not configured"]
  const CLEANUP_FAILED := ["UniVPN cleanup failed"]

  /**
   The lines of the disconnect sequence, joined and without newlines at the end, as one write that ends in
   one newline.
   */
  function Payload(lines: seq<string>): string {
    StripNewlines(Joined(lines)) + "\n"
  }

  function Joined(lines: seq<string>): string {
    if lines == [] then "" else if |lines| == 1 then lines[0] else lines[0] + "\n" + Joined(lines[1..])
  }

  function StripNewlines(s: string): (r: string)
    ensures |r| <= |s| && r == s[..|r|]
    ensures r != "" ==> r[|r| - 1] != '\n'
    ensures forall i :: |r| <= i < |s| ==> s[i] == '\n'
  {
    if s != "" && s[|s| - 1] == '\n' then StripNewlines(s[..|s| - 1]) else s
  }

  /**
   What `_cleanup` does, given how its write would raise: the warnings it returns, or the exception that
   leaves it.
   */
  ghost predicate CleansUp(cfg: Config, fails: Option<WriteError>, trace: seq<Event>, warnings: seq<string>,
      raised: Option<Exception>) {
    if !cfg.stopAfterTask then trace == [] && warnings == [] && raised == None
    else if cfg.disconnect.None? then trace == [SetState(Cleanup)] && warnings == NOT_CONFIGURED && raised == None
    else
      var line := Payload(cfg.disconnect.value);
      match fails
      case Some(OsError) => trace == [SetState(Cleanup), WriteFailed(line)] && warnings == CLEANUP_FAILED
        && raised == None
      case Some(OtherError(text)) => trace == [SetState(Cleanup), WriteFailed(line)] && warnings == []
        && raised == Some(Escaped(text))
      case None => trace == [SetState(Cleanup), Wrote(line)] && warnings == [] && raised == None
  }

  /** The disconnect write is write number 4 of the environment, after the four of a login. */
  method CleanUp(cfg: Config, env: Env) returns (trace: seq<Event>, warnings: seq<string>, raised: Option<Exception>)
    ensures CleansUp(cfg, env.writeFails(4), trace, warnings, raised)
  {
    if !cfg.stopAfterTask {
      return [], [], None;
    }
    trace := [SetState(Cleanup)];
    if cfg.disconnect.None? {
      return trace, NOT_CONFIGURED, None;
    }
    var line := Payload(cfg.disconnect.value);
    match env.writeFails(4)
    case Some(OsError) => return trace + [WriteFailed(line)], CLEANUP_FAILED, None;
    case Some(OtherError(text)) => return trace + [WriteFailed(line)], [], Some(Escaped(text));
    case None => return trace + [Wrote(line)], [], None;
  }

  /** What follows a connection, by operation. */
  function OperationTrace(operation: Operation): seq<Event> {
    match operation
    case VehicleReachability => [SetState(VpnConnected), SetState(CheckingVehicle), Operated]
    case BasicStatus => [SetState(VpnConnected), SetState(CheckingVehicle), SetState(RunningOperation), Operated]
    case OtherOperation => [SetState(VpnConnected)]
  }

  const NOT_ALLOWED := Failure(RunnerCode("operation_not_allowed"))

  /** A run in its parts, in the order in which they happened. */
  ghost predicate RunTrace(cfg: Config, env: Env, vpn: Vpn, operation: Operation, trace: seq<Event>, run: Parts) {
    && Connecting(cfg, env, vpn, run.login, run.polling, run.error)
    && CleansUp(cfg, env.writeFails(4), run.cleanup, run.notes, run.broken)
    && trace == BeforeOperation(env, run.login, run.polling)
                + (if run.error.None? then OperationTrace(operation) else []) + run.cleanup
  }

  /** The parts of a run; `error` is what connecting raised, `broken` what the cleanup raised. */
  datatype Parts = Parts(
    login: seq<Event>, polling: seq<Event>, error: Option<Exception>,
    cleanup: seq<Event>, notes: seq<string>, broken: Option<Exception>)

  function BeforeOperation(env: Env, login: seq<Event>, polling: seq<Event>): seq<Event> {
    [SetState(StartingVpn), Probed(Verdict(env.address(0), env.routes(0)))] + login + polling
  }

  /** The error of the `try` block, if it ends in one. */
  function Fault(env: Env, operation: Operation, connecting: Option<Exception>): Option<Exception> {
    if connecting.Some? then connecting
    else if operation == OtherOperation then Some(NOT_ALLOWED)
    else if env.performed.Throws? then Some(env.performed.error)
    else None
  }

  /** The `try` block. */
  method Attempt(cfg: Config, env: Env, vpn: Vpn, operation: Operation, warnings: StringList)
    returns (trace: seq<Event>, outcome: RunnerOutcome, login: seq<Event>, polling: seq<Event>,
      error: Option<Exception>)
    requires cfg.interval > 0 && ClockAdvances(env, cfg.interval) && warnings.items == []
    modifies warnings
    ensures Connecting(cfg, env, vpn, login, polling, error)
    ensures trace == BeforeOperation(env, login, polling) + (if error.None? then OperationTrace(operation) else [])
    ensures Fault(env, operation, error).Some? ==> outcome == Raised(Fault(env, operation, error).value)
    ensures Fault(env, operation, error).None? ==>
              && env.performed.Done? && outcome
                 == RunnerOutcome.Returned(env.performed.summary, env.performed.data, warnings)
              && warnings.items == env.performed.warnings
  {
    trace := [SetState(StartingVpn)];
    var connecting, raised;
    connecting, raised, login, polling := EnsureConnected(cfg, env, vpn);
    error := raised;
    trace := trace + connecting;
    ghost var before := BeforeOperation(env, login, polling);
    assert trace == before;
    if raised.Some? {
      assert trace == before + [];
      return trace, Raised(raised.value), login, polling, error;
    }
    trace := trace + [SetState(VpnConnected)];
    if operation == OtherOperation {
      return trace, Raised(NOT_ALLOWED), login, polling, error;
    }
    trace := trace + [SetState(CheckingVehicle)];
    if operation == BasicStatus {
      trace := trace + [SetState(RunningOperation)];
    }
    trace := trace + [Operated];
    assert trace == before + OperationTrace(operation);
    match env.performed {
      case Throws(thrown) => outcome := Raised(thrown);
      case Done(summary, data, own) =>
        warnings.Extend(own);
        outcome := RunnerOutcome.Returned(summary, data, warnings);
    }
  }

  /**
   The whole run. Cleanup happens on every exit, whatever was raised; the result that is returned
   refers to the list of warnings, which the cleanup extends after the result was built. Only a
   cleanup that itself raises takes the place of the outcome.
   */
  method Run(cfg: Config, env: Env, vpn: Vpn, operation: Operation)
    returns (trace: seq<Event>, outcome: RunnerOutcome, run: Parts)
    requires cfg.interval > 0 && ClockAdvances(env, cfg.interval)
    ensures RunTrace(cfg, env, vpn, operation, trace, run)
    ensures run.broken.Some? ==> outcome == Raised(run.broken.value)
    ensures run.broken.None? && Fault(env, operation, run.error).Some? ==>
            outcome == Raised(Fault(env, operation, run.error).value)
    ensures run.broken.None? && run.error.Some? ==> outcome == Raised(run.error.value)
    ensures run.broken.None? && run.error.None? && operation != OtherOperation && env.performed.Throws? ==>
              outcome == Raised(env.performed.error)
    ensures run.broken.None? && Fault(env, operation, run.error).None? ==>
              && outcome.Returned? && env.performed.Done?
              && outcome.summary == env.performed.summary && outcome.data == env.performed.data
              && outcome.warnings.items == env.performed.warnings + run.notes
  {
    var warnings := new StringList();
    var login, polling, error;
    trace, outcome, login, polling, error := Attempt(cfg, env, vpn, operation, warnings);
    // finally
    var cleaned, more, broken := CleanUp(cfg, env);
    run := Parts(login, polling, error, cleaned, more, broken);
    trace := trace + cleaned;
    if broken.Some? {
      outcome := Raised(broken.value);
    } else if outcome.Returned? {
      warnings.Extend(more);
    }
  }

  // --- What the trace of every run looks like -----------------------------------------------------

  lemma {:induction false} NothingWritten(trace: seq<Event>)
    requires forall e :: e in trace ==> !e.Wrote?
    ensures Written(trace) == []
  {
    if trace != [] {
      NothingWritten(trace[1..]);
    }
  }

  lemma LoginWrites(cfg: Config, credentials: (string, string), trace: seq<Event>, n: nat)
    requires LoginTrace(cfg, credentials, trace, n)
    ensures Written(trace) == LoginLines(cfg, credentials)[..n]
  {
    var lines := LoginLines(cfg, credentials);
    assert forall i :: 0 <= i < n ==> trace[i] == Wrote(lines[i]);
    WrittenFrom(trace, lines, n, 0);
    assert trace[0..] == trace && lines[0..n] == lines[..n];
  }

  lemma {:induction false} WrittenFrom(trace: seq<Event>, lines: seq<string>, n: nat, i: nat)
    requires i <= n <= |lines| && n <= |trace| <= n + 1
    requires forall k :: 0 <= k < n ==> trace[k] == Wrote(lines[k])
    requires |trace| == n + 1 ==> trace[n].WriteFailed?
    ensures Written(trace[i..]) == lines[i..n]
    decreases n - i
  {
    if i == n {
      NothingWritten(trace[i..]);
    } else {
      assert trace[i..][1..] == trace[i + 1..];
      WrittenFrom(trace, lines, n, i + 1);
    }
  }

  lemma OperationWritesNothing(operation: Operation)
    ensures Written(OperationTrace(operation)) == []
  {
    NothingWritten(OperationTrace(operation));
  }

  lemma {:induction false} JoinedIsJoinedBy(lines: seq<string>)
    requires lines != []
    ensures Joined(lines) == IPv4.JoinedBy(lines, '\n')
  {
    if |lines| > 1 {
      JoinedIsJoinedBy(lines[1..]);
    }
  }

  lemma {:induction false} LastStays(lines: seq<string>)
    requires lines != [] && lines[|lines| - 1] != "" && '\n' !in lines[|lines| - 1]
    ensures Joined(lines) != "" && Joined(lines)[|Joined(lines)| - 1] != '\n'
  {
    if |lines| == 1 {
      assert lines[0][|lines[0]| - 1] in lines[0];
    } else {
      assert lines[1..][|lines| - 2] == lines[|lines| - 1];
      LastStays(lines[1..]);
    }
  }

  /** The one write of a cleanup is the disconnect sequence, line by line and in order, with an end to each line. */
  lemma PayloadIsTheSequence(lines: seq<string>)
    requires lines != [] && lines[|lines| - 1] != "" && forall line :: line in lines ==> '\n' !in line
    ensures IPv4.Split(Payload(lines), '\n') == lines + [""]
  {
    LastStays(lines);
    assert StripNewlines(Joined(lines)) == Joined(lines);
    JoinedIsJoinedBy(lines + [""]);
    JoinedWithEnd(lines);
    assert forall line :: line in lines + [""] ==> '\n' !in line;
    IPv4.SplitUndoesJoin(lines + [""], '\n');
  }

  lemma {:induction false} JoinedWithEnd(lines: seq<string>)
    requires lines != []
    ensures Joined(lines + [""]) == Joined(lines) + "\n"
  {
    var longer := lines + [""];
    if |lines| == 1 {
      assert longer[1..] == [""] && Joined(longer) == lines[0] + "\n" + "";
    } else {
      assert longer[1..] == lines[1..] + [""];
      JoinedWithEnd(lines[1..]);
    }
  }

  /** The lines of a cleanup: the disconnect sequence once, or nothing. */
  function CleanupLines(cfg: Config, fails: Option<WriteError>): seq<string> {
    if cfg.stopAfterTask && cfg.disconnect.Some? && fails.None? then [Payload(cfg.disconnect.value)] else []
  }

  lemma CleanupWrites(cfg: Config, fails: Option<WriteError>, trace: seq<Event>, warnings: seq<string>,
      raised: Option<Exception>)
    requires CleansUp(cfg, fails, trace, warnings, raised)
    ensures Written(trace) == CleanupLines(cfg, fails)
  {
    if trace != [] {
      WrittenAppends(trace[..1], trace[1..]);
      assert trace == trace[..1] + trace[1..];
      NothingWritten(trace[..1]);
      if |trace| == 2 {
        assert trace[1..] == [trace[1]] && [trace[1]][1..] == [];
      }
    }
  }

  /** The name and the password that the task brings along, or those of the secret file. */
  ghost predicate Provided(cfg: Config, vpn: Vpn, secretFile: SecretFile, username: string, password: string) {
    && username != "" && password != ""
    && (vpn == InlineOnce(username, password)
        || (vpn == ContainerSecret && cfg.secretLogin && secretFile == Holds(username, password)))
  }

  /** The first `n` of the four lines of a login. */
  ghost predicate LinesOf(cfg: Config, username: string, password: string, lines: seq<string>, n: nat) {
    n <= 4 && lines == [cfg.menuIndex + "\n", "1\n", username + "\n", password + "\n"][..n]
  }

  /**
   What the login of a run wrote: nothing, or the menu entry, the digit, the user name and the password, in this
   order and as far as it got. It takes a managed session and a first probe without a connection.
   */
  ghost predicate LoginWrote(cfg: Config, env: Env, vpn: Vpn, login: seq<Event>, polling: seq<Event>) {
    if login == [] then polling == []
    else
      && cfg.manageSession && !(Saw(env.address(0)) && Saw(env.routes(0)))
      && exists username, password, n: nat ::
           && Provided(cfg, vpn, env.secretFile, username, password)
           && LinesOf(cfg, username, password, Written(login), n) && (polling != [] ==> n == 4)
  }

  lemma CredentialsAreProvided(cfg: Config, vpn: Vpn, secretFile: SecretFile)
    ensures Credentials(cfg, vpn, secretFile).Ok? ==>
              Provided(cfg, vpn, secretFile, Credentials(cfg, vpn, secretFile).value.0,
                       Credentials(cfg, vpn, secretFile).value.1)
  {
  }

  lemma LinesAreFour(cfg: Config, credentials: (string, string), lines: seq<string>, n: nat)
    requires n <= 4 && lines == LoginLines(cfg, credentials)[..n]
    ensures LinesOf(cfg, credentials.0, credentials.1, lines, n)
  {
  }

  lemma LoginIsAPrefix(cfg: Config, env: Env, vpn: Vpn, login: seq<Event>, polling: seq<Event>,
      error: Option<Exception>)
    requires Connecting(cfg, env, vpn, login, polling, error)
    ensures LoginWrote(cfg, env, vpn, login, polling) && Written(polling) == []
  {
    hide Written, LoginLines, Provided, LinesOf, Saw, Verdict, Credentials;
    var credentials := Credentials(cfg, vpn, env.secretFile);
    if login != [] {
      var n: nat :| LoggedIn(cfg, env, credentials.value, login, polling, error, n);
      LoginWrites(cfg, credentials.value, login, n);
      CredentialsAreProvided(cfg, vpn, env.secretFile);
      UpNeedsInterfaceAndRoute(env.address(0), env.routes(0));
      LinesAreFour(cfg, credentials.value, Written(login), n);
    }
    NothingWritten(polling);
  }

  lemma WrittenInFive(a: seq<Event>, b: seq<Event>, c: seq<Event>, d: seq<Event>, e: seq<Event>)
    ensures Written(a + b + c + d + e) == Written(a) + Written(b) + Written(c) + Written(d) + Written(e)
  {
    hide Written;
    WrittenAppends(a + b + c + d, e);
    WrittenAppends(a + b + c, d);
    WrittenAppends(a + b, c);
    WrittenAppends(a, b);
  }

  /**
   What reaches the control channel in any run: nothing or the first lines of the login, all four
   once polling starts, and then the disconnect sequence at most once.
   */
  lemma ControlChannelLines(cfg: Config, env: Env, vpn: Vpn, operation: Operation, trace: seq<Event>, run: Parts)
    requires RunTrace(cfg, env, vpn, operation, trace, run)
    ensures LoginWrote(cfg, env, vpn, run.login, run.polling)
    ensures Written(trace) == Written(run.login) + CleanupLines(cfg, env.writeFails(4))
  {
    hide Written, Connecting, CleansUp, LoginWrote, Verdict, OperationTrace, CleanupLines;
    var start := [SetState(StartingVpn), Probed(Verdict(env.address(0), env.routes(0)))];
    var operating := if run.error.None? then OperationTrace(operation) else [];
    NothingWritten(start);
    NothingWritten([]);
    OperationWritesNothing(operation);
    CleanupWrites(cfg, env.writeFails(4), run.cleanup, run.notes, run.broken);
    LoginIsAPrefix(cfg, env, vpn, run.login, run.polling, run.error);
    WrittenInFive(start, run.login, run.polling, operating, run.cleanup);
  }

  /** A connection comes with a last probe that succeeded: number 0, or the last of the polling. */
  lemma SuccessWasProbed(cfg: Config, env: Env, vpn: Vpn, login: seq<Event>, polling: seq<Event>)
    requires Connecting(cfg, env, vpn, login, polling, None)
    ensures polling == [] ==> login == [] && Verdict(env.address(0), env.routes(0)) == Up
    ensures polling != [] ==> polling[|polling| - 1] == Probed(Up)
    ensures Verdict(env.address(|polling|), env.routes(|polling|)) == Up
  {
    hide Verdict, Credentials;
    var credentials := Credentials(cfg, vpn, env.secretFile);
    if n: nat :| credentials.Ok? && LoggedIn(cfg, env, credentials.value, login, polling, None, n) {
      if polling != [] {
        assert polling[|polling| - 1].probe == Up;
      }
    }
  }

  lemma ConnectingNeverOperates(cfg: Config, env: Env, vpn: Vpn, login: seq<Event>, polling: seq<Event>,
      error: Option<Exception>)
    requires Connecting(cfg, env, vpn, login, polling, error)
    ensures forall e :: e in login + polling ==> e != Operated && !e.SetState?
  {
    hide Verdict, Credentials, LoginLines;
    var credentials := Credentials(cfg, vpn, env.secretFile);
    if n: nat :| credentials.Ok? && LoggedIn(cfg, env, credentials.value, login, polling, error, n) {
      assert forall i :: 0 <= i < |login| ==> login[i].Wrote? || login[i].WriteFailed?;
    }
  }

  lemma OperatedAfter(before: seq<Event>, operation: Operation, connected: bool, cleanup: seq<Event>, k: nat)
    requires before != [] && Operated !in before && Operated !in cleanup
    requires connected ==> before[|before| - 1] == Probed(Up)
    requires var trace := before + (if connected then OperationTrace(operation) else []) + cleanup;
             k < |trace| && trace[k] == Operated
    ensures |before| <= k && connected
    ensures var trace := before + OperationTrace(operation) + cleanup;
            trace[|before| - 1] == Probed(Up) && forall i :: |before| <= i < k ==> trace[i].SetState?
  {
    var operating := if connected then OperationTrace(operation) else [];
    var trace := before + operating + cleanup;
    assert forall i :: 0 <= i < |before| ==> trace[i] == before[i];
    assert forall i :: 0 <= i < |operating| ==> trace[|before| + i] == operating[i];
    assert forall i :: 0 <= i < |cleanup| ==> trace[|before| + |operating| + i] == cleanup[i];
    assert |before| <= k < |before| + |operating|;
  }

  /**
   The operation is performed only after a probe that succeeded, with nothing but announcements
   between the two; and in that probe both commands ran to their end and saw what they looked for.
   */
  lemma OperatesOnlyWhenConnected(cfg: Config, env: Env, vpn: Vpn, operation: Operation, trace: seq<Event>,
      run: Parts, k: nat)
    requires RunTrace(cfg, env, vpn, operation, trace, run)
    requires k < |trace| && trace[k] == Operated
    ensures exists j: nat :: j < k && trace[j] == Probed(Up) && forall i :: j < i < k ==> trace[i].SetState?
    ensures Saw(env.address(|run.polling|)) && Saw(env.routes(|run.polling|))
  {
    hide Connecting, Verdict, OperationTrace, Saw;
    var before := BeforeOperation(env, run.login, run.polling);
    ConnectingNeverOperates(cfg, env, vpn, run.login, run.polling, run.error);
    assert before == [before[0], before[1]] + (run.login + run.polling);
    if run.error.None? {
      SuccessWasProbed(cfg, env, vpn, run.login, run.polling);
    }
    OperatedAfter(before, operation, run.error.None?, run.cleanup, k);
    UpNeedsInterfaceAndRoute(env.address(|run.polling|), env.routes(|run.polling|));
    var j: nat := |before| - 1;
    assert trace[j] == Probed(Up);
  }

  lemma {:induction false} NothingAnnounced(trace: seq<Event>)
    requires forall e :: e in trace ==> !e.SetState?
    ensures Announced(trace) == []
  {
    if trace != [] {
      NothingAnnounced(trace[1..]);
    }
  }

  function AnnouncedWhen(operation: Operation): seq<Phase> {
    match operation
    case VehicleReachability => [VpnConnected, CheckingVehicle]
    case BasicStatus => [VpnConnected, CheckingVehicle, RunningOperation]
    case OtherOperation => [VpnConnected]
  }

  /** `SetState` events announce their phases, one after the other. */
  lemma AnnouncedOne(phase: Phase, rest: seq<Event>)
    ensures Announced([SetState(phase)] + rest) == [phase] + Announced(rest)
  {
    assert ([SetState(phase)] + rest)[1..] == rest;
  }

  lemma OperationAnnounces(operation: Operation)
    ensures Announced(OperationTrace(operation)) == AnnouncedWhen(operation)
  {
    NothingAnnounced([]);
    NothingAnnounced([Operated]);
    AnnouncedOne(RunningOperation, [Operated]);
    AnnouncedOne(CheckingVehicle, [SetState(RunningOperation), Operated]);
    AnnouncedOne(CheckingVehicle, [Operated]);
    AnnouncedOne(VpnConnected, [SetState(CheckingVehicle), Operated]);
    AnnouncedOne(VpnConnected, [SetState(CheckingVehicle), SetState(RunningOperation), Operated]);
    AnnouncedOne(VpnConnected, []);
    hide Announced;
    match operation
    case VehicleReachability => assert OperationTrace(operation)
      == [SetState(VpnConnected)] + [SetState(CheckingVehicle), Operated];
    case BasicStatus => assert OperationTrace(operation)
      == [SetState(VpnConnected)] + [SetState(CheckingVehicle), SetState(RunningOperation), Operated];
    case OtherOperation => assert OperationTrace(operation) == [SetState(VpnConnected)] + [];
  }

  lemma CleanupAnnounces(cfg: Config, fails: Option<WriteError>, trace: seq<Event>, warnings: seq<string>,
      raised: Option<Exception>)
    requires CleansUp(cfg, fails, trace, warnings, raised)
    ensures Announced(trace) == if cfg.stopAfterTask then [Cleanup] else []
  {
    if trace != [] {
      AnnouncedOne(Cleanup, trace[1..]);
      assert trace == [SetState(Cleanup)] + trace[1..];
      NothingAnnounced(trace[1..]);
    }
  }

  lemma AnnouncedInFour(a: seq<Event>, b: seq<Event>, c: seq<Event>, d: seq<Event>)
    ensures Announced(a + b + c + d) == Announced(a) + Announced(b) + Announced(c) + Announced(d)
  {
    hide Announced;
    AnnouncedAppends(a + b + c, d);
    AnnouncedAppends(a + b, c);
    AnnouncedAppends(a, b);
  }

  /** Exactly which phases a run announces. */
  lemma PhasesOfARun(cfg: Config, env: Env, vpn: Vpn, operation: Operation, trace: seq<Event>, run: Parts)
    requires RunTrace(cfg, env, vpn, operation, trace, run)
    ensures Announced(trace) ==
              [StartingVpn] + (if run.error.None? then AnnouncedWhen(operation) else [])
                + (if cfg.stopAfterTask then [Cleanup] else [])
  {
    hide Connecting, Verdict, Announced, CleansUp, OperationTrace;
    var first := [Probed(Verdict(env.address(0), env.routes(0)))];
    var quiet := first + (run.login + run.polling);
    var operating := if run.error.None? then OperationTrace(operation) else [];
    ConnectingNeverOperates(cfg, env, vpn, run.login, run.polling, run.error);
    NothingAnnounced(quiet);
    NothingAnnounced([]);
    AnnouncedOne(StartingVpn, []);
    assert [SetState(StartingVpn)] + [] == [SetState(StartingVpn)];
    OperationAnnounces(operation);
    CleanupAnnounces(cfg, env.writeFails(4), run.cleanup, run.notes, run.broken);
    AnnouncedInFour([SetState(StartingVpn)], quiet, operating, run.cleanup);
    assert BeforeOperation(env, run.login, run.polling) == [SetState(StartingVpn)] + quiet;
  }

  /** What every run announces is a sequence the lifecycle of a daemon job allows this executor. */
  lemma RunFollowsThePhases(cfg: Config, env: Env, vpn: Vpn, operation: Operation, trace: seq<Event>, run: Parts)
    requires RunTrace(cfg, env, vpn, operation, trace, run)
    ensures Path(DaemonNamespace, Created, Announced(trace))
    ensures Fault(env, operation, run.error).None? ==>
            Announced(trace) != [] && MayReturn(DaemonNamespace, Announced(trace)[|Announced(trace)| - 1])
  {
    hide RunTrace, Announced;
    PhasesOfARun(cfg, env, vpn, operation, trace, run);
    var tail := if cfg.stopAfterTask then [Cleanup] else [];
    var middle := if run.error.None? then AnnouncedWhen(operation) else [];
    assert Announced(trace) == [StartingVpn] + (middle + tail);
    PathOfCleanup(if middle == [] then StartingVpn else middle[|middle| - 1], cfg.stopAfterTask);
    PathOfOperation(operation, tail);
    assert ([StartingVpn] + (middle + tail))[1..] == middle + tail;
    assert middle == [] ==> middle + tail == tail;
  }

  lemma PathOfCleanup(last: Phase, stops: bool)
    requires 1 <= Rank(last) <= 4
    ensures Path(DaemonNamespace, last, if stops then [Cleanup] else [])
  {
  }

  lemma PathOfOperation(operation: Operation, tail: seq<Phase>)
    requires Path(DaemonNamespace, AnnouncedWhen(operation)[|AnnouncedWhen(operation)| - 1], tail)
    ensures Path(DaemonNamespace, StartingVpn, AnnouncedWhen(operation) + tail)
  {
    match operation
    case VehicleReachability =>
      assert (AnnouncedWhen(operation) + tail)[1..] == [CheckingVehicle] + tail;
      assert ([CheckingVehicle] + tail)[1..] == tail;
    case BasicStatus =>
      assert (AnnouncedWhen(operation) + tail)[1..] == [CheckingVehicle, RunningOperation] + tail;
      assert ([CheckingVehicle, RunningOperation] + tail)[1..] == [RunningOperation] + tail;
      assert ([RunningOperation] + tail)[1..] == tail;
    case OtherOperation =>
      assert (AnnouncedWhen(operation) + tail)[1..] == tail;
  }
}
