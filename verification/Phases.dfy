/**
 The states a worker task or a daemon job goes through, and the order in which
 the runners announce them.
 */
module Phases {

  /** The strings of `TASK_STATES`, and `cancelled`, which a daemon job's setter also accepts. */
  datatype Phase =
    | Created | Queued
    | StartingVpn | VpnConnected | CheckingVehicle | RunningOperation | CollectingResult | Cleanup
    | Finished | Failed | Timeout
    | Cancelled

  predicate Terminal(p: Phase) {
    p == Finished || p == Failed || p == Timeout
  }

  /** The six states a runner may announce while it works. */
  predicate Working(p: Phase) {
    p == StartingVpn || p == VpnConnected || p == CheckingVehicle || p == RunningOperation || p == CollectingResult
    || p == Cleanup
  }

  function Rank(p: Phase): nat {
    match p
    case Created => 0
    case Queued => 0
    case StartingVpn => 1
    case VpnConnected => 2
    case CheckingVehicle => 3
    case RunningOperation => 4
    case CollectingResult => 5
    case Cleanup => 6
    case Finished => 7
    case Failed => 7
    case Timeout => 7
    case Cancelled => 7
  }

  type Data = map<string, string>

  datatype RunnerResult = RunnerResult(summary: string, data: Data, artifacts: seq<string>, warnings: seq<string>)

  datatype ErrorCode =
    | OperationTimeout
    | OperationCancelled
    | InternalError
    | RunnerInternalError
    | RunnerUnavailable
    | RunnerCode(code: string)

  /**
   The code that runs inside a runner thread: the three local runners, the client that
   polls the daemon, and the two executors that only the daemon has.
   */
  datatype Program = DryRun | ExistingContainer | JobContainer | DaemonClient | DaemonExisting | DaemonNamespace

  /** May `program`, having last announced `last` (`Created` for nothing yet), announce `next`? */
  predicate Announces(program: Program, last: Phase, next: Phase) {
    match program
    case DryRun => FullSequence(last, next)
    case ExistingContainer => FullSequence(last, next)
    case JobContainer => last == Created && next == StartingVpn
    case DaemonExisting => last == Created && next == StartingVpn
    case DaemonNamespace =>
      || (last == Created && next == StartingVpn)
      || (last == StartingVpn && next == VpnConnected)
      || (last == VpnConnected && next == CheckingVehicle)
      || (last == CheckingVehicle && next == RunningOperation)
      || (1 <= Rank(last) <= 4 && next == Cleanup)
    case DaemonClient => Working(next) && Rank(last) <= Rank(next)
  }

  predicate FullSequence(last: Phase, next: Phase) {
    || (last == Created && next == StartingVpn)
    || (last == StartingVpn && next == VpnConnected)
    || (last == VpnConnected && next == CheckingVehicle)
    || (last == CheckingVehicle && next == RunningOperation)
    || (last == RunningOperation && next == CollectingResult)
  }

  /** May `program` return a result when the last state it announced is `last`? */
  predicate MayReturn(program: Program, last: Phase) {
    match program
    case DryRun => last == CollectingResult
    case ExistingContainer => last == CollectingResult
    case JobContainer => false
    case DaemonExisting => last == StartingVpn
    case DaemonNamespace => last == CheckingVehicle || last == RunningOperation || last == Cleanup
    case DaemonClient => true
  }

  /** Every program announces only working states, and never one of lower rank. */
  lemma AnnouncementsAdvance(program: Program, last: Phase, next: Phase)
    requires Announces(program, last, next)
    ensures Working(next) && !Terminal(next) && Rank(last) <= Rank(next) < Rank(Finished)
  {
  }

  /** Each of `phases` may be announced after the one before it, the first after `last`. */
  ghost predicate Path(program: Program, last: Phase, phases: seq<Phase>)
    decreases |phases|
  {
    phases == [] || (Announces(program, last, phases[0]) && Path(program, phases[0], phases[1..]))
  }

  /** Along a path the rank never falls, whoever announces. */
  lemma {:induction false} PathClimbs(program: Program, last: Phase, phases: seq<Phase>, i: nat)
    requires Path(program, last, phases) && i < |phases|
    ensures Working(phases[i]) && Rank(last) <= Rank(phases[i])
    ensures forall k :: 0 <= k < i ==> Rank(phases[k]) <= Rank(phases[i])
    decreases |phases|
  {
    if i > 0 {
      var rest := phases[1..];
      PathClimbs(program, phases[0], rest, i - 1);
      assert rest[i - 1] == phases[i];
      assert forall k :: 1 <= k < i ==> phases[k] == rest[k - 1];
    }
  }

  /** How a runner thread stands. `last` is the state it announced last. */
  datatype Thread =
    | NotStarted
    | Running(last: Phase)
    | Returned(result: RunnerResult)
    | Refused(code: ErrorCode, message: string)   // a RunnerFailure
    | Crashed(message: string)                    // any other exception

  /** The longest wait in seconds that joining a thread accepts; a longer one makes the call raise at once. */
  const TIMEOUT_MAX: int := 9223372036

  predicate Joinable(timeout: int) {
    timeout <= TIMEOUT_MAX
  }
}
