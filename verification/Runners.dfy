/**
 The runners that work in the process itself: what each of them announces, and how it ends.
 The lifecycle the step systems allow them is the one their code follows.
 */
module Runners {
  import opened Common
  import opened Phases

  const LIFECYCLE: seq<Phase> := [StartingVpn, VpnConnected, CheckingVehicle, RunningOperation, CollectingResult]

  lemma {:induction false} LifecycleFrom(program: Program, i: nat)
    requires program.DryRun? || program.ExistingContainer?
    requires i <= |LIFECYCLE|
    ensures Path(program, if i == 0 then Created else LIFECYCLE[i - 1], LIFECYCLE[i..])
    decreases |LIFECYCLE| - i
  {
    if i < |LIFECYCLE| {
      LifecycleFrom(program, i + 1);
      assert LIFECYCLE[i..][0] == LIFECYCLE[i] && LIFECYCLE[i..][1..] == LIFECYCLE[i + 1..];
      assert i == 0 || i == 1 || i == 2 || i == 3 || i == 4;
    }
  }

  lemma {:induction false} PathPrefix(program: Program, last: Phase, phases: seq<Phase>, n: nat)
    requires n <= |phases| && Path(program, last, phases)
    ensures Path(program, last, phases[..n])
    decreases n
  {
    if n > 0 {
      PathPrefix(program, phases[0], phases[1..], n - 1);
      assert phases[..n][1..] == phases[1..][..n - 1];
    }
  }

  /** Announcements follow the program's lifecycle, and a result comes only from where it may. */
  ghost predicate Conforms(program: Program, announced: seq<Phase>, how: Thread) {
    && Path(program, Created, announced)
    && (how.Returned? || how.Refused? || how.Crashed?)
    && (how.Returned? ==> MayReturn(program, if announced == [] then Created else announced[|announced| - 1]))
  }

  /** `DryRunRunner.run`: the whole lifecycle, then the canned result; storing its artifact may raise. */
  method DryRun(canned: Result<RunnerResult, string>) returns (announced: seq<Phase>, how: Thread)
    ensures Conforms(Program.DryRun, announced, how) && announced == LIFECYCLE
    ensures how == match canned case Ok(result) => Returned(result) case Err(message) => Crashed(message)
  {
    announced := [];
    for i := 0 to |LIFECYCLE|
      invariant announced == LIFECYCLE[..i]
    {
      announced := announced + [LIFECYCLE[i]];
    }
    LifecycleFrom(Program.DryRun, 0);
    assert LIFECYCLE[0..] == LIFECYCLE == announced;
    match canned
    case Ok(result) => how := Returned(result);
    case Err(message) => how := Crashed(message);
  }

  const UNREACHABLE := RunnerCode("vehicle_unreachable")

  /** `ExistingContainerRunner.run`: it refuses unless one of the three ports answers. */
  method ExistingContainer(ssh: bool, https: bool, http: bool, found: RunnerResult, message: string)
    returns (announced: seq<Phase>, how: Thread)
    ensures Conforms(Program.ExistingContainer, announced, how)
    ensures how == if ssh || https || http then Returned(found) else Refused(UNREACHABLE, message)
    ensures announced == if how.Returned? then LIFECYCLE else LIFECYCLE[..3]
  {
    LifecycleFrom(Program.ExistingContainer, 0);
    assert LIFECYCLE[0..] == LIFECYCLE;
    announced := [StartingVpn, VpnConnected, CheckingVehicle];
    if !(ssh || https || http) {
      PathPrefix(Program.ExistingContainer, Created, LIFECYCLE, 3);
      assert LIFECYCLE[..3] == announced;
      return announced, Refused(UNREACHABLE, message);
    }
    announced := announced + [RunningOperation, CollectingResult];
    assert announced == LIFECYCLE;
    how := Returned(found);
  }

  const CLIENT_ERROR := RunnerCode("vpn_client_error")

  /** `JobContainerRunner.run` always refuses. */
  method JobContainer(message: string) returns (announced: seq<Phase>, how: Thread)
    ensures Conforms(Program.JobContainer, announced, how) && how == Refused(CLIENT_ERROR, message)
    ensures announced == [StartingVpn]
  {
    announced := [StartingVpn];
    assert announced[1..] == [];
    how := Refused(CLIENT_ERROR, message);
  }

  /** The daemon announces one state for its existing-container executor, which then ends as it will. */
  method DaemonExisting(executor: Thread) returns (announced: seq<Phase>, how: Thread)
    requires executor.Returned? || executor.Refused? || executor.Crashed?
    ensures Conforms(Program.DaemonExisting, announced, how) && how == executor && announced == [StartingVpn]
  {
    announced := [StartingVpn];
    assert announced[1..] == [];
    how := executor;
  }
}
