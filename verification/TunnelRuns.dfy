/** Transparency of the tunnel, for every chunking and schedule. */
module TunnelRuns {
  import opened Common
  import opened ConnectHeader
  import opened Tunnel
  import opened TunnelProofs

  ghost predicate Execution(cfg: Config, foreign: bool, states: seq<System>, steps: seq<Step>) {
    && cfg.header != []
    && |states| == |steps| + 1
    && states[0] == Initial(cfg, foreign)
    && forall i :: 0 <= i < |steps| ==>
       Enabled(cfg, states[i], steps[i]) && states[i + 1] == Next(cfg, states[i], steps[i])
  }

  lemma {:induction false} ExecutionKeepsInv(cfg: Config, foreign: bool, states: seq<System>, steps: seq<Step>, i: nat)
    requires Execution(cfg, foreign, states, steps) && i < |states|
    ensures Inv(cfg, states[i])
    ensures foreign <==> states[i].helper.Foreign?
  {
    if i == 0 {
      assert [] + cfg.header == cfg.header + [];
    } else {
      hide Inv, Enabled, Next;
      ExecutionKeepsInv(cfg, foreign, states, steps, i - 1);
      StepKeepsInv(cfg, states[i - 1], steps[i - 1]);
      ClientStaysItself(cfg, states[i - 1], steps[i - 1]);
    }
  }

  lemma ClientStaysItself(cfg: Config, s: System, step: Step)
    requires Enabled(cfg, s, step)
    ensures Next(cfg, s, step).helper.Foreign? <==> s.helper.Foreign?
  {
  }

  /** The proxy has passed the end of the client's stream on, or ended after doing so. */
  predicate PassedUp(p: Proxy) {
    (p.Relaying? && !p.clientOpen) || (p.Closed? && p.clean)
  }

  /**
   Whatever the client, and whatever happened: the target has received a prefix of the
   client's stream after its cut, over-read bytes included; and all of it once the end of the
   client's stream was passed on.
   */
  lemma TargetReceivesCutStream(cfg: Config, foreign: bool, states: seq<System>, steps: seq<Step>, i: nat)
    requires Execution(cfg, foreign, states, steps) && i < |states|
    ensures var s := states[i];
            && (s.out.sent != [] ==> Complete(s.up.sent) && s.out.sent <= s.up.sent[Cut(s.up.sent)..])
            && (PassedUp(s.proxy) ==>
                 Complete(s.up.sent) && s.up.AtEnd() && s.out.sent == s.up.sent[Cut(s.up.sent)..] && s.out.fin)
  {
    ExecutionKeepsInv(cfg, foreign, states, steps, i);
    CutPrefix(states[i]);
    hide UpOk, DownOk, StdoutOk;
  }

  lemma CutPrefix(s: System)
    requires OutOk(s.proxy, s.up, s.out)
    ensures s.out.sent != [] ==> Complete(s.up.sent) && s.out.sent <= s.up.sent[Cut(s.up.sent)..]
    ensures PassedUp(s.proxy) ==>
              Complete(s.up.sent) && s.up.AtEnd() && s.out.sent == s.up.sent[Cut(s.up.sent)..] && s.out.fin
  {
    if Complete(s.up.sent) {
      var c := Cut(s.up.sent);
      hide Complete, Cut;
      if c <= s.up.taken {
        var passed := s.up.sent[c..s.up.taken];
        assert passed <= s.up.sent[c..];
        assert [] + passed == passed && s.out.sent + [] == s.out.sent;
        match s.proxy {
          case Forwarding(rest) => assert s.out.sent <= s.out.sent + rest;
          case Relaying(_, _, toTarget, _) => assert s.out.sent <= s.out.sent + toTarget;
          case _ =>
        }
      }
    }
  }

  /** A header with its only newline at its end, within the proxy's limit. */
  predicate Proper(header: seq<Byte>) {
    0 < |header| <= LIMIT && FirstNewline(header) == |header| - 1
  }

  /** Behind a proper header the cut is the header's end. */
  lemma CutIsHeader(header: seq<Byte>, stream: seq<Byte>, rest: seq<Byte>)
    requires Proper(header) && stream <= header + rest && Complete(stream)
    ensures |header| <= |stream| && Cut(stream) == |header|
  {
    var whole := header + rest;
    assert whole[..|header|] == header;
    FirstNewlineOfPrefix(whole, |header|);
    assert whole[..|stream|] == stream;
    FirstNewlineOfPrefix(whole, |stream|);
  }

  /**
   Upstream transparency of helper and proxy together: what the target has received is a
   prefix of what was written to stdin, and all of it once each relay has passed the end on.
   */
  lemma UpstreamIsTransparent(cfg: Config, states: seq<System>, steps: seq<Step>, i: nat)
    requires Execution(cfg, false, states, steps) && i < |states| && Proper(cfg.header)
    ensures states[i].out.sent <= states[i].stdin.sent
    ensures PassedUp(states[i].proxy) && states[i].helper.Pumping? && !states[i].helper.stdinOpen ==>
              states[i].stdin.fin && states[i].out.sent == states[i].stdin.sent
  {
    ExecutionKeepsInv(cfg, false, states, steps, i);
    TargetReceivesCutStream(cfg, false, states, steps, i);
    var s := states[i];
    hide OutOk, DownOk, StdoutOk;
    UpPrefix(cfg, s);
    if s.out.sent != [] || PassedUp(s.proxy) {
      CutIsHeader(cfg.header, s.up.sent, s.stdin.sent);
      hide UpOk, Complete, Cut;
      assert (cfg.header + s.stdin.sent)[|cfg.header|..] == s.stdin.sent;
    }
  }

  lemma UpPrefix(cfg: Config, s: System)
    requires UpOk(cfg, s.helper, s.stdin, s.up) && !s.helper.Foreign?
    ensures s.up.sent <= cfg.header + s.stdin.sent
    ensures s.helper.Pumping? && !s.helper.stdinOpen ==> s.stdin.fin && s.up.sent == cfg.header + s.stdin.sent
  {
    match s.helper
    case Greeting(rest) => assert s.up.sent <= s.up.sent + rest == cfg.header;
    case Replying(_) => assert s.up.sent == s.up.sent + [] == cfg.header;
    case Pumping(open, toProxy, _) =>
      assert s.up.sent <= s.up.sent + toProxy
        == cfg.header + s.stdin.sent[0..s.stdin.taken] <= cfg.header + s.stdin.sent;
      if !open {
        assert s.up.sent + [] == s.up.sent && s.stdin.sent[0..s.stdin.taken] == s.stdin.sent;
      }
    case Left(_) => assert s.up.sent <= cfg.header + s.stdin.sent[0..s.stdin.taken] <= cfg.header + s.stdin.sent;
  }

  /**
   What reaches a client, whoever it is: the OK line, a prefix of the target's bytes, and nothing else
   without an error.
   */
  lemma DownstreamBytes(proxy: Proxy, back: Channel, down: Channel, relayed: nat, complaint: Option<seq<Byte>>)
    requires DownOk(proxy, back, down, relayed, complaint)
    ensures relayed <= |down.sent| && down.sent[..relayed] <= OK_REPLY + back.sent
    ensures complaint.None? ==> down.sent <= OK_REPLY + back.sent
    ensures complaint.Some? ==>
              down.sent[relayed..] <= complaint.value && complaint.value != [] && complaint.value[0] == 69
  {
    assert complaint.None? ==> down.sent[..relayed] == down.sent;
    match proxy
    case Greeted(rest, _) => assert down.sent <= down.sent + rest == OK_REPLY <= OK_REPLY + back.sent;
    case Forwarding(_) => assert down.sent == down.sent + [] == OK_REPLY <= OK_REPLY + back.sent;
    case Relaying(_, _, _, toClient) =>
      assert down.sent <= down.sent + toClient == OK_REPLY + back.sent[0..back.taken] <= OK_REPLY + back.sent;
    case Complaining(_) => assert down.sent[..relayed] <= OK_REPLY + back.sent[0..back.taken] <= OK_REPLY + back.sent;
    case Closed(_) => assert down.sent[..relayed] <= OK_REPLY + back.sent[0..back.taken] <= OK_REPLY + back.sent;
    case _ =>
  }

  /** An ERR line cannot stand in for a missing piece of the OK line. */
  lemma OkLineIsRelayed(down: seq<Byte>, relayed: nat, complaint: seq<Byte>)
    requires relayed <= |down| && OK_REPLY <= down && complaint != [] && complaint[0] == 69
             && down[relayed..] <= complaint
    ensures relayed >= 3
  {
    if relayed < 3 {
      assert false;
    }
  }

  /**
   Downstream transparency: while the proxy has not raised, what reached stdout is a prefix of
   what the target sent, and all of it when the helper saw the end of the stream. After an
   error it is such a prefix followed by a prefix of the ERR line.
   */
  lemma DownstreamIsTransparent(cfg: Config, states: seq<System>, steps: seq<Step>, i: nat)
    requires Execution(cfg, false, states, steps) && i < |states|
    ensures states[i].complaint.None? ==> states[i].stdout <= states[i].back.sent
    ensures states[i].complaint.None? && states[i].helper.Left? && states[i].helper.clean ==>
              states[i].back.fin && states[i].stdout == states[i].back.sent
    ensures states[i].complaint.Some? ==>
              exists n: nat :: n <= |states[i].back.sent|
                && states[i].stdout <= states[i].back.sent[..n] + states[i].complaint.value
  {
    ExecutionKeepsInv(cfg, false, states, steps, i);
    var s := states[i];
    hide UpOk, OutOk;
    StdoutAfterOk(s.helper, s.down, s.stdout);
    DownstreamBytes(s.proxy, s.back, s.down, s.relayed, s.complaint);
    if s.stdout != [] || (s.helper.Left? && s.helper.clean) {
      if s.complaint.None? {
        AfterOk(s.stdout, s.down.sent, s.back.sent);
        if s.helper.Left? && s.helper.clean {
          CleanEnd(s);
        }
      } else {
        OkLineIsRelayed(s.down.sent, s.relayed, s.complaint.value);
        BeforeComplaint(s.stdout, s.down.sent, s.relayed, s.back.sent, s.complaint.value);
      }
    } else if s.complaint.Some? {
      assert s.stdout <= s.back.sent[..0] + s.complaint.value;
    }
  }

  lemma StdoutAfterOk(helper: Helper, down: Channel, stdout: seq<Byte>)
    requires StdoutOk(helper, down, stdout)
    ensures stdout != [] ==> OK_REPLY <= down.sent && stdout <= down.sent[3..]
    ensures helper.Left? && helper.clean ==> OK_REPLY <= down.sent && stdout == down.sent[3..] && down.fin
  {
    match helper
    case Pumping(_, _, toStdout) =>
      assert stdout <= stdout + toStdout == down.sent[3..down.taken] <= down.sent[3..];
    case Left(_) =>
      if stdout != [] {
        assert stdout <= [] + down.sent[3..down.taken] == down.sent[3..down.taken] <= down.sent[3..];
      }
    case _ =>
  }

  lemma AfterOk(stdout: seq<Byte>, down: seq<Byte>, back: seq<Byte>)
    requires OK_REPLY <= down && stdout <= down[3..] && down <= OK_REPLY + back
    ensures stdout <= back
  {
    assert (OK_REPLY + back)[3..] == back;
    assert down[3..] <= back;
  }

  lemma CleanEnd(s: System)
    requires DownOk(s.proxy, s.back, s.down, s.relayed, s.complaint) && s.complaint.None?
    requires OK_REPLY <= s.down.sent && s.stdout == s.down.sent[3..] && s.down.fin
    ensures s.back.fin && s.stdout == s.back.sent
  {
    if s.proxy.Relaying? {
      assert s.down.sent + [] == s.down.sent && s.back.sent[0..s.back.taken] == s.back.sent;
    }
    assert (OK_REPLY + s.back.sent)[3..] == s.back.sent;
  }

  lemma BeforeComplaint(stdout: seq<Byte>, down: seq<Byte>, relayed: nat, back: seq<Byte>, complaint: seq<Byte>)
    requires 3 <= relayed <= |down| && stdout <= down[3..] && down[..relayed] <= OK_REPLY + back
             && down[relayed..] <= complaint
    ensures exists n: nat :: n <= |back| && stdout <= back[..n] + complaint
  {
    var n := relayed - 3;
    assert down[3..relayed] == down[..relayed][3..] == (OK_REPLY + back)[3..relayed] == back[..n];
    assert down[3..] == down[3..relayed] + down[relayed..];
  }

  /** No relay direction sends on a connection it, or anyone before it, has shut down. */
  lemma NoSendAfterShutdown(cfg: Config, foreign: bool, states: seq<System>, steps: seq<Step>, i: nat)
    requires Execution(cfg, foreign, states, steps) && i < |steps|
    ensures SendsOn(states[i], steps[i]).Some? ==>
              !SendsOn(states[i], steps[i]).value.fin
  {
    ExecutionKeepsInv(cfg, foreign, states, steps, i);
    hide Complete, Cut, Linked, Severed;
  }

  // --- Transparency ends with the first error ------------------------------------------------

  ghost predicate To(cfg: Config, s: System, step: Step, s': System) {
    Enabled(cfg, s, step) && Next(cfg, s, step) == s'
  }

  lemma Go(cfg: Config, states: seq<System>, steps: seq<Step>, s: System, step: Step, s': System)
    returns (states': seq<System>, steps': seq<Step>)
    requires Execution(cfg, false, states, steps) && states[|steps|] == s && To(cfg, s, step, s')
    ensures Execution(cfg, false, states', steps') && states'[|steps'|] == s'
  {
    hide Enabled, Next;
    states', steps' := states + [s'], steps + [step];
    forall i | 0 <= i < |steps'| ensures Enabled(cfg, states'[i], steps'[i])
      && states'[i + 1] == Next(cfg, states'[i], steps'[i]) {
      if i < |steps| {
        assert states'[i] == states[i] && steps'[i] == steps[i] && states'[i + 1] == states[i + 1];
      }
    }
  }

  const QUIET := Channel([], 0, false)
  const IDLE := Relaying(true, true, [], [])
  const PUMP := Pumping(true, [], [])

  /** The proxy accepts the helper's header. */
  predicate Accepted(cfg: Config) {
    Destined(Line(cfg.header), cfg.readInt).Some?
  }

  /** Where it connects to then. */
  function To0(cfg: Config): Destination
    requires Accepted(cfg)
  {
    Destined(Line(cfg.header), cfg.readInt).value
  }

  /** A state in which the header has been read whole. */
  function Stage(cfg: Config, down: Channel, helper: Helper, proxy: Proxy, relayed: nat, complaint: Option<seq<Byte>>,
      stdout: seq<Byte>): System
  {
    System(QUIET, Channel(cfg.header, |cfg.header|, false), QUIET, QUIET, down, stdout, helper, proxy,
      if proxy.Reading? || proxy.Dialling? then None else Destined(Line(cfg.header), cfg.readInt), relayed, complaint)
  }

  lemma HeaderIsSent(cfg: Config, s0: System, s1: System, s2: System)
    requires Proper(cfg.header) && s0 == Initial(cfg, false)
    requires s1 == s0.(up := Channel(cfg.header, 0, false), helper := Replying([]))
    requires s2 == Stage(cfg, QUIET, Replying([]), Reading(cfg.header), 0, None, [])
    ensures To(cfg, s0, HelperGreets(|cfg.header|), s1) && To(cfg, s1, ProxyReads(|cfg.header|), s2)
  {
    var h, n := cfg.header, |cfg.header|;
    assert [] + h[..n] == h;
    assert [] + h[0..n] == h;
    hide Line, Remainder, Cut;
  }

  lemma HeaderIsAccepted(cfg: Config, s2: System, s3: System)
    requires Proper(cfg.header) && Accepted(cfg)
    requires s2 == Stage(cfg, QUIET, Replying([]), Reading(cfg.header), 0, None, [])
    requires s3 == Stage(cfg, QUIET, Replying([]), Dialling(To0(cfg), []), 0, None, [])
    ensures To(cfg, s2, ProxyParses([]), s3)
  {
    hide Destined;
    assert cfg.header[|cfg.header| - 1] == NEWLINE;
    assert Remainder(cfg.header) == [];
    assert Complete(cfg.header);
    hide Line, Remainder, Complete, Cut, FirstNewline;
  }

  lemma ReachGreeting(cfg: Config) returns (states: seq<System>, steps: seq<Step>)
    requires Proper(cfg.header) && Accepted(cfg)
    ensures Execution(cfg, false, states, steps)
    ensures states[|steps|] == Stage(cfg, QUIET, Replying([]), Greeted(OK_REPLY, []), 0, None, [])
  {
    hide Destined, Line;
    var s0 := Initial(cfg, false);
    var s1 := s0.(up := Channel(cfg.header, 0, false), helper := Replying([]));
    var s2 := Stage(cfg, QUIET, Replying([]), Reading(cfg.header), 0, None, []);
    var s3 := Stage(cfg, QUIET, Replying([]), Dialling(To0(cfg), []), 0, None, []);
    states, steps := [s0], [];
    assert Execution(cfg, false, states, steps);
    HeaderIsSent(cfg, s0, s1, s2);
    HeaderIsAccepted(cfg, s2, s3);
    var s4 := Stage(cfg, QUIET, Replying([]), Greeted(OK_REPLY, []), 0, None, []);
    assert To(cfg, s3, ProxyConnects, s4);
    hide Execution, To;
    states, steps := Go(cfg, states, steps, s0, HelperGreets(|cfg.header|), s1);
    states, steps := Go(cfg, states, steps, s1, ProxyReads(|cfg.header|), s2);
    states, steps := Go(cfg, states, steps, s2, ProxyParses([]), s3);
    states, steps := Go(cfg, states, steps, s3, ProxyConnects, s4);
  }

  lemma ReplyIsSent(cfg: Config, s0: System, s1: System, s2: System)
    requires s0 == Stage(cfg, QUIET, Replying([]), Greeted(OK_REPLY, []), 0, None, [])
    requires s1 == Stage(cfg, Channel(OK_REPLY, 0, false), Replying([]), Forwarding([]), 3, None, [])
    requires s2 == Stage(cfg, Channel(OK_REPLY, 0, false), Replying([]), IDLE, 3, None, [])
    ensures To(cfg, s0, ProxyReplies(3), s1) && To(cfg, s1, ProxyForwards(1), s2)
  {
    assert [] + OK_REPLY[..3] == OK_REPLY;
  }

  lemma ByteIsRead(cfg: Config, k: nat, s: System, s': System)
    requires k < 3
    requires s == Stage(cfg, Channel(OK_REPLY, k, false), Replying(OK_REPLY[..k]), IDLE, 3, None, [])
    requires s' == Stage(cfg, Channel(OK_REPLY, k + 1, false), Replying(OK_REPLY[..k + 1]), IDLE, 3, None, [])
    ensures To(cfg, s, HelperReadsByte, s')
  {
    assert OK_REPLY[..k] + OK_REPLY[k..k + 1] == OK_REPLY[..k + 1];
  }

  function Answering(cfg: Config, k: nat): System
    requires k <= 3
  {
    Stage(cfg, Channel(OK_REPLY, k, false), Replying(OK_REPLY[..k]), IDLE, 3, None, [])
  }

  lemma ReachAnswering(cfg: Config) returns (states: seq<System>, steps: seq<Step>)
    requires Proper(cfg.header) && Accepted(cfg)
    ensures Execution(cfg, false, states, steps) && states[|steps|] == Answering(cfg, 0)
  {
    states, steps := ReachGreeting(cfg);
    var s0 := Stage(cfg, QUIET, Replying([]), Greeted(OK_REPLY, []), 0, None, []);
    var s1 := Stage(cfg, Channel(OK_REPLY, 0, false), Replying([]), Forwarding([]), 3, None, []);
    assert OK_REPLY[..0] == [];
    ReplyIsSent(cfg, s0, s1, Answering(cfg, 0));
    hide Execution, To;
    states, steps := Go(cfg, states, steps, s0, ProxyReplies(3), s1);
    states, steps := Go(cfg, states, steps, s1, ProxyForwards(1), Answering(cfg, 0));
  }

  lemma ReachRelaying(cfg: Config) returns (states: seq<System>, steps: seq<Step>)
    requires Proper(cfg.header) && Accepted(cfg)
    ensures Execution(cfg, false, states, steps)
    ensures states[|steps|] == Stage(cfg, Channel(OK_REPLY, 3, false), PUMP, IDLE, 3, None, [])
  {
    hide Destined, Line;
    states, steps := ReachAnswering(cfg);
    var last := Stage(cfg, Channel(OK_REPLY, 3, false), PUMP, IDLE, 3, None, []);
    assert OK_REPLY[..3] == OK_REPLY;
    assert To(cfg, Answering(cfg, 3), HelperStarts, last);
    ByteIsRead(cfg, 0, Answering(cfg, 0), Answering(cfg, 1));
    ByteIsRead(cfg, 1, Answering(cfg, 1), Answering(cfg, 2));
    ByteIsRead(cfg, 2, Answering(cfg, 2), Answering(cfg, 3));
    hide Execution, To, Answering;
    states, steps := Go(cfg, states, steps, Answering(cfg, 0), HelperReadsByte, Answering(cfg, 1));
    states, steps := Go(cfg, states, steps, Answering(cfg, 1), HelperReadsByte, Answering(cfg, 2));
    states, steps := Go(cfg, states, steps, Answering(cfg, 2), HelperReadsByte, Answering(cfg, 3));
    states, steps := Go(cfg, states, steps, Answering(cfg, 3), HelperStarts, last);
  }

  lemma RelayingFails(cfg: Config, error: seq<Byte>, s0: System, s1: System)
    requires s0 == Stage(cfg, Channel(OK_REPLY, 3, false), PUMP, IDLE, 3, None, [])
    requires s1 == Stage(cfg, Channel(OK_REPLY, 3, false), PUMP, Complaining(ErrLine(error)), 3,
             Some(ErrLine(error)), [])
    ensures To(cfg, s0, ProxyFails(error), s1)
  {
    hide Destined, Line;
  }

  lemma ComplaintIsSent(cfg: Config, line: seq<Byte>, s1: System, s2: System)
    requires line != []
    requires s1 == Stage(cfg, Channel(OK_REPLY, 3, false), PUMP, Complaining(line), 3, Some(line), [])
    requires s2 == Stage(cfg, Channel(OK_REPLY + line, 3, false), PUMP, Complaining([]), 3, Some(line), [])
    ensures To(cfg, s1, ProxyComplains(|line|), s2)
  {
    assert line[..|line|] == line && line[|line|..] == [];
  }

  lemma ComplaintIsTaken(cfg: Config, line: seq<Byte>, s2: System, s3: System)
    requires line != []
    requires s2 == Stage(cfg, Channel(OK_REPLY + line, 3, false), PUMP, Complaining([]), 3, Some(line), [])
    requires s3 == Stage(cfg, Channel(OK_REPLY + line, 3 + |line|, false), Pumping(true, [], line), Complaining([]),
             3, Some(line), [])
    ensures To(cfg, s2, HelperReadsSocket(|line|), s3)
  {
    assert (OK_REPLY + line)[3..3 + |line|] == line;
  }

  lemma ComplaintIsPrinted(cfg: Config, line: seq<Byte>, s3: System, s4: System)
    requires line != []
    requires s3 == Stage(cfg, Channel(OK_REPLY + line, 3 + |line|, false), Pumping(true, [], line), Complaining([]),
             3, Some(line), [])
    requires s4 == Stage(cfg, Channel(OK_REPLY + line, 3 + |line|, false), PUMP, Complaining([]), 3, Some(line), line)
    ensures To(cfg, s3, HelperWrites(|line|), s4)
  {
    assert line[..|line|] == line && line[|line|..] == [] && [] + line == line;
  }

  /**
   Why the downstream claim stops at the first error: with any accepted header and any error text
   there is a run in which the proxy raises while relaying, and its ERR line reaches stdout as if
   the target had sent it.
   */
  lemma ErrorBreaksTransparency(cfg: Config, error: seq<Byte>) returns (states: seq<System>, steps: seq<Step>)
    requires Proper(cfg.header) && Accepted(cfg)
    ensures Execution(cfg, false, states, steps)
    ensures var s := states[|steps|]; s.back.sent == [] && s.stdout == ErrLine(error)
  {
    states, steps := ReachRelaying(cfg);
    var line := ErrLine(error);
    var n := |line|;
    hide Destined, Line;
    var s0 := Stage(cfg, Channel(OK_REPLY, 3, false), PUMP, IDLE, 3, None, []);
    var s1 := Stage(cfg, Channel(OK_REPLY, 3, false), PUMP, Complaining(line), 3, Some(line), []);
    var s2 := Stage(cfg, Channel(OK_REPLY + line, 3, false), PUMP, Complaining([]), 3, Some(line), []);
    var s3 := Stage(cfg, Channel(OK_REPLY + line, 3 + n, false), Pumping(true, [], line), Complaining([]), 3,
      Some(line), []);
    var s4 := Stage(cfg, Channel(OK_REPLY + line, 3 + n, false), PUMP, Complaining([]), 3, Some(line), line);
    hide ErrLine, To;
    RelayingFails(cfg, error, s0, s1);
    ComplaintIsSent(cfg, line, s1, s2);
    ComplaintIsTaken(cfg, line, s2, s3);
    ComplaintIsPrinted(cfg, line, s3, s4);
    hide Execution;
    states, steps := Go(cfg, states, steps, s0, ProxyFails(error), s1);
    states, steps := Go(cfg, states, steps, s1, ProxyComplains(n), s2);
    states, steps := Go(cfg, states, steps, s2, HelperReadsSocket(n), s3);
    states, steps := Go(cfg, states, steps, s3, HelperWrites(n), s4);
  }

  lemma NothingSentOnShut(cfg: Config, s: System, step: Step)
    requires Enabled(cfg, s, step) && s.down.fin && DownOk(s.proxy, s.back, s.down, s.relayed, s.complaint)
    ensures Next(cfg, s, step).down.fin && Next(cfg, s, step).down.sent == s.down.sent
  {
    hide Linked, Severed, Complete, Cut;
  }

  /**
   And where it cannot: once the target's end was passed on, or the proxy has closed, nothing more
   goes to the client, so a later error adds no piece of an ERR line.
   */
  lemma {:induction false} NoErrorAfterTheEnd(cfg: Config, foreign: bool, states: seq<System>, steps: seq<Step>,
      i: nat, j: nat)
    requires Execution(cfg, foreign, states, steps) && i <= j < |states| && states[i].down.fin
    ensures states[j].down.fin && states[j].down.sent == states[i].down.sent
  {
    hide Enabled, Next;
    if i < j {
      NoErrorAfterTheEnd(cfg, foreign, states, steps, i, j - 1);
      ExecutionKeepsInv(cfg, foreign, states, steps, j - 1);
      assert DownOk(states[j - 1].proxy, states[j - 1].back, states[j - 1].down, states[j - 1].relayed,
        states[j - 1].complaint);
      hide Inv;
      NothingSentOnShut(cfg, states[j - 1], steps[j - 1]);
    }
  }
}
