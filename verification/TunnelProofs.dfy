/** What every step of the tunnel keeps, and transparency over whole runs. */
module TunnelProofs {
  import opened Common
  import opened ConnectHeader
  import opened Tunnel

  /**
   A pump: what was passed on and what is still in hand is the prefix and then the source, in order and
   without a gap.
   */
  ghost predicate Linked(passed: seq<Byte>, inHand: seq<Byte>, prefix: seq<Byte>, source: seq<Byte>, base: nat,
      taken: nat) {
    base <= taken <= |source| && passed + inHand == prefix + source[base..taken]
  }

  /** What is left of that when the pump stopped: nothing was altered, but bytes in hand may be lost. */
  ghost predicate Severed(passed: seq<Byte>, prefix: seq<Byte>, source: seq<Byte>, base: nat, taken: nat) {
    base <= taken <= |source| && passed <= prefix + source[base..taken]
  }

  lemma LinkTakes(passed: seq<Byte>, prefix: seq<Byte>, source: seq<Byte>, base: nat, taken: nat, k: nat)
    requires Linked(passed, [], prefix, source, base, taken) && taken + k <= |source|
    ensures Linked(passed, source[taken..taken + k], prefix, source, base, taken + k)
  {
    assert source[base..taken] + source[taken..taken + k] == source[base..taken + k];
    assert passed + [] == passed;
  }

  lemma LinkSends(passed: seq<Byte>, inHand: seq<Byte>, prefix: seq<Byte>, source: seq<Byte>, base: nat, taken: nat,
      k: nat)
    requires Linked(passed, inHand, prefix, source, base, taken) && k <= |inHand|
    ensures Linked(passed + inHand[..k], inHand[k..], prefix, source, base, taken)
  {
    assert passed + inHand[..k] + inHand[k..] == passed + inHand;
  }

  lemma LinkGrows(passed: seq<Byte>, inHand: seq<Byte>, prefix: seq<Byte>, source: seq<Byte>, base: nat, taken: nat,
      more: seq<Byte>)
    ensures Linked(passed, inHand, prefix, source, base, taken) ==>
            Linked(passed, inHand, prefix, source + more, base, taken)
    ensures Severed(passed, prefix, source, base, taken) ==> Severed(passed, prefix, source + more, base, taken)
  {
    if base <= taken <= |source| {
      assert (source + more)[base..taken] == source[base..taken];
    }
  }

  lemma LinkSevers(passed: seq<Byte>, inHand: seq<Byte>, prefix: seq<Byte>, source: seq<Byte>, base: nat, taken: nat)
    requires Linked(passed, inHand, prefix, source, base, taken)
    ensures Severed(passed, prefix, source, base, taken)
  {
    assert passed <= passed + inHand;
  }

  // --- The four pumps -------------------------------------------------------------------

  /** stdin to the proxy, after the header. */
  ghost predicate UpOk(cfg: Config, helper: Helper, stdin: Channel, up: Channel) {
    && up.taken <= |up.sent|
    && match helper
       case Greeting(rest) => Linked(up.sent, rest, cfg.header, stdin.sent, 0, 0) && stdin.taken == 0 && !up.fin
         && rest != []
       case Replying(_) => Linked(up.sent, [], cfg.header, stdin.sent, 0, 0) && stdin.taken == 0 && !up.fin
       case Pumping(stdinOpen, toProxy, _) =>
         && Linked(up.sent, toProxy, cfg.header, stdin.sent, 0, stdin.taken)
         && (up.fin <==> !stdinOpen)
         && (!stdinOpen ==> toProxy == [] && stdin.AtEnd())
       case Left(_) => Severed(up.sent, cfg.header, stdin.sent, 0, stdin.taken) && up.fin
       case Foreign => true
  }

  /** The client's stream, after the cut, to the target. */
  ghost predicate OutOk(proxy: Proxy, up: Channel, out: Channel) {
    up.taken <= |up.sent| &&
    match proxy
    case Reading(request) => request == up.sent[..up.taken] && |request| <= LIMIT && out.sent == [] && !out.fin
    case Dialling(_, remainder) => Complete(up.sent) && Linked([], remainder, [], up.sent, Cut(up.sent), up.taken)
      && out.sent == [] && !out.fin
    case Greeted(_, remainder) => Complete(up.sent) && Linked([], remainder, [], up.sent, Cut(up.sent), up.taken)
      && out.sent == [] && !out.fin
    case Forwarding(rest) => Complete(up.sent) && Linked(out.sent, rest, [], up.sent, Cut(up.sent), up.taken)
      && !out.fin
    case Relaying(clientOpen, _, toTarget, _) =>
      && Complete(up.sent) && Linked(out.sent, toTarget, [], up.sent, Cut(up.sent), up.taken)
      && (out.fin <==> !clientOpen)
      && (!clientOpen ==> toTarget == [] && up.AtEnd())
    case Complaining(_) => out.sent == []
      || (Complete(up.sent) && Severed(out.sent, [], up.sent, Cut(up.sent), up.taken))
    case Closed(clean) =>
      && out.fin
      && (out.sent == [] || (Complete(up.sent) && Severed(out.sent, [], up.sent, Cut(up.sent), up.taken)))
      && (clean ==> Complete(up.sent) && up.AtEnd() && out.sent == up.sent[Cut(up.sent)..])
  }

  /** The OK line and then the target's stream to the client, and after that perhaps an ERR line. */
  ghost predicate DownOk(proxy: Proxy, back: Channel, down: Channel, relayed: nat, complaint: Option<seq<Byte>>) {
    && down.taken <= |down.sent| && relayed <= |down.sent|
    && (complaint.None? ==> relayed == |down.sent|)
    && (complaint.Some? ==>
         down.sent[relayed..] <= complaint.value && (proxy.Complaining? || proxy.Closed?) && complaint.value != []
         && complaint.value[0] == 69)
    && match proxy
       case Reading(_) => down.sent == [] && back.taken == 0 && !down.fin
       case Dialling(_, _) => down.sent == [] && back.taken == 0 && !down.fin
       case Greeted(rest, _) => Linked(down.sent, rest, OK_REPLY, back.sent, 0, 0) && back.taken == 0 && !down.fin
         && rest != []
       case Forwarding(_) => Linked(down.sent, [], OK_REPLY, back.sent, 0, 0) && back.taken == 0 && !down.fin
       case Relaying(_, upstreamOpen, _, toClient) =>
         && Linked(down.sent, toClient, OK_REPLY, back.sent, 0, back.taken)
         && (down.fin <==> !upstreamOpen)
         && (!upstreamOpen ==> toClient == [] && back.AtEnd())
       case Complaining(rest) =>
         && complaint.Some? && Severed(down.sent[..relayed], OK_REPLY, back.sent, 0, back.taken)
         && down.sent[relayed..] + rest == complaint.value
       case Closed(clean) =>
         && down.fin && Severed(down.sent[..relayed], OK_REPLY, back.sent, 0, back.taken)
         && (clean ==> complaint.None? && back.AtEnd() && down.sent == OK_REPLY + back.sent)
         && (!clean && complaint.None? ==> down.sent == [])
  }

  /** The proxy's answer, after the OK line, to stdout. */
  ghost predicate StdoutOk(helper: Helper, down: Channel, stdout: seq<Byte>) {
    && down.taken <= |down.sent|
    && match helper
       case Greeting(_) => down.taken == 0 && stdout == []
       case Replying(got) => got == down.sent[..down.taken] && stdout == []
       case Pumping(_, _, toStdout) => OK_REPLY <= down.sent && Linked(stdout, toStdout, [], down.sent, 3, down.taken)
       case Left(clean) =>
         && (stdout == [] || (OK_REPLY <= down.sent && Severed(stdout, [], down.sent, 3, down.taken)))
         && (clean ==> OK_REPLY <= down.sent && down.AtEnd() && stdout == down.sent[3..])
       case Foreign => stdout == []
  }

  ghost predicate Inv(cfg: Config, s: System) {
    && UpOk(cfg, s.helper, s.stdin, s.up)
    && OutOk(s.proxy, s.up, s.out)
    && DownOk(s.proxy, s.back, s.down, s.relayed, s.complaint)
    && StdoutOk(s.helper, s.down, s.stdout)
  }

  // --- Growth of the sources does no harm ----------------------------------------------------

  lemma CutGrows(stream: seq<Byte>, more: seq<Byte>)
    requires Complete(stream)
    ensures Complete(stream + more) && Cut(stream + more) == Cut(stream)
  {
    assert (stream + more)[..|stream|] == stream;
    FirstNewlineOfPrefix(stream + more, |stream|);
  }

  lemma UpGrows(proxy: Proxy, up: Channel, out: Channel, more: seq<Byte>)
    requires OutOk(proxy, up, out) && !up.fin
    ensures OutOk(proxy, up.Send(more), out)
  {
    if Complete(up.sent) {
      CutGrows(up.sent, more);
      var c := Cut(up.sent);
      match proxy {
        case Dialling(_, remainder) => LinkGrows([], remainder, [], up.sent, c, up.taken, more);
        case Greeted(_, remainder) => LinkGrows([], remainder, [], up.sent, c, up.taken, more);
        case Forwarding(rest) => LinkGrows(out.sent, rest, [], up.sent, c, up.taken, more);
        case Relaying(_, _, toTarget, _) => LinkGrows(out.sent, toTarget, [], up.sent, c, up.taken, more);
        case _ => LinkGrows(out.sent, [], [], up.sent, c, up.taken, more);
      }
    }
    hide Complete, Linked, Severed;
  }

  lemma StdinGrows(cfg: Config, helper: Helper, stdin: Channel, up: Channel, more: seq<Byte>)
    requires UpOk(cfg, helper, stdin, up) && !stdin.fin
    ensures UpOk(cfg, helper, stdin.Send(more), up)
  {
    match helper
    case Greeting(rest) => LinkGrows(up.sent, rest, cfg.header, stdin.sent, 0, 0, more);
    case Replying(_) => LinkGrows(up.sent, [], cfg.header, stdin.sent, 0, 0, more);
    case Pumping(_, toProxy, _) => LinkGrows(up.sent, toProxy, cfg.header, stdin.sent, 0, stdin.taken, more);
    case Left(_) => LinkGrows(up.sent, [], cfg.header, stdin.sent, 0, stdin.taken, more);
    case Foreign =>
  }

  lemma BackGrows(proxy: Proxy, back: Channel, down: Channel, relayed: nat, complaint: Option<seq<Byte>>,
      more: seq<Byte>)
    requires DownOk(proxy, back, down, relayed, complaint) && !back.fin
    ensures DownOk(proxy, back.Send(more), down, relayed, complaint)
  {
    match proxy
    case Greeted(rest, _) => LinkGrows(down.sent, rest, OK_REPLY, back.sent, 0, 0, more);
    case Forwarding(_) => LinkGrows(down.sent, [], OK_REPLY, back.sent, 0, 0, more);
    case Relaying(_, _, _, toClient) => LinkGrows(down.sent, toClient, OK_REPLY, back.sent, 0, back.taken, more);
    case Complaining(_) => LinkGrows(down.sent[..relayed], [], OK_REPLY, back.sent, 0, back.taken, more);
    case Closed(_) => LinkGrows(down.sent[..relayed], [], OK_REPLY, back.sent, 0, back.taken, more);
    case _ =>
  }

  lemma DownGrows(helper: Helper, down: Channel, stdout: seq<Byte>, more: seq<Byte>)
    requires StdoutOk(helper, down, stdout) && !down.fin
    ensures StdoutOk(helper, down.Send(more), stdout)
  {
    match helper
    case Pumping(_, _, toStdout) => LinkGrows(stdout, toStdout, [], down.sent, 3, down.taken, more);
    case Left(_) => LinkGrows(stdout, [], [], down.sent, 3, down.taken, more);
    case _ =>
  }

  // --- Steps ----------------------------------------------------------------------------------

  predicate OfEnds(step: Step) {
    step.StdinMore? || step.StdinEnd? || step.TargetSends? || step.TargetEnds? || step.ForeignSends?
      || step.ForeignEnds? || step.ForeignTakes?
  }

  lemma EndsKeepInv(cfg: Config, s: System, step: Step)
    requires Inv(cfg, s) && Enabled(cfg, s, step) && OfEnds(step)
    ensures Inv(cfg, Next(cfg, s, step))
  {
    match step
    case StdinMore(bytes) => StdinGrows(cfg, s.helper, s.stdin, s.up, bytes); hide UpOk, OutOk, DownOk, StdoutOk;
    case TargetSends(bytes) => BackGrows(s.proxy, s.back, s.down, s.relayed, s.complaint, bytes); hide UpOk, OutOk,
      DownOk, StdoutOk;
    case ForeignSends(bytes) => UpGrows(s.proxy, s.up, s.out, bytes); hide OutOk, DownOk, StdoutOk;
    case _ => hide Linked, Severed, Complete, Cut;
  }

  lemma HelperUpKeepsInv(cfg: Config, s: System, step: Step)
    requires Inv(cfg, s) && Enabled(cfg, s, step)
    requires step.HelperGreets? || step.HelperReadsStdin? || step.HelperSends? || step.HelperEndsStdin?
    ensures Inv(cfg, Next(cfg, s, step))
  {
    match step
    case HelperGreets(k) =>
      LinkSends(s.up.sent, s.helper.rest, cfg.header, s.stdin.sent, 0, 0, k);
      UpGrows(s.proxy, s.up, s.out, s.helper.rest[..k]);
      hide Linked, Severed, OutOk, DownOk;
    case HelperReadsStdin(k) =>
      LinkTakes(s.up.sent, cfg.header, s.stdin.sent, 0, s.stdin.taken, k);
      hide Linked, Severed, OutOk, DownOk;
    case HelperSends(k) =>
      LinkSends(s.up.sent, s.helper.toProxy, cfg.header, s.stdin.sent, 0, s.stdin.taken, k);
      UpGrows(s.proxy, s.up, s.out, s.helper.toProxy[..k]);
      hide Linked, Severed, OutOk, DownOk;
    case HelperEndsStdin =>
      hide Linked, Severed, DownOk, Complete, Cut;
  }

  lemma HelperReadsByteKeepsInv(cfg: Config, s: System)
    requires Inv(cfg, s) && Enabled(cfg, s, HelperReadsByte)
    ensures Inv(cfg, Next(cfg, s, HelperReadsByte))
  {
    assert s.down.sent[..s.down.taken + 1] == s.down.sent[..s.down.taken] + s.down.Chunk(1);
    hide Linked, Severed, OutOk, UpOk;
  }

  lemma HelperReadsSocketKeepsInv(cfg: Config, s: System, k: nat)
    requires Inv(cfg, s) && Enabled(cfg, s, HelperReadsSocket(k))
    ensures Inv(cfg, Next(cfg, s, HelperReadsSocket(k)))
  {
    LinkTakes(s.stdout, [], s.down.sent, 3, s.down.taken, k);
    hide Linked, Severed, OutOk;
  }

  lemma HelperWritesKeepsInv(cfg: Config, s: System, k: nat)
    requires Inv(cfg, s) && Enabled(cfg, s, HelperWrites(k))
    ensures Inv(cfg, Next(cfg, s, HelperWrites(k)))
  {
    LinkSends(s.stdout, s.helper.toStdout, [], s.down.sent, 3, s.down.taken, k);
    hide Linked, Severed, OutOk, DownOk;
  }

  lemma HelperStartsKeepsInv(cfg: Config, s: System)
    requires Inv(cfg, s) && Enabled(cfg, s, HelperStarts)
    ensures Inv(cfg, Next(cfg, s, HelperStarts))
  {
    assert s.down.sent[..s.down.taken] == OK_REPLY;
    assert s.down.taken == 3 && s.down.sent[3..3] == [];
    hide OutOk, DownOk;
  }

  lemma UpEnds(cfg: Config, helper: Helper, stdin: Channel, up: Channel, clean: bool)
    requires UpOk(cfg, helper, stdin, up) && !helper.Foreign?
    ensures UpOk(cfg, Left(clean), stdin, up.Shut())
  {
    match helper
    case Greeting(rest) => LinkSevers(up.sent, rest, cfg.header, stdin.sent, 0, 0);
    case Replying(_) => LinkSevers(up.sent, [], cfg.header, stdin.sent, 0, 0);
    case Pumping(_, toProxy, _) => LinkSevers(up.sent, toProxy, cfg.header, stdin.sent, 0, stdin.taken);
    case Left(_) =>
  }

  lemma StdoutEnds(helper: Helper, down: Channel, stdout: seq<Byte>, clean: bool)
    requires StdoutOk(helper, down, stdout) && !helper.Foreign? && !helper.Left?
    requires clean ==> HelperIdle(helper) && down.AtEnd()
    ensures StdoutOk(Left(clean), down, stdout)
  {
    match helper
    case Pumping(_, _, toStdout) =>
      LinkSevers(stdout, toStdout, [], down.sent, 3, down.taken);
      if clean {
        assert stdout + [] == stdout && down.sent[3..down.taken] == down.sent[3..];
      }
    case _ =>
  }

  lemma HelperLeavesKeepsInv(cfg: Config, s: System, step: Step)
    requires Inv(cfg, s) && Enabled(cfg, s, step) && (step.HelperGivesUp? || step.HelperFinishes? || step.HelperFails?)
    ensures Inv(cfg, Next(cfg, s, step))
  {
    UpEnds(cfg, s.helper, s.stdin, s.up, step.HelperFinishes?);
    StdoutEnds(s.helper, s.down, s.stdout, step.HelperFinishes?);
    hide Linked, Severed, UpOk, DownOk, StdoutOk, Cut, Complete;
  }

  lemma ProxyReadsKeepsInv(cfg: Config, s: System, k: nat)
    requires Inv(cfg, s) && Enabled(cfg, s, ProxyReads(k))
    ensures Inv(cfg, Next(cfg, s, ProxyReads(k)))
  {
    assert s.up.sent[..s.up.taken + k] == s.up.sent[..s.up.taken] + s.up.Chunk(k);
    hide Linked, Severed, Complete, StdoutOk;
  }

  lemma ProxyParsesKeepsInv(cfg: Config, s: System, error: seq<Byte>)
    requires Inv(cfg, s) && Enabled(cfg, s, ProxyParses(error))
    ensures Inv(cfg, Next(cfg, s, ProxyParses(error)))
  {
    hide Destined, UpOk, StdoutOk;
    RequestIsCutOfStream(s.up.sent, s.up.taken);
    hide Complete, Cut, Line, Remainder;
    assert [] + Remainder(s.proxy.request) == [] + s.up.sent[Cut(s.up.sent)..s.up.taken];
    assert s.down.sent[..s.relayed] == [] && s.down.sent[s.relayed..] + ErrLine(error) == ErrLine(error);
  }

  lemma ProxyConnectsKeepsInv(cfg: Config, s: System)
    requires Inv(cfg, s) && Enabled(cfg, s, ProxyConnects)
    ensures Inv(cfg, Next(cfg, s, ProxyConnects))
  {
    assert [] + OK_REPLY == OK_REPLY + s.back.sent[0..0];
    hide UpOk, StdoutOk, Complete, Cut, Line, Remainder, Destined;
  }

  lemma ProxyRepliesKeepsInv(cfg: Config, s: System, k: nat)
    requires Inv(cfg, s) && Enabled(cfg, s, ProxyReplies(k))
    ensures Inv(cfg, Next(cfg, s, ProxyReplies(k)))
  {
    LinkSends(s.down.sent, s.proxy.rest, OK_REPLY, s.back.sent, 0, 0, k);
    DownGrows(s.helper, s.down, s.stdout, s.proxy.rest[..k]);
    assert s.out.sent == [];
    hide Linked, Severed, UpOk, StdoutOk, Complete, Cut;
  }

  lemma ProxyForwardsKeepsInv(cfg: Config, s: System, k: nat)
    requires Inv(cfg, s) && Enabled(cfg, s, ProxyForwards(k))
    ensures Inv(cfg, Next(cfg, s, ProxyForwards(k)))
  {
    if s.proxy.rest == [] {
      hide UpOk, StdoutOk, Complete, Cut;
    } else {
      LinkSends(s.out.sent, s.proxy.rest, [], s.up.sent, Cut(s.up.sent), s.up.taken, k);
      hide Linked, Severed, UpOk, StdoutOk, Complete, Cut;
    }
  }

  lemma ProxyTakesClientKeepsInv(cfg: Config, s: System, k: nat)
    requires Inv(cfg, s) && Enabled(cfg, s, ProxyTakesClient(k))
    ensures Inv(cfg, Next(cfg, s, ProxyTakesClient(k)))
  {
    LinkTakes(s.out.sent, [], s.up.sent, Cut(s.up.sent), s.up.taken, k);
    hide Linked, Severed, StdoutOk, Complete, Cut;
  }

  lemma ProxySendsTargetKeepsInv(cfg: Config, s: System, k: nat)
    requires Inv(cfg, s) && Enabled(cfg, s, ProxySendsTarget(k))
    ensures Inv(cfg, Next(cfg, s, ProxySendsTarget(k)))
  {
    LinkSends(s.out.sent, s.proxy.toTarget, [], s.up.sent, Cut(s.up.sent), s.up.taken, k);
    hide Linked, Severed, UpOk, StdoutOk, Complete, Cut;
  }

  lemma ProxyEndsClientKeepsInv(cfg: Config, s: System)
    requires Inv(cfg, s) && Enabled(cfg, s, ProxyEndsClient)
    ensures Inv(cfg, Next(cfg, s, ProxyEndsClient))
  {
    hide Linked, Severed, UpOk, StdoutOk, Complete, Cut;
  }

  lemma ProxyTakesTargetKeepsInv(cfg: Config, s: System, k: nat)
    requires Inv(cfg, s) && Enabled(cfg, s, ProxyTakesTarget(k))
    ensures Inv(cfg, Next(cfg, s, ProxyTakesTarget(k)))
  {
    LinkTakes(s.down.sent, OK_REPLY, s.back.sent, 0, s.back.taken, k);
    hide Linked, Severed, UpOk, StdoutOk, Complete, Cut;
  }

  lemma ProxySendsClientKeepsInv(cfg: Config, s: System, k: nat)
    requires Inv(cfg, s) && Enabled(cfg, s, ProxySendsClient(k))
    ensures Inv(cfg, Next(cfg, s, ProxySendsClient(k)))
  {
    LinkSends(s.down.sent, s.proxy.toClient, OK_REPLY, s.back.sent, 0, s.back.taken, k);
    DownGrows(s.helper, s.down, s.stdout, s.proxy.toClient[..k]);
    hide Linked, Severed, UpOk, StdoutOk, Complete, Cut;
  }

  lemma ProxyEndsTargetKeepsInv(cfg: Config, s: System)
    requires Inv(cfg, s) && Enabled(cfg, s, ProxyEndsTarget)
    ensures Inv(cfg, Next(cfg, s, ProxyEndsTarget))
  {
    ClosingKeepsStdout(s.helper, s.down, s.stdout);
    hide Linked, Severed, UpOk, StdoutOk, Complete, Cut;
  }

  lemma ClosingKeepsStdout(helper: Helper, down: Channel, stdout: seq<Byte>)
    requires StdoutOk(helper, down, stdout)
    ensures StdoutOk(helper, down.Shut(), stdout)
  {
  }

  lemma ProxyLosesClientKeepsInv(cfg: Config, s: System)
    requires Inv(cfg, s) && Enabled(cfg, s, ProxyLosesClient)
    ensures Inv(cfg, Next(cfg, s, ProxyLosesClient))
  {
    ClosingKeepsStdout(s.helper, s.down, s.stdout);
    assert s.down.sent[..s.relayed] == [];
    hide UpOk, StdoutOk, Complete, Cut;
  }

  lemma ProxyFinishesKeepsInv(cfg: Config, s: System)
    requires Inv(cfg, s) && Enabled(cfg, s, ProxyFinishes)
    ensures Inv(cfg, Next(cfg, s, ProxyFinishes))
  {
    ClosingKeepsStdout(s.helper, s.down, s.stdout);
    FinishedUp(s.proxy, s.up, s.out);
    FinishedDown(s.proxy, s.back, s.down, s.relayed, s.complaint);
    hide UpOk, OutOk, DownOk, StdoutOk;
  }

  lemma FinishedUp(proxy: Proxy, up: Channel, out: Channel)
    requires OutOk(proxy, up, out) && Idle(proxy) && !proxy.clientOpen
    ensures OutOk(Closed(true), up, out.Shut())
  {
    var c := Cut(up.sent);
    assert out.sent + [] == out.sent && up.sent[c..up.taken] == up.sent[c..];
    LinkSevers(out.sent, [], [], up.sent, c, up.taken);
    hide Complete, Cut;
  }

  lemma FinishedDown(proxy: Proxy, back: Channel, down: Channel, relayed: nat, complaint: Option<seq<Byte>>)
    requires DownOk(proxy, back, down, relayed, complaint) && Idle(proxy) && !proxy.upstreamOpen
    ensures DownOk(Closed(true), back, down.Shut(), relayed, complaint)
  {
    assert down.sent[..relayed] == down.sent && down.sent + [] == down.sent && back.sent[0..back.taken] == back.sent;
    LinkSevers(down.sent, [], OK_REPLY, back.sent, 0, back.taken);
  }

  lemma ProxyClosesKeepsInv(cfg: Config, s: System)
    requires Inv(cfg, s) && Enabled(cfg, s, ProxyCloses)
    ensures Inv(cfg, Next(cfg, s, ProxyCloses))
  {
    ClosingKeepsStdout(s.helper, s.down, s.stdout);
    hide UpOk, StdoutOk, Complete, Cut;
  }

  lemma ProxyFailsKeepsInv(cfg: Config, s: System, error: seq<Byte>)
    requires Inv(cfg, s) && Enabled(cfg, s, ProxyFails(error))
    ensures Inv(cfg, Next(cfg, s, ProxyFails(error)))
  {
    assert s.down.sent[..s.relayed] == s.down.sent && s.down.sent[s.relayed..] == [];
    assert [] + ErrLine(error) == ErrLine(error);
    match s.proxy {
      case Reading(_) =>
      case Dialling(_, _) =>
      case Greeted(rest, _) => LinkSevers(s.down.sent, rest, OK_REPLY, s.back.sent, 0, 0);
      case Forwarding(rest) =>
        LinkSevers(s.down.sent, [], OK_REPLY, s.back.sent, 0, 0);
        LinkSevers(s.out.sent, rest, [], s.up.sent, Cut(s.up.sent), s.up.taken);
      case Relaying(_, _, toTarget, toClient) =>
        LinkSevers(s.down.sent, toClient, OK_REPLY, s.back.sent, 0, s.back.taken);
        LinkSevers(s.out.sent, toTarget, [], s.up.sent, Cut(s.up.sent), s.up.taken);
    }
    hide UpOk, StdoutOk, Complete, Cut, Linked;
  }

  lemma ProxyComplainsKeepsInv(cfg: Config, s: System, k: nat)
    requires Inv(cfg, s) && Enabled(cfg, s, ProxyComplains(k))
    ensures Inv(cfg, Next(cfg, s, ProxyComplains(k)))
  {
    var more := s.proxy.rest[..k];
    DownGrows(s.helper, s.down, s.stdout, more);
    assert (s.down.sent + more)[..s.relayed] == s.down.sent[..s.relayed];
    assert (s.down.sent + more)[s.relayed..] + s.proxy.rest[k..] == s.down.sent[s.relayed..] + s.proxy.rest;
    hide UpOk, StdoutOk, Complete, Cut;
  }

  lemma StepKeepsInv(cfg: Config, s: System, step: Step)
    requires Inv(cfg, s) && Enabled(cfg, s, step)
    ensures Inv(cfg, Next(cfg, s, step))
  {
    hide Inv, Next, Enabled;
    match step
    case StdinMore(_) => EndsKeepInv(cfg, s, step);
    case StdinEnd => EndsKeepInv(cfg, s, step);
    case TargetSends(_) => EndsKeepInv(cfg, s, step);
    case TargetEnds => EndsKeepInv(cfg, s, step);
    case ForeignSends(_) => EndsKeepInv(cfg, s, step);
    case ForeignEnds => EndsKeepInv(cfg, s, step);
    case ForeignTakes(_) => EndsKeepInv(cfg, s, step);
    case HelperGreets(_) => HelperUpKeepsInv(cfg, s, step);
    case HelperReadsStdin(_) => HelperUpKeepsInv(cfg, s, step);
    case HelperSends(_) => HelperUpKeepsInv(cfg, s, step);
    case HelperEndsStdin => HelperUpKeepsInv(cfg, s, step);
    case HelperReadsByte => HelperReadsByteKeepsInv(cfg, s);
    case HelperReadsSocket(k) => HelperReadsSocketKeepsInv(cfg, s, k);
    case HelperWrites(k) => HelperWritesKeepsInv(cfg, s, k);
    case HelperStarts => HelperStartsKeepsInv(cfg, s);
    case HelperGivesUp => HelperLeavesKeepsInv(cfg, s, step);
    case HelperFinishes => HelperLeavesKeepsInv(cfg, s, step);
    case HelperFails => HelperLeavesKeepsInv(cfg, s, step);
    case ProxyReads(k) => ProxyReadsKeepsInv(cfg, s, k);
    case ProxyParses(error) => ProxyParsesKeepsInv(cfg, s, error);
    case ProxyConnects => ProxyConnectsKeepsInv(cfg, s);
    case ProxyReplies(k) => ProxyRepliesKeepsInv(cfg, s, k);
    case ProxyForwards(k) => ProxyForwardsKeepsInv(cfg, s, k);
    case ProxyTakesClient(k) => ProxyTakesClientKeepsInv(cfg, s, k);
    case ProxyEndsClient => ProxyEndsClientKeepsInv(cfg, s);
    case ProxySendsTarget(k) => ProxySendsTargetKeepsInv(cfg, s, k);
    case ProxyTakesTarget(k) => ProxyTakesTargetKeepsInv(cfg, s, k);
    case ProxyEndsTarget => ProxyEndsTargetKeepsInv(cfg, s);
    case ProxySendsClient(k) => ProxySendsClientKeepsInv(cfg, s, k);
    case ProxyLosesClient => ProxyLosesClientKeepsInv(cfg, s);
    case ProxyFinishes => ProxyFinishesKeepsInv(cfg, s);
    case ProxyCloses => ProxyClosesKeepsInv(cfg, s);
    case ProxyFails(error) => ProxyFailsKeepsInv(cfg, s, error);
    case ProxyComplains(k) => ProxyComplainsKeepsInv(cfg, s, k);
  }
}
