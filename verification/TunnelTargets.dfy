/** Whom the proxy connects to: only what an accepted line names, and then exactly that. */
module TunnelTargets {
  import opened Common
  import opened ConnectHeader
  import opened Tunnel
  import opened TunnelProofs
  import opened TunnelRuns
  import Text
  import IPv4

  /** The client's line is complete and the proxy accepts it. */
  function Asked(cfg: Config, up: Channel): Option<Destination> {
    if Complete(up.sent) then Destined(Head(up.sent), cfg.readInt) else None
  }

  /** No byte of the target's side has moved, and no OK line. */
  predicate Untouched(s: System) {
    s.dialled == None && s.out.sent == [] && s.relayed == 0 && s.back.taken == 0
  }

  ghost predicate DialOk(cfg: Config, s: System) {
    && (s.dialled.Some? ==> Asked(cfg, s.up) == s.dialled)
    && (s.dialled.None? ==> Untouched(s))
    && match s.proxy
       case Reading(_) => s.dialled == None
       case Dialling(to, _) => s.dialled == None && Asked(cfg, s.up) == Some(to)
       case Greeted(_, _) => s.dialled.Some?
       case Forwarding(_) => s.dialled.Some?
       case Relaying(_, _, _, _) => s.dialled.Some?
       case _ => true
  }

  lemma AskedStays(cfg: Config, up: Channel, more: seq<Byte>)
    requires Asked(cfg, up).Some?
    ensures Asked(cfg, up.Send(more)) == Asked(cfg, up)
  {
    hide Destined;
    var stream, longer := up.sent, up.sent + more;
    CutGrows(stream, more);
    assert longer[..|stream|] == stream;
    FirstNewlineOfPrefix(longer, |stream|);
    assert Head(longer) == Head(stream);
  }

  predicate SendsUp(step: Step) {
    step.ForeignSends? || step.HelperGreets? || step.HelperSends?
  }

  /** Sending on the client's stream changes nothing at the proxy. */
  lemma SendingUp(cfg: Config, s: System, step: Step) returns (more: seq<Byte>)
    requires Enabled(cfg, s, step) && SendsUp(step)
    ensures var s' := Next(cfg, s, step);
            && s'.up == s.up.Send(more) && s'.proxy == s.proxy && s'.dialled == s.dialled && s'.out == s.out
            && s'.relayed == s.relayed && s'.back == s.back
  {
    more := if step.ForeignSends? then step.bytes
            else if step.HelperGreets? then s.helper.rest[..step.k] else s.helper.toProxy[..step.k];
  }

  /** The other steps send nothing on it. */
  lemma NotSendingUp(cfg: Config, s: System, step: Step)
    requires Enabled(cfg, s, step) && !SendsUp(step)
    ensures Next(cfg, s, step).up.sent == s.up.sent
  {
    hide Destined, Line, Remainder, ErrLine;
  }

  lemma StepKeepsDial(cfg: Config, s: System, step: Step)
    requires DialOk(cfg, s) && OutOk(s.proxy, s.up, s.out) && Enabled(cfg, s, step)
    ensures DialOk(cfg, Next(cfg, s, step))
  {
    if SendsUp(step) {
      hide Enabled, Next, OutOk, Asked;
      var more := SendingUp(cfg, s, step);
      if Asked(cfg, s.up).Some? {
        AskedStays(cfg, s.up, more);
      }
    } else {
      hide Destined, Asked, Linked, Severed, Complete, Cut, Line, Remainder, ErrLine;
      NotSendingUp(cfg, s, step);
      SameAsked(cfg, s.up, Next(cfg, s, step).up);
      if step.ProxyParses? {
        ParsedIsAsked(cfg, s);
      }
      hide OutOk;
    }
  }

  lemma SameAsked(cfg: Config, a: Channel, b: Channel)
    requires a.sent == b.sent
    ensures Asked(cfg, a) == Asked(cfg, b)
  {
  }

  lemma ParsedIsAsked(cfg: Config, s: System)
    requires s.proxy.Reading? && Complete(s.proxy.request) && OutOk(s.proxy, s.up, s.out)
    ensures Destined(Line(s.proxy.request), cfg.readInt) == Asked(cfg, s.up)
  {
    RequestIsCutOfStream(s.up.sent, s.up.taken);
    hide Destined;
  }

  lemma {:induction false} ExecutionKeepsDial(cfg: Config, foreign: bool, states: seq<System>, steps: seq<Step>, i: nat)
    requires Execution(cfg, foreign, states, steps) && i < |states|
    ensures DialOk(cfg, states[i])
  {
    hide Inv, Enabled, Next, DialOk;
    if i == 0 {
      NothingDialled(cfg, foreign);
    } else {
      ExecutionKeepsDial(cfg, foreign, states, steps, i - 1);
      ExecutionKeepsInv(cfg, foreign, states, steps, i - 1);
      OutOf(cfg, states[i - 1]);
      StepKeepsDial(cfg, states[i - 1], steps[i - 1]);
    }
  }

  lemma NothingDialled(cfg: Config, foreign: bool)
    ensures DialOk(cfg, Initial(cfg, foreign))
  {
  }

  lemma OutOf(cfg: Config, s: System)
    requires Inv(cfg, s)
    ensures OutOk(s.proxy, s.up, s.out) && DownOk(s.proxy, s.back, s.down, s.relayed, s.complaint)
    ensures StdoutOk(s.helper, s.down, s.stdout)
  {
  }

  /** Something has passed between the two ends, or the client was told that it may. */
  ghost predicate Connected(s: System) {
    s.out.sent != [] || s.back.taken > 0 || s.stdout != [] || OK_REPLY <= s.down.sent
  }

  /**
   In any run, whoever the client is and however its bytes arrive: if the proxy connected anywhere, then to
   the vehicle address and port that the client's line names; and until it has connected, no byte has gone to
   a target or come from one, and no OK line is on its way.
   */
  lemma OnlyWhatWasNamed(cfg: Config, foreign: bool, states: seq<System>, steps: seq<Step>, i: nat)
    requires Execution(cfg, foreign, states, steps) && i < |states|
    ensures var s := states[i];
            && (s.dialled.Some? ==>
                  Complete(s.up.sent) && Names(Head(s.up.sent), cfg.readInt, s.dialled.value))
            && (Connected(s) ==> s.dialled.Some?)
  {
    var s := states[i];
    ExecutionKeepsDial(cfg, foreign, states, steps, i);
    ExecutionKeepsInv(cfg, foreign, states, steps, i);
    OutOf(cfg, s);
    if s.dialled.Some? {
      AcceptsWhatIsNamed(Head(s.up.sent), cfg.readInt, s.dialled.value);
    } else {
      hide Inv, UpOk, OutOk, Enabled, Next, Destined, Names;
      NoOkLine(s);
    }
    hide Inv, Enabled, Next, Destined, Names;
  }

  lemma NoOkLine(s: System)
    requires DownOk(s.proxy, s.back, s.down, s.relayed, s.complaint) && StdoutOk(s.helper, s.down, s.stdout)
    requires s.relayed == 0
    ensures !(OK_REPLY <= s.down.sent) && s.stdout == []
    ensures s.complaint.None? ==> s.down.sent == []
    ensures s.complaint.Some? ==> s.down.sent <= s.complaint.value
  {
    assert s.down.sent[0..] == s.down.sent;
    if OK_REPLY <= s.down.sent && s.complaint.Some? {
      OkLineIsRelayed(s.down.sent, s.relayed, s.complaint.value);
    }
    StdoutAfterOk(s.helper, s.down, s.stdout);
    hide Linked, Severed;
  }

  /**
   The converse: while a complete line names no destination, the target is left alone and the client gets
   nothing but a piece of the ERR line.
   */
  lemma RefusedLinesGoNowhere(cfg: Config, foreign: bool, states: seq<System>, steps: seq<Step>, i: nat)
    requires Execution(cfg, foreign, states, steps) && i < |states|
    requires Complete(states[i].up.sent) && forall to :: !Names(Head(states[i].up.sent), cfg.readInt, to)
    ensures var s := states[i];
            && s.dialled == None && s.out.sent == [] && s.back.taken == 0 && s.stdout == []
            && (s.complaint.None? ==> s.down.sent == [])
            && (s.complaint.Some? ==> s.down.sent <= s.complaint.value)
  {
    var s := states[i];
    OnlyWhatWasNamed(cfg, foreign, states, steps, i);
    ExecutionKeepsDial(cfg, foreign, states, steps, i);
    ExecutionKeepsInv(cfg, foreign, states, steps, i);
    OutOf(cfg, s);
    hide Inv, UpOk, OutOk, Enabled, Next, Destined, Names, Asked;
    NoOkLine(s);
    hide DownOk, StdoutOk;
  }

  // --- The helper's own header --------------------------------------------------------------

  function Bytes(s: string): seq<Byte>
    requires Plain(s)
  {
    seq(|s|, i requires 0 <= i < |s| => s[i] as int as Byte)
  }

  /** ASCII text. */
  predicate Plain(s: string) {
    forall i :: 0 <= i < |s| ==> s[i] as int < 128
  }

  function Request(host: string, port: string): (r: string)
    requires Plain(host) && Plain(port)
    ensures Plain(r)
  {
    "CONNECT " + host + " " + port
  }

  /** What the helper sends for a host and a port. */
  function Header(host: string, port: string): seq<Byte>
    requires Plain(host) && Plain(port)
  {
    Bytes(Request(host, port)) + [NEWLINE]
  }

  lemma LineOfHeader(text: string)
    requires Plain(text) && forall i :: 0 <= i < |text| ==> text[i] != '\n'
    ensures var header := Bytes(text) + [NEWLINE];
            FirstNewline(header) == |header| - 1 && Line(header) == Bytes(text) && Ascii(Line(header)) == Some(text)
  {
    var header := Bytes(text) + [NEWLINE];
    forall i | 0 <= i < |text|
      ensures header[i] != NEWLINE
    {
      assert text[i] != '\n';
    }
    assert header[|text|] == NEWLINE;
    hide FirstNewline;
    assert header[..|text|] == Bytes(text);
    var chars := Ascii(Bytes(text));
    assert chars.Some? && |chars.value| == |text|;
    forall i | 0 <= i < |text|
      ensures chars.value[i] == text[i]
    {
      assert Bytes(text)[i] == text[i] as int;
    }
    assert chars.value == text;
  }

  lemma RequestIsJoin(host: string, port: string)
    requires Plain(host) && Plain(port)
    ensures Request(host, port) == Text.Join(["CONNECT", host, port])
  {
    var words := ["CONNECT", host, port];
    assert words[1..] == [host, port] && [host, port][1..] == [port];
    assert Text.Join([port]) == port;
    assert Text.Join([host, port]) == host + " " + port;
    assert Text.Join(words) == "CONNECT" + " " + (host + " " + port);
    assert "CONNECT " == "CONNECT" + " ";
  }

  /**
   Helper and proxy agree on the line: for a vehicle address and a port, both without whitespace, the header
   the helper sends is a proper one, and names to the proxy exactly this address and this port.
   */
  lemma HelperAsksForItsTarget(cfg: Config, host: string, port: string, number: int)
    requires Text.Solid(host) && Plain(host) && Text.Solid(port) && Plain(port)
    requires IPv4.Parse(host).Some? && IPv4.InVehicleNetwork(IPv4.Parse(host).value)
             && cfg.readInt(port) == Some(number)
    requires |host| + |port| <= 500
    ensures Proper(Header(host, port))
    ensures Destined(Line(Header(host, port)), cfg.readInt) == Some(Destination(host, number))
  {
    hide IPv4.Parse, IPv4.InVehicleNetwork, Text.Words, Text.Join, Text.Strip, Ascii, FirstNewline;
    var words := ["CONNECT", host, port];
    RequestIsJoin(host, port);
    var text := Request(host, port);
    assert forall i :: 0 <= i < |text| ==> text[i] != '\n';
    LineOfHeader(text);
    Text.WordsOfJoin(words);
    Text.WordsOfStrip(text);
    IPv4.ShowUndoesParse(host);
  }

  /** So with this helper, in any run, the proxy connects to this address and port or nowhere. */
  lemma HelperGetsItsTarget(cfg: Config, states: seq<System>, steps: seq<Step>, i: nat,
                            host: string, port: string, number: int)
    requires Execution(cfg, false, states, steps) && i < |states|
    requires Text.Solid(host) && Plain(host) && Text.Solid(port) && Plain(port) && |host| + |port| <= 500
    requires IPv4.Parse(host).Some? && IPv4.InVehicleNetwork(IPv4.Parse(host).value)
             && cfg.readInt(port) == Some(number)
    requires cfg.header == Header(host, port)
    ensures states[i].dialled.Some? ==> states[i].dialled.value == Destination(host, number)
  {
    var s := states[i];
    hide Destined, Names, IPv4.Parse, IPv4.InVehicleNetwork, Text.Solid, Header, Plain, Enabled, Next;
    HelperAsksForItsTarget(cfg, host, port, number);
    ExecutionKeepsInv(cfg, false, states, steps, i);
    ExecutionKeepsDial(cfg, false, states, steps, i);
    if s.dialled.Some? {
      assert Complete(s.up.sent) && Destined(Head(s.up.sent), cfg.readInt) == s.dialled;
      hide DownOk, OutOk, StdoutOk;
      UpPrefix(cfg, s);
      HeadIsHeader(cfg.header, s.up.sent, s.stdin.sent);
    }
    hide Inv;
  }

  lemma HeadIsHeader(header: seq<Byte>, stream: seq<Byte>, rest: seq<Byte>)
    requires Proper(header) && stream <= header + rest && Complete(stream)
    ensures Head(stream) == Line(header)
  {
    CutIsHeader(header, stream, rest);
    var whole := header + rest;
    assert stream[..|header|] == header;
    FirstNewlineOfPrefix(stream, |header|);
  }
}
