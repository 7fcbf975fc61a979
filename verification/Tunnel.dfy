/**
 The tunnel: a client helper, the proxy, and the target behind it. Each socket direction is a
 byte queue; a send may be accepted in pieces and a receive may return any available amount.
 A process that is in the middle of a send does nothing else, as the code has it.
 */
module Tunnel {
  import opened Common
  import opened ConnectHeader

  /**
   One direction of a connection: everything ever sent on it, how much of that was received, and whether
   it was shut.
   */
  datatype Channel = Channel(sent: seq<Byte>, taken: nat, fin: bool) {
    predicate Has(k: nat) { 0 < k && taken + k <= |sent| }
    predicate AtEnd() { fin && taken == |sent| }
    function Chunk(k: nat): seq<Byte> requires taken + k <= |sent| { sent[taken..taken + k] }
    function Take(k: nat): Channel { this.(taken := taken + k) }
    function Send(bytes: seq<Byte>): Channel { this.(sent := sent + bytes) }
    function Shut(): Channel { this.(fin := true) }
  }

  const FRESH := Channel([], 0, false)
  const OK_REPLY: seq<Byte> := [79, 75, 10]

  /** What the proxy tells a client about an exception. */
  function ErrLine(error: seq<Byte>): seq<Byte> {
    [69, 82, 82, 32] + error + [NEWLINE]
  }

  datatype Config = Config(
    header: seq<Byte>,               // the line the helper sends
    readInt: string -> Option<int>)  // the proxy's `int` of a port

  datatype Helper =
    | Greeting(rest: seq<Byte>)                                          // of the header
    | Replying(got: seq<Byte>)
    | Pumping(stdinOpen: bool, toProxy: seq<Byte>, toStdout: seq<Byte>)
    // closed its socket; clean if it saw the end of the stream
    | Left(clean: bool)
    | Foreign                                                            // some other client, sending whatever it likes

  datatype Proxy =
    | Reading(request: seq<Byte>)
    | Dialling(to: Destination, remainder: seq<Byte>)
    | Greeted(rest: seq<Byte>, remainder: seq<Byte>)                     // sending the OK line
    | Forwarding(rest: seq<Byte>)                                        // sending the over-read remainder
    | Relaying(clientOpen: bool, upstreamOpen: bool, toTarget: seq<Byte>, toClient: seq<Byte>)
    | Complaining(rest: seq<Byte>)                                       // sending an ERR line
    | Closed(clean: bool)                                                // clean if both directions had ended

  datatype System = System(
    stdin: Channel, up: Channel, out: Channel, back: Channel, down: Channel, stdout: seq<Byte>,
    helper: Helper, proxy: Proxy,
    dialled: Option<Destination>,    // where the proxy connected to
    relayed: nat,                    // the part of `down` that is not an ERR line
    complaint: Option<seq<Byte>>)    // the ERR line, once there is one

  function Initial(cfg: Config, foreign: bool): System {
    System(FRESH, FRESH, FRESH, FRESH, FRESH, [], if foreign then Foreign
      else Greeting(cfg.header), Reading([]), None, 0, None)
  }

  datatype Step =
    // the ends
    | StdinMore(bytes: seq<Byte>) | StdinEnd | TargetSends(bytes: seq<Byte>) | TargetEnds
    | ForeignSends(bytes: seq<Byte>) | ForeignEnds | ForeignTakes(k: nat)
    // the helper
    | HelperGreets(k: nat) | HelperReadsByte | HelperStarts | HelperGivesUp
    | HelperReadsStdin(k: nat) | HelperEndsStdin | HelperSends(k: nat)
    | HelperReadsSocket(k: nat) | HelperWrites(k: nat) | HelperFinishes | HelperFails
    // the proxy
    | ProxyReads(k: nat) | ProxyLosesClient | ProxyParses(error: seq<Byte>) | ProxyConnects
    | ProxyReplies(k: nat) | ProxyForwards(k: nat)
    | ProxyTakesClient(k: nat) | ProxyEndsClient | ProxySendsTarget(k: nat)
    | ProxyTakesTarget(k: nat) | ProxyEndsTarget | ProxySendsClient(k: nat)
    | ProxyFinishes | ProxyFails(error: seq<Byte>) | ProxyComplains(k: nat) | ProxyCloses

  predicate Idle(p: Proxy) {
    p.Relaying? && p.toTarget == [] && p.toClient == []
  }

  predicate HelperIdle(h: Helper) {
    h.Pumping? && h.toProxy == [] && h.toStdout == []
  }

  predicate ReplyDone(got: seq<Byte>) {
    (got != [] && got[|got| - 1] == NEWLINE) || |got| >= REPLY_LIMIT
  }

  predicate Piece(k: nat, rest: seq<Byte>) {
    0 < k <= |rest|
  }

  predicate Enabled(cfg: Config, s: System, step: Step) {
    match step
    case StdinMore(_) => !s.stdin.fin
    case StdinEnd => !s.stdin.fin
    case TargetSends(_) => !s.back.fin
    case TargetEnds => !s.back.fin
    case ForeignSends(_) => s.helper.Foreign? && !s.up.fin
    case ForeignEnds => s.helper.Foreign?
    case ForeignTakes(k) => s.helper.Foreign? && s.down.Has(k)
    case HelperGreets(k) => s.helper.Greeting? && Piece(k, s.helper.rest)
    case HelperReadsByte => s.helper.Replying? && !ReplyDone(s.helper.got) && s.down.Has(1)
    case HelperStarts => s.helper.Replying? && ReplyDone(s.helper.got) && s.helper.got == OK_REPLY
    case HelperGivesUp => s.helper.Replying?
      && ((ReplyDone(s.helper.got) && s.helper.got != OK_REPLY) || s.down.AtEnd())
    case HelperReadsStdin(k) => HelperIdle(s.helper) && s.helper.stdinOpen && s.stdin.Has(k)
    case HelperEndsStdin => HelperIdle(s.helper) && s.helper.stdinOpen && s.stdin.AtEnd()
    case HelperSends(k) => s.helper.Pumping? && Piece(k, s.helper.toProxy)
    case HelperReadsSocket(k) => HelperIdle(s.helper) && s.down.Has(k)
    case HelperWrites(k) => s.helper.Pumping? && Piece(k, s.helper.toStdout)
    case HelperFinishes => HelperIdle(s.helper) && s.down.AtEnd()
    case HelperFails => !s.helper.Left? && !s.helper.Foreign?
    case ProxyReads(k) => s.proxy.Reading? && !Complete(s.proxy.request) && s.up.Has(k)
      && |s.proxy.request| + k <= LIMIT
    case ProxyLosesClient => s.proxy.Reading? && !Complete(s.proxy.request) && s.up.AtEnd()
    case ProxyParses(error) => s.proxy.Reading? && Complete(s.proxy.request)
    case ProxyConnects => s.proxy.Dialling?
    case ProxyReplies(k) => s.proxy.Greeted? && Piece(k, s.proxy.rest)
    case ProxyForwards(k) => s.proxy.Forwarding? && (Piece(k, s.proxy.rest) || s.proxy.rest == [])
    case ProxyTakesClient(k) => Idle(s.proxy) && s.proxy.clientOpen && s.up.Has(k)
    case ProxyEndsClient => Idle(s.proxy) && s.proxy.clientOpen && s.up.AtEnd()
    case ProxySendsTarget(k) => s.proxy.Relaying? && Piece(k, s.proxy.toTarget)
    case ProxyTakesTarget(k) => Idle(s.proxy) && s.proxy.upstreamOpen && s.back.Has(k)
    case ProxyEndsTarget => Idle(s.proxy) && s.proxy.upstreamOpen && s.back.AtEnd()
    case ProxySendsClient(k) => s.proxy.Relaying? && Piece(k, s.proxy.toClient)
    case ProxyFinishes => Idle(s.proxy) && !s.proxy.clientOpen && !s.proxy.upstreamOpen
    case ProxyFails(error) => !s.proxy.Complaining? && !s.proxy.Closed?
    case ProxyComplains(k) => s.proxy.Complaining? && Piece(k, s.proxy.rest) && !s.down.fin
    case ProxyCloses => s.proxy.Complaining?       // sent, or the send raised and was ignored
  }

  /** The proxy closes both its sockets. */
  function Close(s: System, clean: bool): System {
    s.(proxy := Closed(clean), down := s.down.Shut(), out := s.out.Shut())
  }

  function Next(cfg: Config, s: System, step: Step): System
    requires Enabled(cfg, s, step)
  {
    match step
    case StdinMore(bytes) => s.(stdin := s.stdin.Send(bytes))
    case StdinEnd => s.(stdin := s.stdin.Shut())
    case TargetSends(bytes) => s.(back := s.back.Send(bytes))
    case TargetEnds => s.(back := s.back.Shut())
    case ForeignSends(bytes) => s.(up := s.up.Send(bytes))
    case ForeignEnds => s.(up := s.up.Shut())
    case ForeignTakes(k) => s.(down := s.down.Take(k))
    case HelperGreets(k) =>
      s.(up := s.up.Send(s.helper.rest[..k]), helper := if k == |s.helper.rest| then Replying([])
        else Greeting(s.helper.rest[k..]))
    case HelperReadsByte => s.(down := s.down.Take(1), helper := Replying(s.helper.got + s.down.Chunk(1)))
    case HelperStarts => s.(helper := Pumping(true, [], []))
    case HelperGivesUp => s.(helper := Left(false), up := s.up.Shut())
    case HelperReadsStdin(k) => s.(stdin := s.stdin.Take(k), helper := s.helper.(toProxy := s.stdin.Chunk(k)))
    case HelperEndsStdin => s.(helper := s.helper.(stdinOpen := false), up := s.up.Shut())
    case HelperSends(k) => s.(up := s.up.Send(s.helper.toProxy[..k]),
      helper := s.helper.(toProxy := s.helper.toProxy[k..]))
    case HelperReadsSocket(k) => s.(down := s.down.Take(k), helper := s.helper.(toStdout := s.down.Chunk(k)))
    case HelperWrites(k) => s.(stdout := s.stdout + s.helper.toStdout[..k],
      helper := s.helper.(toStdout := s.helper.toStdout[k..]))
    case HelperFinishes => s.(helper := Left(true), up := s.up.Shut())
    case HelperFails => s.(helper := Left(false), up := s.up.Shut())
    case ProxyReads(k) => s.(up := s.up.Take(k), proxy := Reading(s.proxy.request + s.up.Chunk(k)))
    case ProxyLosesClient => Close(s, false)
    case ProxyParses(error) =>
      var to := Destined(Line(s.proxy.request), cfg.readInt);
      if to.Some? then s.(proxy := Dialling(to.value, Remainder(s.proxy.request)))
      else s.(proxy := Complaining(ErrLine(error)), complaint := Some(ErrLine(error)))
    case ProxyConnects => s.(proxy := Greeted(OK_REPLY, s.proxy.remainder), dialled := Some(s.proxy.to))
    case ProxyReplies(k) =>
      s.(down := s.down.Send(s.proxy.rest[..k]), relayed := s.relayed + k,
         proxy := if k == |s.proxy.rest| then Forwarding(s.proxy.remainder)
           else Greeted(s.proxy.rest[k..], s.proxy.remainder))
    case ProxyForwards(k) =>
      if s.proxy.rest == [] then s.(proxy := Relaying(true, true, [], []))
      else s.(out := s.out.Send(s.proxy.rest[..k]), proxy := Forwarding(s.proxy.rest[k..]))
    case ProxyTakesClient(k) => s.(up := s.up.Take(k), proxy := s.proxy.(toTarget := s.up.Chunk(k)))
    case ProxyEndsClient => s.(out := s.out.Shut(), proxy := s.proxy.(clientOpen := false))
    case ProxySendsTarget(k) => s.(out := s.out.Send(s.proxy.toTarget[..k]),
      proxy := s.proxy.(toTarget := s.proxy.toTarget[k..]))
    case ProxyTakesTarget(k) => s.(back := s.back.Take(k), proxy := s.proxy.(toClient := s.back.Chunk(k)))
    case ProxyEndsTarget => s.(down := s.down.Shut(), proxy := s.proxy.(upstreamOpen := false))
    case ProxySendsClient(k) =>
      s.(down := s.down.Send(s.proxy.toClient[..k]), relayed := s.relayed + k,
        proxy := s.proxy.(toClient := s.proxy.toClient[k..]))
    case ProxyFinishes => Close(s, true)
    case ProxyFails(error) => s.(proxy := Complaining(ErrLine(error)), complaint := Some(ErrLine(error)))
    case ProxyComplains(k) => s.(down := s.down.Send(s.proxy.rest[..k]), proxy := Complaining(s.proxy.rest[k..]))
    case ProxyCloses => Close(s, false)
  }

  /** The bytes a step sends on the relayed connections, with the channel it sends them on. */
  function SendsOn(s: System, step: Step): Option<Channel> {
    match step
    case HelperSends(_) => Some(s.up)
    case ProxySendsTarget(_) => Some(s.out)
    case ProxyForwards(_) => if s.proxy.Forwarding? && s.proxy.rest != [] then Some(s.out) else None
    case ProxySendsClient(_) => Some(s.down)
    case _ => None
  }
}
