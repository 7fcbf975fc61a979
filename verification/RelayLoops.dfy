/**
 The two loops of the tunnel as they run in one process each: the proxy's relay over its two
 sockets, and the helper's copying between standard streams and its socket. What the peers do in
 between is in the step system; here the order in which sources become readable, the chunking,
 short writes and the relay's failing calls are parameters.
 */
module RelayLoops {
  import opened ConnectHeader

  function Concat(chunks: seq<seq<Byte>>): seq<Byte> {
    if chunks == [] then [] else chunks[0] + Concat(chunks[1..])
  }

  /** What successive receives return before the end of a stream: never nothing. */
  ghost predicate Chunks(chunks: seq<seq<Byte>>) {
    forall i :: 0 <= i < |chunks| ==> |chunks[i]| > 0
  }

  /** One end of a connection: what its receives will return until the stream ends, and what was sent. */
  class Socket {
    var incoming: seq<seq<Byte>>
    var sent: seq<Byte>
    var shut: bool

    ghost predicate Valid()
      reads this
    {
      Chunks(incoming)
    }

    /** The next chunk, or nothing at the end of the stream. */
    method Recv() returns (data: seq<Byte>)
      requires Valid()
      modifies this`incoming
      ensures Valid()
      ensures data == [] <==> old(incoming) == []
      ensures old(incoming) != [] ==> data == old(incoming)[0] && incoming == old(incoming)[1..]
      ensures old(incoming) == [] ==> incoming == []
      ensures data + Concat(incoming) == Concat(old(incoming))
    {
      if |incoming| == 0 {
        return [];
      }
      data := incoming[0];
      incoming := incoming[1..];
    }

    /** `sendall`; where it raises, `accepted` bytes or all of them are gone. Nothing is sent on what was shut. */
    method SendAll(data: seq<Byte>, raises: bool, accepted: nat) returns (ok: bool)
      requires !shut
      modifies this`sent
      ensures ok == !raises
      ensures ok ==> sent == old(sent) + data
      ensures old(sent) <= sent <= old(sent) + data
    {
      ok := !raises;
      sent := sent + (if raises && accepted < |data| then data[..accepted] else data);
    }
  }

  /** Which source is served next, and which calls raise. */
  datatype Env = Env(
    clientFirst: nat -> bool, recvFails: nat -> bool, raises: nat -> bool, accepted: nat -> nat, shutFails: nat -> bool)

  /** What is on the way from a source to a destination: sent already, or still to come. */
  ghost function Whole(source: Socket, destination: Socket): seq<Byte>
    reads source`incoming, destination`sent
  {
    destination.sent + Concat(source.incoming)
  }

  /** One readable source: its data goes to the other socket, its end shuts the other socket for sending. */
  method Serve(source: Socket, destination: Socket, env: Env, i: nat) returns (open: bool, raised: bool)
    requires source != destination && source.Valid() && !destination.shut
    modifies source`incoming, destination`sent, destination`shut
    ensures source.Valid() && old(destination.sent) <= destination.sent <= old(Whole(source, destination))
    ensures !raised ==> Whole(source, destination) == old(Whole(source, destination))
    ensures raised ==> open && (env.recvFails(i) || env.raises(i))
    ensures open ==> !destination.shut && (!raised ==> |source.incoming| < |old(source.incoming)|)
    ensures !open ==> destination.shut == !env.shutFails(i)
    ensures !open ==> source.incoming == [] && destination.sent == old(Whole(source, destination))
  {
    if env.recvFails(i) {
      return true, true;
    }
    var data := source.Recv();
    if data == [] {
      destination.shut := !env.shutFails(i);
      return false, false;
    }
    ghost var before := destination.sent;
    var ok := destination.SendAll(data, env.raises(i), env.accepted(i));
    Follows(before, data, Concat(source.incoming), destination.sent);
    return true, !ok;
  }

  /**
   `relay`: in every order of service. It ends without an exception only when both directions are
   complete; an exception leaves a prefix in each; a direction is shut only when complete.
   */
  method Relay(client: Socket, upstream: Socket, env: Env) returns (raised: bool)
    requires client != upstream && client.Valid() && upstream.Valid() && !client.shut && !upstream.shut
    modifies client, upstream
    ensures old(upstream.sent) <= upstream.sent <= old(Whole(client, upstream))
    ensures old(client.sent) <= client.sent <= old(Whole(upstream, client))
    ensures !raised || upstream.shut ==> upstream.sent == old(Whole(client, upstream))
    ensures !raised || client.shut ==> client.sent == old(Whole(upstream, client))
    ensures (forall i :: !env.recvFails(i) && !env.raises(i)) ==> !raised
    ensures !raised && (forall i :: !env.shutFails(i)) ==> client.shut && upstream.shut
  {
    hide Concat;
    var clientOpen, upstreamOpen := true, true;
    var i := 0;
    while clientOpen || upstreamOpen
      invariant client.Valid() && upstream.Valid()
      invariant Whole(client, upstream) == old(Whole(client, upstream))
                && Whole(upstream, client) == old(Whole(upstream, client))
      invariant old(upstream.sent) <= upstream.sent && old(client.sent) <= client.sent
      invariant if clientOpen then !upstream.shut else upstream.sent == old(Whole(client, upstream))
      invariant if upstreamOpen then !client.shut else client.sent == old(Whole(upstream, client))
      invariant (forall k :: !env.shutFails(k)) ==> (clientOpen || upstream.shut) && (upstreamOpen || client.shut)
      decreases |client.incoming| + |upstream.incoming| + (if clientOpen then 1 else 0) + (if upstreamOpen then 1
        else 0)
    {
      if clientOpen && (env.clientFirst(i) || !upstreamOpen) {
        clientOpen, raised := Serve(client, upstream, env, i);
      } else {
        upstreamOpen, raised := Serve(upstream, client, env, i);
      }
      if raised {
        return;
      }
      i := i + 1;
    }
    raised := false;
  }

  lemma Follows(before: seq<Byte>, data: seq<Byte>, rest: seq<Byte>, after: seq<Byte>)
    ensures before + data + rest == before + (data + rest)
    ensures after <= before + data ==> after <= before + (data + rest)
  {
  }

  /** What `select` reports to the helper. A report of the socket may turn out to be empty-handed. */
  datatype Report = StdinReady | SocketReady | Spurious

  datatype Ending = Waiting | Finished | Raised

  /**
   What the helper's calls do: how much a write takes, which calls raise, and how much of a raising
   `sendall` went out.
   */
  datatype Calls = Calls(takes: nat -> nat, writeFails: nat -> bool, sendFails: nat -> bool, accepted: nat -> nat,
    shutFails: nat -> bool)

  /** `os.write` over the whole of a chunk, however few bytes each call takes; `ok` unless one of the calls raises. */
  method WriteOut(data: seq<Byte>, stdout: seq<Byte>, calls: Calls) returns (written: seq<Byte>, ok: bool)
    requires forall i :: calls.takes(i) >= 1
    ensures stdout <= written <= stdout + data
    ensures ok ==> written == stdout + data
    ensures (forall i :: !calls.writeFails(i)) ==> ok
  {
    var view := data;
    written := stdout;
    var i := 0;
    while view != []
      invariant written + view == stdout + data && stdout <= written
      decreases |view|
    {
      if calls.writeFails(i) {
        return written, false;
      }
      var n := if calls.takes(i) < |view| then calls.takes(i) else |view|;
      ghost var so := written + view;
      written := written + view[..n];
      view := view[n..];
      assert written + view == so;
      i := i + 1;
    }
    ok := true;
  }

  /**
   The helper's loop, over any reports and with any call raising: the socket has a prefix of stdin
   and stdout a prefix of what was received; short of an exception nothing that was read is
   missing, the socket is shut exactly when stdin has ended, and the loop ends with the socket's stream.
   */
  method Copy(reports: seq<Report>, stdin: seq<seq<Byte>>, socket: Socket, calls: Calls)
    returns (ending: Ending, rest: seq<seq<Byte>>, stdout: seq<Byte>)
    requires socket.Valid() && !socket.shut && Chunks(stdin) && forall i :: calls.takes(i) >= 1
    modifies socket
    ensures old(socket.sent) <= socket.sent <= old(socket.sent) + Concat(stdin)
    ensures stdout <= Concat(old(socket.incoming))
    ensures !ending.Raised? ==>
              && socket.sent + Concat(rest) == old(socket.sent) + Concat(stdin)
              && stdout + Concat(socket.incoming) == Concat(old(socket.incoming))
    ensures socket.shut ==> socket.sent == old(socket.sent) + Concat(stdin)
    ensures ending.Finished? ==> socket.incoming == [] && stdout == Concat(old(socket.incoming))
    ensures ending.Waiting? && SocketReady in reports ==> stdout != []
    ensures (forall i :: !calls.writeFails(i) && !calls.sendFails(i) && !calls.shutFails(i)) ==> !ending.Raised?
  {
    rest, stdout := stdin, [];
    var stdinOpen := true;
    var i := 0;
    while i < |reports|
      invariant 0 <= i <= |reports|
      invariant socket.Valid() && Chunks(rest)
      invariant socket.sent + Concat(rest) == old(socket.sent) + Concat(stdin) && old(socket.sent) <= socket.sent
      invariant stdout + Concat(socket.incoming) == Concat(old(socket.incoming))
      invariant socket.shut <==> !stdinOpen
      invariant !stdinOpen ==> rest == []
      invariant SocketReady in reports[..i] ==> stdout != []
      decreases |reports| - i
    {
      match reports[i] {
        case StdinReady =>
          if stdinOpen {
            var ok := Forward(rest, socket, calls, i);
            if !ok {
              return Raised, rest, stdout;
            }
            if |rest| > 0 {
              rest := rest[1..];
            } else {
              stdinOpen := false;
            }
          }
        case SocketReady =>
          var data := socket.Recv();
          if data == [] {
            return Finished, rest, stdout;
          }
          Follows(stdout, data, Concat(socket.incoming), []);
          var written, ok := WriteOut(data, stdout, calls);
          Follows(stdout, data, Concat(socket.incoming), written);
          stdout := written;
          if !ok {
            return Raised, rest, stdout;
          }
        case Spurious =>
      }
      i := i + 1;
    }
    assert reports[..i] == reports;
    ending := Waiting;
  }

  /** What is read of stdin goes to the socket; its end shuts the socket for sending. */
  method Forward(rest: seq<seq<Byte>>, socket: Socket, calls: Calls, i: nat) returns (ok: bool)
    requires !socket.shut && Chunks(rest)
    modifies socket`sent, socket`shut
    ensures ok && |rest| > 0 ==> socket.sent == old(socket.sent) + rest[0] && !socket.shut
    ensures ok && |rest| == 0 ==> socket.sent == old(socket.sent) && socket.shut
    ensures !ok ==> !socket.shut && old(socket.sent) <= socket.sent <= old(socket.sent) + Concat(rest)
    ensures !calls.sendFails(i) && !calls.shutFails(i) ==> ok
  {
    if |rest| > 0 {
      ghost var before := socket.sent;
      ok := socket.SendAll(rest[0], calls.sendFails(i), calls.accepted(i));
      Follows(before, rest[0], Concat(rest[1..]), socket.sent);
    } else {
      ok := !calls.shutFails(i);
      socket.shut := ok;
    }
  }
}
