/** How the proxy cuts the `CONNECT` line off a byte stream, and how its client reads the reply line. */
module ConnectHeader {
  import opened Common
  import Text
  import IPv4

  type Byte = b: nat | b < 256

  const NEWLINE: Byte := 10
  const LIMIT: nat := 512
  const REPLY_LIMIT: nat := 1024

  /** The position of the first newline, or the length if there is none. */
  function FirstNewline(s: seq<Byte>): (r: nat)
    ensures r <= |s|
    ensures r < |s| ==> s[r] == NEWLINE
    ensures forall i :: 0 <= i < r ==> s[i] != NEWLINE
  {
    if s == [] || s[0] == NEWLINE then 0 else 1 + FirstNewline(s[1..])
  }

  /** The reading loop has enough. */
  predicate Complete(request: seq<Byte>) {
    NEWLINE in request || |request| >= LIMIT
  }

  // Python's `partition` at the first newline.

  function Line(request: seq<Byte>): seq<Byte> {
    request[..FirstNewline(request)]
  }

  function Remainder(request: seq<Byte>): seq<Byte> {
    var n := FirstNewline(request);
    if n < |request| then request[n + 1..] else []
  }

  // --- What a line asks for -------------------------------------------------------------

  datatype Destination = Destination(host: string, port: int)

  /** `decode("ascii")`. */
  function Ascii(line: seq<Byte>): Option<string> {
    if exists i :: 0 <= i < |line| && line[i] >= 128 then None
    else Some(seq(|line|, i requires 0 <= i < |line| => line[i] as int as char))
  }

  /** Where the proxy connects to for a line, if it accepts the line; `readInt` is Python's `int` of a text. */
  function Destined(line: seq<Byte>, readInt: string -> Option<int>): Option<Destination> {
    var text := Ascii(line);
    if text.None? then None
    else
      var parts := Text.Words(Text.Strip(text.value));
      if |parts| != 3 || parts[0] != "CONNECT" then None
      else
        var address := IPv4.Parse(parts[1]);
        if address.None? || !IPv4.InVehicleNetwork(address.value) then None
        else
          var port := readInt(parts[2]);
          if port.None? then None else Some(Destination(IPv4.Show(address.value), port.value))
  }

  /** The line is three words: `CONNECT`, this host, an address 172.26.x.y or 172.27.x.y, and this port. */
  ghost predicate Names(line: seq<Byte>, readInt: string -> Option<int>, to: Destination) {
    && Ascii(line).Some?
    && var words := Text.Words(Ascii(line).value);
       && |words| == 3 && words[0] == "CONNECT" && words[1] == to.host && readInt(words[2]) == Some(to.port)
       && IPv4.Parse(to.host).Some?
       && var address := IPv4.Parse(to.host).value;
          address.a == 172 && (address.b == 26 || address.b == 27)
  }

  /** The proxy accepts exactly the lines that name a destination, and connects to the one they name. */
  lemma AcceptsWhatIsNamed(line: seq<Byte>, readInt: string -> Option<int>, to: Destination)
    ensures Destined(line, readInt) == Some(to) <==> Names(line, readInt, to)
  {
    hide Text.Words, Text.Strip, IPv4.Parse, IPv4.Show, IPv4.InVehicleNetwork;
    if Ascii(line).Some? {
      Text.WordsOfStrip(Ascii(line).value);
      var words := Text.Words(Ascii(line).value);
      if |words| == 3 && IPv4.Parse(words[1]).Some? {
        IPv4.VehicleNetworkIs(IPv4.Parse(words[1]).value);
        IPv4.ShowUndoesParse(words[1]);
      }
    }
  }

  /** Where the stream is cut: after its first newline within the limit, or at the limit. */
  function Cut(stream: seq<Byte>): (r: nat)
    requires Complete(stream)
    ensures r <= |stream|
  {
    var n := FirstNewline(stream);
    if n < LIMIT then n + 1 else LIMIT
  }

  /** The line before the cut. */
  function Head(stream: seq<Byte>): seq<Byte>
    requires Complete(stream)
  {
    var n := FirstNewline(stream);
    if n < LIMIT then stream[..n] else stream[..LIMIT]
  }

  lemma FirstNewlineOfPrefix(s: seq<Byte>, n: nat)
    requires n <= |s|
    ensures FirstNewline(s[..n]) == if FirstNewline(s) < n then FirstNewline(s) else n
  {
    var p, f := FirstNewline(s[..n]), FirstNewline(s);
    if p < n {
      assert s[p] == NEWLINE;
    }
    if f < n {
      assert s[..n][f] == NEWLINE;
    }
  }

  lemma EnoughWasRead(stream: seq<Byte>, n: nat)
    requires n <= |stream| && n <= LIMIT && Complete(stream[..n])
    ensures Complete(stream)
    ensures FirstNewline(stream) < n || (n == LIMIT && FirstNewline(stream) >= LIMIT)
  {
    hide FirstNewline;
    if NEWLINE in stream[..n] {
      var i :| 0 <= i < n && stream[..n][i] == NEWLINE;
      assert stream[i] == NEWLINE;
    }
  }

  /**
   However much of the stream was read when the loop had enough, the line and what follows it are the
   stream's own.
   */
  lemma RequestIsCutOfStream(stream: seq<Byte>, n: nat)
    requires n <= |stream| && n <= LIMIT && Complete(stream[..n])
    ensures Complete(stream) && Cut(stream) <= n
    ensures Line(stream[..n]) == Head(stream)
    ensures Remainder(stream[..n]) == stream[Cut(stream)..n]
    ensures Remainder(stream[..n]) + stream[n..] == stream[Cut(stream)..]
  {
    FirstNewlineOfPrefix(stream, n);
    EnoughWasRead(stream, n);
    hide FirstNewline, Complete;
    var f := FirstNewline(stream);
    if f < n {
      assert stream[..n][..f] == stream[..f] && stream[..n][f + 1..] == stream[f + 1..n];
    }
    assert stream[Cut(stream)..n] + stream[n..] == stream[Cut(stream)..];
  }

  /**
   The proxy's loop over a client stream that ends after `stream`; `arrived(i)` is how much
   the i-th `recv` has to offer. Whatever the segmentation, it gives up exactly when the stream
   ends before it is complete, and otherwise the line and the bytes to forward are the stream's.
   */
  method ReadRequest(stream: seq<Byte>, arrived: nat -> nat) returns (request: Option<seq<Byte>>)
    ensures request.None? <==> !Complete(stream)
    ensures request.Some? ==>
              && request.value <= stream
              && Line(request.value) == Head(stream)
              && Remainder(request.value) + stream[|request.value|..] == stream[Cut(stream)..]
  {
    var got: seq<Byte> := [];
    var i := 0;
    while NEWLINE !in got && |got| < LIMIT
      invariant |got| <= LIMIT && |got| <= |stream| && got == stream[..|got|]
      decreases |stream| - |got|
    {
      var room := LIMIT - |got|;
      var offered := if arrived(i) < 1 then 1 else arrived(i);
      var wanted := if offered < room then offered else room;
      var left := |stream| - |got|;
      var size := if wanted < left then wanted else left;
      var chunk := stream[|got|..|got| + size];
      if chunk == [] {
        assert got == stream;
        return None;
      }
      got := got + chunk;
      i := i + 1;
    }
    RequestIsCutOfStream(stream, |got|);
    return Some(got);
  }

  /** The reply as the client's `read_line` returns it: up to and with the first newline, at most the limit. */
  function Reply(stream: seq<Byte>): seq<Byte> {
    var n := FirstNewline(stream);
    var m := if n < |stream| then n + 1 else n;
    if m <= REPLY_LIMIT then stream[..m] else stream[..REPLY_LIMIT]
  }

  /** One byte at a time, so that nothing after the newline is taken from the stream. */
  method ReadLine(stream: seq<Byte>) returns (line: seq<Byte>)
    ensures line == Reply(stream)
  {
    line := [];
    while !(line != [] && line[|line| - 1] == NEWLINE) && |line| < REPLY_LIMIT
      invariant |line| <= REPLY_LIMIT && |line| <= |stream| && line == stream[..|line|]
      invariant NEWLINE !in line[..if line == [] then 0 else |line| - 1]
      decreases |stream| - |line|
    {
      if |line| == |stream| {
        break;
      }
      line := line + [stream[|line|]];
    }
    FirstNewlineOfPrefix(stream, |line|);
  }
}
