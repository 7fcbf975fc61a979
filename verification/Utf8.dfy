/**
 Byte-bounded truncation of captured output. Text is a sequence of Unicode scalar values;
 encoding is sections 3 and 4 of RFC 3629; decoding drops ill-formed bytes, as Python's
 `errors="ignore"` does.
 */
module Utf8 {
  import opened Common

  type Byte = b: nat | b < 256
  type Scalar = c: nat | c < 0xD800 || 0xE000 <= c < 0x110000
  type Text = seq<Scalar>

  function EncodeScalar(c: Scalar): (r: seq<Byte>)
    ensures 1 <= |r| <= 4
  {
    if c < 0x80 then [c]
    else if c < 0x800 then [0xC0 + c / 0x40, 0x80 + c % 0x40]
    else if c < 0x10000 then [0xE0 + c / 0x1000, 0x80 + c / 0x40 % 0x40, 0x80 + c % 0x40]
    else [0xF0 + c / 0x40000, 0x80 + c / 0x1000 % 0x40, 0x80 + c / 0x40 % 0x40, 0x80 + c % 0x40]
  }

  function Encode(text: Text): seq<Byte> {
    if text == [] then [] else EncodeScalar(text[0]) + Encode(text[1..])
  }

  predicate Tail(b: Byte) {
    0x80 <= b < 0xC0
  }

  /** The second byte a leading byte allows; overlong forms, surrogates and values past the last plane are excluded. */
  predicate Second(lead: Byte, b: Byte) {
    if lead == 0xE0 then 0xA0 <= b < 0xC0
    else if lead == 0xED then 0x80 <= b < 0xA0
    else if lead == 0xF0 then 0x90 <= b < 0xC0
    else if lead == 0xF4 then 0x80 <= b < 0x90
    else Tail(b)
  }

  /** The length a leading byte announces; 0 for a byte that cannot lead. */
  function Announced(lead: Byte): (r: nat)
    ensures r <= 4
  {
    if lead < 0x80 then 1
    else if 0xC2 <= lead < 0xE0 then 2
    else if 0xE0 <= lead < 0xF0 then 3
    else if 0xF0 <= lead < 0xF5 then 4
    else 0
  }

  /** How many bytes at the front belong to the sequence that the first byte leads, the first included. */
  function Matching(bytes: seq<Byte>): (r: nat)
    requires bytes != []
    ensures 1 <= r <= |bytes| && (Announced(bytes[0]) > 0 ==> r <= Announced(bytes[0]))
  {
    var n := Announced(bytes[0]);
    if n < 2 || |bytes| < 2 || !Second(bytes[0], bytes[1]) then 1
    else if n < 3 || |bytes| < 3 || !Tail(bytes[2]) then 2
    else if n < 4 || |bytes| < 4 || !Tail(bytes[3]) then 3
    else 4
  }

  /** The scalar value of a whole sequence. */
  function Value(bytes: seq<Byte>): int
    requires bytes != [] && |bytes| == Announced(bytes[0]) == Matching(bytes)
  {
    var a: int := bytes[0];
    if |bytes| == 1 then a
    else
      var b: int := bytes[1];
      if |bytes| == 2 then (a - 0xC0) * 0x40 + (b - 0x80)
      else
        var c: int := bytes[2];
        if |bytes| == 3 then (a - 0xE0) * 0x1000 + (b - 0x80) * 0x40 + (c - 0x80)
        else
          var d: int := bytes[3];
          (a - 0xF0) * 0x40000 + (b - 0x80) * 0x1000 + (c - 0x80) * 0x40 + (d - 0x80)
  }

  lemma ValueIsScalar(bytes: seq<Byte>)
    requires bytes != [] && |bytes| == Announced(bytes[0]) == Matching(bytes)
    ensures var v := Value(bytes); 0 <= v < 0xD800 || 0xE000 <= v < 0x110000
  {
  }

  /** Decodes whole sequences and skips, each time, the bytes that started one in vain. */
  function DecodeIgnore(bytes: seq<Byte>): Text {
    if bytes == [] then []
    else
      var n := Matching(bytes);
      if n == Announced(bytes[0]) then
        assert Matching(bytes[..n]) == n;
        ValueIsScalar(bytes[..n]);
        [Value(bytes[..n])] + DecodeIgnore(bytes[n..])
      else DecodeIgnore(bytes[n..])
  }

  predicate IsTruncated(text: Text, maxBytes: nat) {
    |Encode(text)| > maxBytes
  }

  function LimitText(text: Text, maxBytes: nat): Text {
    var encoded := Encode(text);
    if |encoded| <= maxBytes then text else DecodeIgnore(encoded[..maxBytes])
  }

  // --- Truncation is the longest whole-character prefix ---------------------------------------

  lemma EncodedIsWhole(c: Scalar)
    ensures var e := EncodeScalar(c); Matching(e) == Announced(e[0]) == |e|
  {
  }

  /** The base-64 digits of a number rebuild it. */
  lemma Digits(c: nat)
    ensures c == c / 0x40 * 0x40 + c % 0x40
    ensures c == c / 0x1000 * 0x1000 + c / 0x40 % 0x40 * 0x40 + c % 0x40
    ensures c == c / 0x40000 * 0x40000 + c / 0x1000 % 0x40 * 0x1000 + c / 0x40 % 0x40 * 0x40 + c % 0x40
  {
    var q := c / 0x40;
    var p := q / 0x40;
    assert c / 0x1000 == p;
    assert c / 0x40000 == p / 0x40;
  }

  lemma EncodedValue(c: Scalar)
    requires var e := EncodeScalar(c); Matching(e) == Announced(e[0]) == |e|
    ensures Value(EncodeScalar(c)) == c
  {
    Digits(c);
    hide Matching, Announced;
    if c < 0x80 {
    } else if c < 0x800 {
    } else if c < 0x10000 {
    } else {
    }
  }

  lemma WholeAtFront(e: seq<Byte>, rest: seq<Byte>)
    requires e != [] && Matching(e) == Announced(e[0]) == |e|
    ensures Matching(e + rest) == |e| && (e + rest)[..|e|] == e && (e + rest)[|e|..] == rest
  {
  }

  lemma ScalarRoundTrip(c: Scalar, rest: seq<Byte>)
    ensures DecodeIgnore(EncodeScalar(c) + rest) == [c] + DecodeIgnore(rest)
  {
    var e := EncodeScalar(c);
    EncodedIsWhole(c);
    EncodedValue(c);
    WholeAtFront(e, rest);
    hide Matching, EncodeScalar, Value, Announced;
    assert (e + rest)[0] == e[0];
  }

  /** A cut character leaves nothing. */
  lemma CutScalar(c: Scalar, k: nat)
    requires k < |EncodeScalar(c)|
    ensures DecodeIgnore(EncodeScalar(c)[..k]) == []
  {
    var bytes := EncodeScalar(c)[..k];
    if k > 0 {
      assert Matching(bytes) == k;
      assert bytes[k..] == [];
    }
  }

  /** The longest prefix of whole characters that fits. */
  function Fitting(text: Text, maxBytes: nat): (r: Text)
    ensures r <= text && |Encode(r)| <= maxBytes
  {
    if text == [] || |EncodeScalar(text[0])| > maxBytes then []
    else
      var rest := Fitting(text[1..], maxBytes - |EncodeScalar(text[0])|);
      var r := [text[0]] + rest;
      assert r[1..] == rest;
      r
  }

  lemma {:induction false} TruncationFits(text: Text, maxBytes: nat)
    requires IsTruncated(text, maxBytes)
    ensures DecodeIgnore(Encode(text)[..maxBytes]) == Fitting(text, maxBytes)
  {
    var e := EncodeScalar(text[0]);
    var rest := Encode(text[1..]);
    if |e| > maxBytes {
      assert Encode(text)[..maxBytes] == e[..maxBytes];
      CutScalar(text[0], maxBytes);
    } else {
      assert Encode(text)[..maxBytes] == e + rest[..maxBytes - |e|];
      ScalarRoundTrip(text[0], rest[..maxBytes - |e|]);
      TruncationFits(text[1..], maxBytes - |e|);
    }
  }

  lemma {:induction false} FittingWhole(text: Text, maxBytes: nat)
    requires !IsTruncated(text, maxBytes)
    ensures Fitting(text, maxBytes) == text
  {
    if text != [] {
      FittingWhole(text[1..], maxBytes - |EncodeScalar(text[0])|);
    }
  }

  lemma LimitIsFitting(text: Text, maxBytes: nat)
    ensures LimitText(text, maxBytes) == Fitting(text, maxBytes)
  {
    if IsTruncated(text, maxBytes) {
      TruncationFits(text, maxBytes);
    } else {
      FittingWhole(text, maxBytes);
    }
  }

  lemma {:induction false} EncodePrefixGrows(p: Text, q: Text)
    requires p <= q
    ensures |Encode(p)| <= |Encode(q)|
    ensures |Encode(p)| == |Encode(q)| ==> p == q
  {
    if p != [] {
      EncodePrefixGrows(p[1..], q[1..]);
    }
  }

  lemma {:induction false} FittingIsLongest(text: Text, maxBytes: nat, p: Text)
    requires p <= text && |Encode(p)| <= maxBytes
    ensures p <= Fitting(text, maxBytes)
  {
    hide EncodeScalar;
    if p != [] {
      var left := maxBytes - |EncodeScalar(text[0])|;
      assert p[0] == text[0] && p[1..] <= text[1..];
      assert |Encode(p)| == |EncodeScalar(text[0])| + |Encode(p[1..])|;
      FittingIsLongest(text[1..], left, p[1..]);
      assert Fitting(text, maxBytes) == [text[0]] + Fitting(text[1..], left);
      assert p == [text[0]] + p[1..];
    }
  }

  lemma {:induction false} FittingLosesLittle(text: Text, maxBytes: nat)
    requires IsTruncated(text, maxBytes)
    ensures |Encode(Fitting(text, maxBytes))| + 3 >= maxBytes
  {
    var e := EncodeScalar(text[0]);
    if |e| <= maxBytes {
      FittingLosesLittle(text[1..], maxBytes - |e|);
      assert Fitting(text, maxBytes)[1..] == Fitting(text[1..], maxBytes - |e|);
    }
  }

  /**
   For every text and limit: the result is a prefix of the text that fits, every prefix that
   fits is a prefix of the result, and truncation loses at most three bytes below the limit.
   */
  lemma LimitIsLongestPrefix(text: Text, maxBytes: nat)
    ensures var r := LimitText(text, maxBytes);
            && r <= text && |Encode(r)| <= maxBytes
            && (forall p: Text :: p <= text && |Encode(p)| <= maxBytes ==> p <= r)
            && (IsTruncated(text, maxBytes) ==> |Encode(r)| + 3 >= maxBytes)
  {
    LimitIsFitting(text, maxBytes);
    forall p: Text | p <= text && |Encode(p)| <= maxBytes ensures p <= LimitText(text, maxBytes) {
      FittingIsLongest(text, maxBytes, p);
    }
    if IsTruncated(text, maxBytes) {
      FittingLosesLittle(text, maxBytes);
    }
  }

  /** The text changes exactly when it is reported as truncated, and a second truncation changes nothing. */
  lemma LimitChangesExactlyTruncated(text: Text, maxBytes: nat)
    ensures LimitText(text, maxBytes) != text <==> IsTruncated(text, maxBytes)
    ensures LimitText(LimitText(text, maxBytes), maxBytes) == LimitText(text, maxBytes)
    ensures !IsTruncated(LimitText(text, maxBytes), maxBytes)
  {
    LimitIsLongestPrefix(text, maxBytes);
  }

  /** Decoding undoes encoding. */
  lemma {:induction false} RoundTrip(text: Text)
    ensures DecodeIgnore(Encode(text)) == text
  {
    if text != [] {
      ScalarRoundTrip(text[0], Encode(text[1..]));
      RoundTrip(text[1..]);
    }
  }

  // --- The command executor's use of it ----------------------------------------------------------

  datatype CommandResult = CommandResult(returncode: int, stdout: Text, stderr: Text, timedOut: bool,
    outputTruncated: bool)

  /** The result of a command, completed or (with whatever output was text by then) timed out. */
  function ResultOf(returncode: Option<int>, stdout: Text, stderr: Text, maxBytes: nat): CommandResult {
    CommandResult(if returncode.Some? then returncode.value
      else 124, LimitText(stdout, maxBytes), LimitText(stderr, maxBytes),
                  returncode.None?, IsTruncated(stdout, maxBytes) || IsTruncated(stderr, maxBytes))
  }

  /** The flag is set exactly when one of the two streams lost something. */
  lemma FlagMeansLoss(returncode: Option<int>, stdout: Text, stderr: Text, maxBytes: nat)
    ensures var r := ResultOf(returncode, stdout, stderr, maxBytes);
            r.outputTruncated <==> r.stdout != stdout || r.stderr != stderr
  {
    LimitChangesExactlyTruncated(stdout, maxBytes);
    LimitChangesExactlyTruncated(stderr, maxBytes);
  }
}
