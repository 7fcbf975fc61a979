/** Dotted-decimal IPv4 addresses and the network the vehicles live in. */
module IPv4 {
  import opened Common

  predicate Digit(c: char) {
    '0' <= c <= '9'
  }

  function DigitValue(c: char): (d: nat)
    requires Digit(c)
    ensures d <= 9
  {
    c as int - '0' as int
  }

  function DigitChar(d: nat): (c: char)
    requires d <= 9
    ensures Digit(c) && DigitValue(c) == d
  {
    ('0' as int + d) as char
  }

  /** One to three ASCII digits, no leading zero, at most 255. */
  function ParseOctet(s: string): (r: Option<nat>)
    ensures r.Some? ==> r.value <= 255
  {
    if !(1 <= |s| <= 3) || exists i :: 0 <= i < |s| && !Digit(s[i]) then None
    else if |s| > 1 && s[0] == '0' then None
    else
      var n := if |s| == 1 then DigitValue(s[0])
               else if |s| == 2 then DigitValue(s[0]) * 10 + DigitValue(s[1])
               else DigitValue(s[0]) * 100 + DigitValue(s[1]) * 10 + DigitValue(s[2]);
      if n <= 255 then Some(n) else None
  }

  function ShowOctet(n: nat): string
    requires n <= 255
  {
    if n < 10 then [DigitChar(n)]
    else if n < 100 then [DigitChar(n / 10), DigitChar(n % 10)]
    else [DigitChar(n / 100), DigitChar(n / 10 % 10), DigitChar(n % 10)]
  }

  lemma DigitsOf(a: nat, b: nat, c: nat)
    requires a <= 9 && b <= 9 && c <= 9
    ensures (a * 10 + b) / 10 == a && (a * 10 + b) % 10 == b
    ensures (a * 100 + b * 10 + c) / 100 == a && (a * 100 + b * 10 + c) / 10 == a * 10 + b
            && (a * 100 + b * 10 + c) % 10 == c
  {
  }

  /** Reading and showing an octet are inverse to each other: there is one spelling for each value. */
  lemma OctetRoundTrip(s: string, n: nat)
    requires n <= 255
    ensures ParseOctet(s) == Some(n) <==> s == ShowOctet(n)
  {
    hide ParseOctet, ShowOctet;
    if ParseOctet(s) == Some(n) {
      OctetIsShown(s, n);
    }
    OctetIsRead(n);
  }

  lemma OctetIsRead(n: nat)
    requires n <= 255
    ensures ParseOctet(ShowOctet(n)) == Some(n)
  {
    DigitsOf(n / 100, n / 10 % 10, n % 10);
    if n >= 100 {
      assert n / 100 * 100 + n / 10 % 10 * 10 + n % 10 == n;
    }
  }

  lemma OctetIsShown(s: string, n: nat)
    requires n <= 255 && ParseOctet(s) == Some(n)
    ensures s == ShowOctet(n)
  {
    if |s| == 2 {
      DigitsOf(DigitValue(s[0]), DigitValue(s[1]), 0);
    } else if |s| == 3 {
      DigitsOf(DigitValue(s[0]), DigitValue(s[1]), DigitValue(s[2]));
    }
    assert forall i :: 0 <= i < |s| ==> s[i] == DigitChar(DigitValue(s[i]));
  }

  /** `s.split(c)`. */
  function Split(s: string, c: char): (parts: seq<string>)
    ensures parts != []
  {
    if s == "" then [""]
    else
      var rest := Split(s[1..], c);
      if s[0] == c then [""] + rest else [[s[0]] + rest[0]] + rest[1..]
  }

  function JoinedBy(parts: seq<string>, c: char): string
    requires parts != []
  {
    if |parts| == 1 then parts[0] else parts[0] + [c] + JoinedBy(parts[1..], c)
  }

  lemma {:induction false} JoinUndoesSplit(s: string, c: char)
    ensures JoinedBy(Split(s, c), c) == s
  {
    if s != "" {
      JoinUndoesSplit(s[1..], c);
      var rest := Split(s[1..], c);
      if s[0] == c {
        assert ([""] + rest)[1..] == rest;
      } else {
        assert ([[s[0]] + rest[0]] + rest[1..])[1..] == rest[1..];
      }
    }
  }

  lemma {:induction false} SplitUndoesJoin(parts: seq<string>, c: char)
    requires parts != [] && forall part :: part in parts ==> c !in part
    ensures Split(JoinedBy(parts, c), c) == parts
    decreases |parts|, |parts[0]|
  {
    var whole := JoinedBy(parts, c);
    if parts[0] == "" {
      if |parts| > 1 {
        assert whole == [c] + JoinedBy(parts[1..], c);
        SplitUndoesJoin(parts[1..], c);
      }
    } else {
      var head := parts[0][0];
      var shorter := [parts[0][1..]] + parts[1..];
      assert head in parts[0] && head != c;
      assert shorter[1..] == parts[1..];
      assert whole == [head] + JoinedBy(shorter, c);
      assert c !in parts[0] && c !in parts[0][1..];
      assert forall i :: 1 <= i < |shorter| ==> shorter[i] == parts[i] && shorter[i] in parts;
      SplitUndoesJoin(shorter, c);
      assert whole[1..] == JoinedBy(shorter, c);
      assert [head] + parts[0][1..] == parts[0];
      assert [parts[0]] + parts[1..] == parts;
    }
  }

  datatype Address = Address(a: nat, b: nat, c: nat, d: nat)

  predicate Octets(address: Address) {
    address.a <= 255 && address.b <= 255 && address.c <= 255 && address.d <= 255
  }

  function Parse(s: string): (r: Option<Address>)
    ensures r.Some? ==> Octets(r.value)
  {
    var parts := Split(s, '.');
    if |parts| != 4 then None
    else
      match (ParseOctet(parts[0]), ParseOctet(parts[1]), ParseOctet(parts[2]), ParseOctet(parts[3]))
      case (Some(a), Some(b), Some(c), Some(d)) => Some(Address(a, b, c, d))
      case (_, _, _, _) => None
  }

  function Show(address: Address): string
    requires Octets(address)
  {
    JoinedBy([ShowOctet(address.a), ShowOctet(address.b), ShowOctet(address.c), ShowOctet(address.d)], '.')
  }

  /** Showing an address that was read gives the text that was read. */
  lemma ShowUndoesParse(s: string)
    requires Parse(s).Some?
    ensures Show(Parse(s).value) == s
  {
    var parts, address := Split(s, '.'), Parse(s).value;
    JoinUndoesSplit(s, '.');
    OctetRoundTrip(parts[0], address.a);
    OctetRoundTrip(parts[1], address.b);
    OctetRoundTrip(parts[2], address.c);
    OctetRoundTrip(parts[3], address.d);
    assert parts == [ShowOctet(address.a), ShowOctet(address.b), ShowOctet(address.c), ShowOctet(address.d)];
  }

  /** The address as a 32-bit number. */
  function Number(address: Address): nat {
    ((address.a * 256 + address.b) * 256 + address.c) * 256 + address.d
  }

  /** Membership in 172.26.0.0/15: the upper fifteen of the thirty-two bits agree. */
  predicate InVehicleNetwork(address: Address) {
    Number(address) / 0x2_0000 == Number(Address(172, 26, 0, 0)) / 0x2_0000
  }

  lemma VehicleNetworkIs(address: Address)
    requires Octets(address)
    ensures InVehicleNetwork(address) <==> address.a == 172 && (address.b == 26 || address.b == 27)
  {
    hide ParseOctet;
    var low := address.c * 256 + address.d;
    assert Number(address) == (address.a * 256 + address.b) * 0x1_0000 + low;
    assert 0 <= low < 0x1_0000;
  }
}
