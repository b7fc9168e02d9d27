/** The messages octet by octet, as section 5 of RFC 1928 and the Shadowsocks header lay them out. */
module WireForms {
  import opened Bytes
  import opened Socks5
  import opened RelayHeader

  /** The command an octet stands for: an `int8_t`. */
  function Command(octet: byte): int {
    if octet <= 127 then octet else octet - 256
  }

  /** A request's front: version and reserved octet are not looked at. */
  lemma RequestFront(v: byte, c: byte, r: byte, atyp: byte, body: seq<byte>)
    requires |body| >= 4
    ensures var buf := [v, c, r, atyp] + body;
      && |buf| > 7 && buf[1] == c && buf[3] == atyp && buf[4..] == body && Signed(c) == Command(c)
      && (atyp != 1 && atyp != 3 && atyp != 4 ==>
            ParseRequest(buf) == Parsed(Request(Command(c), Unknown(Command(atyp))), body))
  {
  }

  lemma SocketBody(a: seq<byte>, p: seq<byte>, rest: seq<byte>)
    requires |p| == 2
    ensures var n, body := |a|, a + p + rest; body[..n] == a && body[n..n + 2] == p && body[n + 2..] == rest
  {
  }

  /** A request for an IPv4 address: type 1, four octets and a port. */
  lemma IPv4Request(v: byte, c: byte, r: byte, a: seq<byte>, p: seq<byte>, rest: seq<byte>)
    requires |a| == 4 && |p| == 2
    ensures ParseRequest([v, c, r, 1] + (a + p + rest)) == Parsed(Request(Command(c), IPv4(a, p)), rest)
  {
    RequestFront(v, c, r, 1, a + p + rest);
    SocketBody(a, p, rest);
  }

  /** A request for an IPv6 address: type 4, sixteen octets and a port. */
  lemma IPv6Request(v: byte, c: byte, r: byte, a: seq<byte>, p: seq<byte>, rest: seq<byte>)
    requires |a| == 16 && |p| == 2
    ensures ParseRequest([v, c, r, 4] + (a + p + rest)) == Parsed(Request(Command(c), IPv6(a, p)), rest)
  {
    RequestFront(v, c, r, 4, a + p + rest);
    SocketBody(a, p, rest);
  }

  lemma NameBody(name: seq<byte>, port: nat, rest: seq<byte>)
    requires port < 65536
    ensures var tail := name + [port / 256, port % 256] + rest;
      && tail[..|name|] == name && tail[|name| + 2..] == rest
      && ReadU16(tail[|name|..|name| + 2]) == port && |tail| == |name| + 2 + |rest|
  {
    var tail := name + [port / 256, port % 256] + rest;
    assert tail[|name|..|name| + 2] == [port / 256, port % 256];
  }

  /** A request for a host: type 3, the name's length, the name and a port, high octet first. */
  lemma HostRequest(v: byte, c: byte, r: byte, name: seq<byte>, port: nat, rest: seq<byte>)
    requires 1 <= |name| <= 127 && port < 65536
    ensures ParseRequest([v, c, r, 3] + ([|name|] + (name + [port / 256, port % 256] + rest)))
         == Parsed(Request(Command(c), HostName(name, port)), rest)
  {
    var tail := name + [port / 256, port % 256] + rest;
    NameBody(name, port, rest);
    RequestFront(v, c, r, 3, [|name|] + tail);
    assert ([|name|] + tail)[1..] == tail;
  }

  /** What has arrived of a socket address is enough, or is decoded past its end. */
  lemma SocketRequestExactly(buf: seq<byte>)
    requires |buf| > 7 && buf[3] in {1, 4}
    ensures var n := if buf[3] == 1 then 4 else 16;
      && (|buf| < n + 6 <==> ParseRequest(buf) == Overrun)
      && (|buf| >= n + 6 ==>
            && ParseRequest(buf).Parsed? && ParseRequest(buf).rest == buf[n + 6..]
            && var a := ParseRequest(buf).value.address;
               a == if n == 4 then IPv4(buf[4..8], buf[8..10]) else IPv6(buf[4..20], buf[20..22]))
  {
    var n, body := if buf[3] == 1 then 4 else 16, buf[4..];
    if |buf| >= n + 6 {
      assert body[..n] == buf[4..n + 4] && body[n..n + 2] == buf[n + 4..n + 6] && body[n + 2..] == buf[n + 6..];
    }
  }

  /** What has arrived of a host name is enough, is waited for, or, by a length of -1 or -2, is decoded wrongly. */
  lemma HostRequestExactly(buf: seq<byte>)
    requires |buf| > 7 && buf[3] == 3
    ensures ParseRequest(buf).Incomplete? <==> 128 <= buf[4] < 254 || (buf[4] < 128 && |buf| < 7 + buf[4])
    ensures ParseRequest(buf).Overrun? <==> buf[4] >= 254
    ensures ParseRequest(buf).Parsed? ==>
      var n: int := buf[4];
      && n < 128 && 7 + n <= |buf| && ParseRequest(buf).rest == buf[7 + n..]
      && var a, high: int, low: int := ParseRequest(buf).value.address, buf[5 + n], buf[6 + n];
         a == HostName(buf[5..5 + n], 256 * high + low)
  {
    var tail, n := buf[4..][1..], buf[4];
    assert tail == buf[5..];
    if n < 128 && |buf| >= 7 + n {
      var high: nat, low: nat := buf[5 + n], buf[6 + n];
      assert tail[n..n + 2] == [buf[5 + n], buf[6 + n]];
      assert ReadU16([buf[5 + n], buf[6 + n]]) == 256 * high + low;
    }
  }

  // The header sent upstream.

  lemma SocketHeader(a: seq<byte>, p: seq<byte>, rest: seq<byte>)
    requires |p| == 2
    ensures |a| == 4 ==> ParseHeader([1] + (a + p + rest)) == Parsed(IPv4(a, p), rest)
    ensures |a| == 16 ==> ParseHeader([4] + (a + p + rest)) == Parsed(IPv6(a, p), rest)
  {
    var body := a + p + rest;
    SocketBody(a, p, rest);
    assert ([1] + body)[1..] == body && ([4] + body)[1..] == body;
  }

  lemma HostHeader(name: seq<byte>, port: nat, rest: seq<byte>)
    requires |name| <= 127 && port < 65536
    ensures ParseHeader([3] + ([|name|] + (name + [port / 256, port % 256] + rest)))
         == Parsed(HostName(name, port), rest)
  {
    var tail := name + [port / 256, port % 256] + rest;
    NameBody(name, port, rest);
    assert ([3] + ([|name|] + tail))[1..] == [|name|] + tail && ([|name|] + tail)[1..] == tail;
  }

  /** A type octet other than those is all that is read, and nothing at all overruns. */
  lemma OtherHeader(atyp: byte, rest: seq<byte>)
    requires atyp != 1 && atyp != 3 && atyp != 4
    ensures ParseHeader([atyp] + rest) == Parsed(Unknown(Command(atyp)), rest)
    ensures ParseHeader([]) == Overrun
  {
    assert ([atyp] + rest)[1..] == rest;
  }

  /** The header decoder never waits, and decodes past the end exactly what is shorter than its type or length says. */
  lemma HeaderExactly(buf: seq<byte>)
    ensures !ParseHeader(buf).Incomplete?
    ensures ParseHeader(buf).Overrun? <==>
      || |buf| == 0
      || (buf[0] == 1 && |buf| < 7)
      || (buf[0] == 4 && |buf| < 19)
      || (buf[0] == 3 && (|buf| < 2 || buf[1] >= 128 || |buf| < 4 + buf[1]))
  {
  }

  /** A greeting is read whatever its version octet is, when as many methods arrived as its signed count says. */
  lemma GreetingExactly(buf: seq<byte>)
    ensures ParseMethods(buf) ==
      if |buf| >= 3 && buf[1] <= 127 && |buf| >= 2 + buf[1] then
        Parsed(buf[2..2 + buf[1] as int], buf[2 + buf[1] as int..])
      else Incomplete
  {
    if |buf| >= 3 && buf[1] <= 127 && |buf| >= 2 + buf[1] {
      assert buf[2..][..buf[1]] == buf[2..2 + buf[1] as int] && buf[2..][buf[1]..] == buf[2 + buf[1] as int..];
    }
  }

  /** What both encoders write for a destination; a name's length loses all but its low eight bits. */
  lemma WrittenAddress(a: Address)
    requires a.Valid()
    ensures match a
      case IPv4(addr, port) => a.Bytes() == [1] + addr + port
      case IPv6(addr, port) => a.Bytes() == [4] + addr + port
      case HostName(name, number) => a.Bytes() == [3, |name| % 256] + name + [number / 256, number % 256]
      case Unknown(code) => a.Bytes() == [if code < 0 then code + 256 else code]
  {
    match a {
      case HostName(name, number) =>
        assert [3] + [|name| % 256] == [3, |name| % 256];
        ConcatAssociates([3], [|name| % 256], name + U16(number));
        ConcatAssociates([3, |name| % 256], name, U16(number));
      case IPv4(addr, port) => ConcatAssociates([1], addr, port);
      case IPv6(addr, port) => ConcatAssociates([4], addr, port);
      case Unknown(_) =>
    }
  }

  /** What the request encoder writes before it. */
  lemma WrittenRequest(r: Request)
    requires r.Valid()
    ensures Wire(r) == [5, if r.cmd < 0 then r.cmd + 256 else r.cmd, 0] + r.address.Bytes()
  {
  }
}
