/** The packet buffer and the SOCKS5 messages (sections 3, 4 and 5 of RFC 1928). */
module Socks5 {
  import opened Bytes

  /** A packet buffer: octets are appended at the end and popped from the front. */
  class Packet {
    var bytes: seq<byte>

    constructor (bytes: seq<byte>)
      ensures this.bytes == bytes
    {
      this.bytes := bytes;
    }

    method AppendInt8(v: int)
      modifies this
      ensures bytes == old(bytes) + [v % 256]
    {
      bytes := bytes + [v % 256];
    }

    method AppendInt16(v: int)
      modifies this
      ensures bytes == old(bytes) + U16(v)
    {
      bytes := bytes + U16(v);
    }

    method Append(data: seq<byte>)
      modifies this
      ensures bytes == old(bytes) + data
    {
      bytes := bytes + data;
    }

    method PopInt8() returns (v: int)
      requires |bytes| > 0
      modifies this
      ensures v == Signed(old(bytes)[0]) && bytes == old(bytes)[1..]
    {
      v := Signed(bytes[0]);
      bytes := bytes[1..];
    }

    /** Pops `n` octets, or reports that fewer are buffered. */
    method Pop(n: int) returns (data: Option<seq<byte>>)
      modifies this
      ensures 0 <= n <= |old(bytes)| ==> data == Some(old(bytes)[..n]) && bytes == old(bytes)[n..]
      ensures !(0 <= n <= |old(bytes)|) ==> data == None && bytes == old(bytes)
    {
      if 0 <= n <= |bytes| {
        data := Some(bytes[..n]);
        bytes := bytes[n..];
      } else {
        data := None;
      }
    }
  }

  const IPV4 := 1
  const IPV6 := 4
  const HOST_NAME := 3
  const CMD_CONNECT := 1
  const METHOD_NO_AUTH: byte := 0
  const METHOD_NOT_ACCEPT: byte := 0xff
  const STATUS_SUCCESS: byte := 0
  const STATUS_FAILED: byte := 1
  const STATUS_CMD_NOT_SUPPORTED: byte := 7

  /**
   * A destination. Socket addresses hold their address and port in network order, as `sockaddr` does.
   * `Unknown` is any other address type: the decoder accepts it and leaves the address blank.
   */
  datatype Address =
    | IPv4(addr: seq<byte>, port: seq<byte>)
    | IPv6(addr: seq<byte>, port: seq<byte>)
    | HostName(name: seq<byte>, number: nat)
    | Unknown(code: int)
  {
    predicate Valid() {
      match this
      case IPv4(a, p) => |a| == 4 && |p| == 2
      case IPv6(a, p) => |a| == 16 && |p| == 2
      case HostName(_, n) => n < 65536
      case Unknown(c) => -128 <= c < 128 && c != IPV4 && c != IPV6 && c != HOST_NAME
    }

    function Type(): int {
      match this
      case IPv4(_, _) => IPV4
      case IPv6(_, _) => IPV6
      case HostName(_, _) => HOST_NAME
      case Unknown(c) => c
    }

    /** The octets both encoders write from the address type to the port. */
    function Bytes(): seq<byte> {
      [Type() % 256] + Fields()
    }

    function Fields(): seq<byte> {
      match this
      case IPv4(a, p) => a + p
      case IPv6(a, p) => a + p
      case HostName(n, p) => [|n| % 256] + (n + U16(p))
      case Unknown(_) => []
    }
  }

  datatype Request = Request(cmd: int, address: Address) {
    predicate Valid() {
      -128 <= cmd < 128 && address.Valid()
    }
  }

  /**
   * What a decoder makes of a buffer. `Overrun` marks the paths on which it pops more octets than the
   * buffer holds: the source does not check, and what it then decodes is not defined by this code.
   */
  datatype Parsed<+T> = Incomplete | Overrun | Parsed(value: T, rest: seq<byte>)

  function Wire(r: Request): seq<byte> {
    [5, r.cmd % 256, 0] + r.address.Bytes()
  }

  /** What `Socks5Request::unpack` makes of a buffer. */
  function ParseRequest(buf: seq<byte>): (p: Parsed<Request>)
    ensures p.Parsed? ==> p.value.Valid()
  {
    if |buf| <= 7 then
      Incomplete
    else
      var cmd, atyp, body := Signed(buf[1]), Signed(buf[3]), buf[4..];
      if atyp == IPV4 then
        if |body| < 6 then Overrun else Parsed(Request(cmd, IPv4(body[..4], body[4..6])), body[6..])
      else if atyp == IPV6 then
        if |body| < 18 then Overrun else Parsed(Request(cmd, IPv6(body[..16], body[16..18])), body[18..])
      else if atyp == HOST_NAME then
        var len, tail := Signed(body[0]), body[1..];
        if SizeBelow(|tail|, len + 2) then Incomplete
        else if len < 0 then Overrun
        else Parsed(Request(cmd, HostName(tail[..len], ReadU16(tail[len..len + 2]))), tail[len + 2..])
      else
        Parsed(Request(cmd, Unknown(atyp)), body)
  }

  /** The tail both encoders write: the address type, then the fields that type has. */
  method PackAddress(packet: Packet, a: Address)
    modifies packet
    ensures packet.bytes == old(packet.bytes) + a.Bytes()
  {
    ghost var was := packet.bytes;
    packet.AppendInt8(a.Type());
    match a {
      case IPv4(addr, port) =>
        packet.Append(addr);
        packet.Append(port);
        ConcatThree(was, [a.Type() % 256], addr, port);
      case IPv6(addr, port) =>
        packet.Append(addr);
        packet.Append(port);
        ConcatThree(was, [a.Type() % 256], addr, port);
      case HostName(name, port) =>
        packet.AppendInt8(|name|);
        packet.Append(name);
        packet.AppendInt16(port);
        ConcatThree(was + [a.Type() % 256], [|name| % 256], name, U16(port));
        ConcatAssociates(was, [a.Type() % 256], a.Fields());
      case Unknown(_) =>
    }
  }

  /** A socket address of type `atyp` and its port, popped from the front, or a shortage. */
  method PopSocketAddress(packet: Packet, atyp: int) returns (a: Option<Address>)
    requires atyp == IPV4 || atyp == IPV6
    modifies packet
    ensures var n, body := if atyp == IPV4 then 4 else 16, old(packet.bytes);
      && (a.None? <==> |body| < n + 2)
      && (a.Some? ==> packet.bytes == body[n + 2..])
      && (a.Some? && atyp == IPV4 ==> a.value == IPv4(body[..n], body[n..n + 2]))
      && (a.Some? && atyp == IPV6 ==> a.value == IPv6(body[..n], body[n..n + 2]))
  {
    ghost var body := packet.bytes;
    var n := if atyp == IPV4 then 4 else 16;
    var addr := packet.Pop(n);
    var port := packet.Pop(2);
    assert |body| >= n + 2 ==> body[n..][..2] == body[n..n + 2] && body[n..][2..] == body[n + 2..];
    if addr.None? || port.None? {
      return None;
    }
    a := Some(if atyp == IPV4 then IPv4(addr.value, port.value) else IPv6(addr.value, port.value));
  }

  /** A host name of `len` octets and its port, popped from the front, or a shortage. */
  method PopHost(packet: Packet, len: int) returns (a: Option<Address>)
    modifies packet
    ensures var body := old(packet.bytes);
      && (a.None? <==> len < 0 || |body| < len + 2)
      && (a.Some? ==> a.value == HostName(body[..len], ReadU16(body[len..len + 2])) && packet.bytes == body[len + 2..])
  {
    ghost var body := packet.bytes;
    var name := packet.Pop(len);
    if name.None? {
      return None;
    }
    var number := packet.Pop(2);
    if number.None? {
      return None;
    }
    assert body[len..][..2] == body[len..len + 2] && body[len..][2..] == body[len + 2..];
    a := Some(HostName(name.value, ReadU16(number.value)));
  }

  lemma ConcatThree(was: seq<byte>, a: seq<byte>, b: seq<byte>, c: seq<byte>)
    ensures was + a + b + c == was + (a + (b + c)) == was + (a + b + c)
  {
    assert a + (b + c) == a + b + c;
  }

  class Socks5Request {
    var valid: bool
    var cmd: int
    var addressType: int
    var address: Address
    var hostName: seq<byte>
    var port: nat

    ghost predicate Invariant()
      reads this
    {
      valid ==> Value().Valid() && Value().address.Type() == addressType
    }

    /** The request the fields stand for; `address` and `hostName` are each used by their own types only. */
    function Value(): Request
      reads this
    {
      Request(cmd,
              if addressType == HOST_NAME then HostName(hostName, port)
              else if addressType == IPV4 || addressType == IPV6 then address
              else Unknown(addressType))
    }

    constructor Blank()
      ensures !valid && Invariant()
    {
      valid, cmd, addressType, address, hostName, port := false, 0, 0, Unknown(0), [], 0;
    }

    constructor ToAddress(cmd: int, address: Address)
      requires -128 <= cmd < 128 && address.Valid() && (address.IPv4? || address.IPv6?)
      ensures valid && Invariant() && Value() == Request(cmd, address)
    {
      valid := true;
      this.cmd := cmd;
      addressType := if address.IPv6? then IPV6 else IPV4;
      this.address := address;
      hostName, port := [], 0;
    }

    constructor ToHost(cmd: int, host: seq<byte>, port: nat)
      requires -128 <= cmd < 128 && port < 65536
      ensures valid && Invariant() && Value() == Request(cmd, HostName(host, port))
    {
      valid := true;
      this.cmd := cmd;
      addressType := HOST_NAME;
      address := Unknown(0);
      hostName, this.port := host, port;
    }

    method Pack() returns (packet: Packet)
      requires Invariant()
      ensures fresh(packet)
      ensures packet.bytes == if valid then Wire(Value()) else [0]
    {
      packet := new Packet([]);
      if valid {
        packet.AppendInt8(5);
        packet.AppendInt8(cmd);
        packet.AppendInt8(0);
        assert packet.bytes == [5, cmd % 256, 0];
        PackAddress(packet, Value().address);
      } else {
        packet.AppendInt8(0);
      }
    }

    /** `overrun` tells that a pop ran past the end; the source reports success there too. */
    method Unpack(packet: Packet) returns (ok: bool, overrun: bool)
      modifies this, packet
      ensures var p := ParseRequest(old(packet.bytes));
        && ok == !p.Incomplete?
        && overrun == p.Overrun?
        && (p.Parsed? ==> valid && Invariant() && Value() == p.value && packet.bytes == p.rest)
      ensures var was := old(packet.bytes);
        !ok ==>
          && valid == old(valid) && address == old(address) && hostName == old(hostName) && port == old(port)
          && (|was| <= 7 ==> cmd == old(cmd) && addressType == old(addressType) && packet.bytes == was)
          && (|was| > 7 ==> cmd == Signed(was[1]) && addressType == HOST_NAME && packet.bytes == was[5..])
    {
      ok, overrun := false, false;
      if |packet.bytes| <= 7 {
        return;
      }
      ghost var buf := packet.bytes;
      var _ := packet.PopInt8();
      cmd := packet.PopInt8();
      var _ := packet.PopInt8();
      addressType := packet.PopInt8();
      assert packet.bytes == buf[4..] && cmd == Signed(buf[1]) && addressType == Signed(buf[3]);
      if addressType == IPV4 || addressType == IPV6 {
        var a := PopSocketAddress(packet, addressType);
        if a.None? {
          return true, true;
        }
        address := a.value;
      } else if addressType == HOST_NAME {
        var len := packet.PopInt8();
        assert packet.bytes == buf[4..][1..];
        if SizeBelow(|packet.bytes|, len + 2) {
          return;
        }
        var host := PopHost(packet, len);
        if host.None? {
          return true, true;
        }
        hostName, port := host.value.name, host.value.number;
      }
      valid := true;
      return true, false;
    }
  }

  lemma SocketRequestRoundTrip(r: Request, suffix: seq<byte>)
    requires r.Valid() && (r.address.IPv4? || r.address.IPv6?)
    ensures ParseRequest(Wire(r) + suffix) == Parsed(r, suffix)
  {
    var buf := Wire(r) + suffix;
    assert buf[4..] == r.address.addr + r.address.port + suffix;
    var n := |r.address.addr|;
    assert buf[4..][..n] == r.address.addr && buf[4..][n..n + 2] == r.address.port && buf[4..][n + 2..] == suffix;
  }

  lemma HostTail(name: seq<byte>, port: nat, suffix: seq<byte>)
    requires port < 65536
    ensures var tail, n := name + U16(port) + suffix, |name|;
      tail[..n] == name && ReadU16(tail[n..n + 2]) == port && tail[n + 2..] == suffix
  {
    var tail, n := name + U16(port) + suffix, |name|;
    assert tail[n..n + 2] == U16(port);
    U16RoundTrip(port);
  }

  /** The encoding of a host name and what follows it, from the front. */
  lemma HostLayout(name: seq<byte>, port: nat, suffix: seq<byte>)
    requires port < 65536
    ensures HostName(name, port).Bytes() + suffix == [HOST_NAME] + ([|name| % 256] + (name + U16(port) + suffix))
  {
    ConcatAssociates([HOST_NAME], HostName(name, port).Fields(), suffix);
    ConcatAssociates([|name| % 256], name + U16(port), suffix);
  }

  /** What the decoder makes of a host name request, by the length octet it finds. */
  lemma ParseHostRequest(front: seq<byte>, len: byte, tail: seq<byte>)
    requires |front| == 4 && front[3] == HOST_NAME
    ensures ParseRequest(front + ([len] + tail)) ==
      if |tail| <= 2 || SizeBelow(|tail|, Signed(len) + 2) then Incomplete
      else if len >= 128 then Overrun
      else Parsed(Request(Signed(front[1]), HostName(tail[..len], ReadU16(tail[len..len + 2]))), tail[len + 2..])
  {
    var buf := front + ([len] + tail);
    assert buf[4..] == [len] + tail && buf[4..][1..] == tail;
  }

  lemma HostWireLayout(r: Request, suffix: seq<byte>) returns (front: seq<byte>)
    requires r.Valid() && r.address.HostName?
    ensures |front| == 4 && Signed(front[1]) == r.cmd && front[3] == HOST_NAME
    ensures var HostName(name, port) := r.address;
      Wire(r) + suffix == front + ([|name| % 256] + (name + U16(port) + suffix))
  {
    var HostName(name, port) := r.address;
    var start := [5, r.cmd % 256, 0];
    front := start + [HOST_NAME];
    HostLayout(name, port, suffix);
    ConcatAssociates(start, r.address.Bytes(), suffix);
    ConcatAssociates(start, [HOST_NAME], [|name| % 256] + (name + U16(port) + suffix));
  }

  lemma HostParses(front: seq<byte>, name: seq<byte>, port: nat, suffix: seq<byte>)
    requires |front| == 4 && front[3] == HOST_NAME && port < 65536
    ensures ParseRequest(front + ([|name| % 256] + (name + U16(port) + suffix)))
         == Parsed(Request(Signed(front[1]), HostName(name, port)), suffix)
       <==> |name| <= 127 && |name| + |suffix| > 0
  {
    var tail := name + U16(port) + suffix;
    ParseHostRequest(front, |name| % 256, tail);
    HostTail(name, port, suffix);
  }

  lemma HostRequestRoundTrip(r: Request, suffix: seq<byte>)
    requires r.Valid() && r.address.HostName?
    ensures var n := |r.address.name|;
      ParseRequest(Wire(r) + suffix) == Parsed(r, suffix) <==> n <= 127 && n + |suffix| > 0
  {
    var front := HostWireLayout(r, suffix);
    HostParses(front, r.address.name, r.address.number, suffix);
  }

  /**
   * Encoding and decoding are inverse, and unread octets stay unread, for exactly these requests: a host
   * name takes at most 127 octets (its length is read back as a signed octet) and the decoder sees at
   * least eight octets.
   */
  lemma RequestRoundTrip(r: Request, suffix: seq<byte>)
    requires r.Valid()
    ensures ParseRequest(Wire(r) + suffix) == Parsed(r, suffix)
       <==> (r.address.HostName? ==> |r.address.name| <= 127) && |Wire(r) + suffix| > 7
  {
    if r.address.HostName? {
      HostRequestRoundTrip(r, suffix);
    } else if r.address.Unknown? {
      assert (Wire(r) + suffix)[4..] == suffix;
    } else {
      SocketRequestRoundTrip(r, suffix);
    }
  }

  /** A body that splits into its fields is the fields put together. */
  lemma Rejoin(body: seq<byte>, i: nat, j: nat)
    requires i <= j <= |body|
    ensures body == body[..i] + body[i..j] + body[j..]
  {
  }

  /** A host name found in a body is its length octet, the name and the port. */
  lemma HostFields(body: seq<byte>, n: nat)
    requires body != [] && n == body[0] && n + 2 <= |body[1..]|
    ensures var tail := body[1..];
      body == HostName(tail[..n], ReadU16(tail[n..n + 2])).Fields() + tail[n + 2..]
  {
    var tail := body[1..];
    ReadU16RoundTrip(tail[n..n + 2]);
    Rejoin(tail, n, n + 2);
    assert body == [body[0]] + tail;
    ConcatAssociates([body[0]], tail[..n] + tail[n..n + 2], tail[n + 2..]);
  }

  /** The fields of a decoded request, put together again. */
  lemma ParsedFields(buf: seq<byte>)
    requires ParseRequest(buf).Parsed?
    ensures var Parsed(r, rest) := ParseRequest(buf);
      buf[4..] == r.address.Fields() + rest
  {
    var Parsed(r, rest) := ParseRequest(buf);
    var body := buf[4..];
    if r.address.HostName? {
      HostFields(body, Signed(body[0]));
    } else if r.address.Unknown? {
      assert [] + rest == rest;
    } else {
      var n := |r.address.addr|;
      Rejoin(body, n, n + 2);
    }
  }

  /** The command and the address type are those of their octets. */
  lemma ParsedCodes(buf: seq<byte>)
    requires ParseRequest(buf).Parsed?
    ensures var Parsed(r, rest) := ParseRequest(buf);
      buf[1] == r.cmd % 256 && buf[3] == r.address.Type() % 256 && |rest| < |buf| - 3
  {
  }

  /** Every decoded request stands at the front of the buffer it was decoded from. */
  lemma ParsedIsPrefix(buf: seq<byte>)
    requires ParseRequest(buf).Parsed?
    ensures var Parsed(r, rest) := ParseRequest(buf);
      && |rest| < |buf| - 3
      && buf[3..] == r.address.Bytes() + rest
      && buf[1] == r.cmd % 256
  {
    var Parsed(r, rest) := ParseRequest(buf);
    ParsedCodes(buf);
    ParsedFields(buf);
    assert buf[3..] == [buf[3]] + buf[4..];
    ConcatAssociates([buf[3]], r.address.Fields(), rest);
  }

  /** What `Socks5MethodSelectionMessage::unpack` makes of a buffer. Method codes are octets here. */
  function ParseMethods(buf: seq<byte>): Parsed<seq<byte>> {
    if |buf| < 3 then Incomplete
    else
      var n, tail := Signed(buf[1]), buf[2..];
      if SizeBelow(|tail|, n) then Incomplete else Parsed(tail[..n], tail[n..])
  }

  class Socks5MethodSelectionMessage {
    var methods: seq<byte>

    constructor ()
      ensures methods == []
    {
      methods := [];
    }

    method Unpack(packet: Packet) returns (ok: bool)
      modifies this, packet
      ensures var p := ParseMethods(old(packet.bytes));
        && ok == p.Parsed?
        && (ok ==> methods == p.value && packet.bytes == p.rest)
        && (!ok ==> methods == old(methods))
    {
      if |packet.bytes| < 3 {
        return false;
      }
      ghost var buf := packet.bytes;
      var _ := packet.PopInt8();
      var methodNum := packet.PopInt8();
      assert packet.bytes == buf[2..];
      if SizeBelow(|packet.bytes|, methodNum) {
        return false;
      }
      methods := packet.bytes[..methodNum];
      var _ := packet.Pop(methodNum);
      return true;
    }
  }

  /**
   * The greeting of section 3 of RFC 1928 decodes, leaving what follows unread, exactly when it lists at most
   * 127 methods and, with what follows, is three octets long.
   */
  lemma GreetingRoundTrip(methods: seq<byte>, suffix: seq<byte>)
    requires |methods| < 256
    ensures var message := [5, |methods|] + methods;
      ParseMethods(message + suffix) == Parsed(methods, suffix) <==> |methods| <= 127 && |message + suffix| >= 3
  {
    var buf := [5, |methods|] + methods + suffix;
    assert buf[2..] == methods + suffix;
    assert buf[2..][..|methods|] == methods && buf[2..][|methods|..] == suffix;
  }
}
