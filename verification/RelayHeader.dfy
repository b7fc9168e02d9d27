/** The Shadowsocks address header, and its relation to the SOCKS5 request it is built from. */
module RelayHeader {
  import opened Bytes
  import opened Socks5

  /** What `SSTCPRelayRequest::unpack` makes of a buffer: no length is checked, so every shortage overruns. */
  function ParseHeader(buf: seq<byte>): Parsed<Address> {
    if buf == [] then Overrun
    else
      var atyp, body := Signed(buf[0]), buf[1..];
      if atyp == IPV4 then
        if |body| < 6 then Overrun else Parsed(IPv4(body[..4], body[4..6]), body[6..])
      else if atyp == IPV6 then
        if |body| < 18 then Overrun else Parsed(IPv6(body[..16], body[16..18]), body[18..])
      else if atyp == HOST_NAME then
        if body == [] then Overrun
        else
          var len, tail := Signed(body[0]), body[1..];
          if len < 0 || |tail| < len + 2 then Overrun
          else Parsed(HostName(tail[..len], ReadU16(tail[len..len + 2])), tail[len + 2..])
      else
        Parsed(Unknown(atyp), body)
  }

  class SSTCPRelayRequest {
    var valid: bool
    var addressType: int
    var address: Address
    var hostName: seq<byte>
    var port: nat

    ghost predicate Invariant()
      reads this
    {
      valid ==> Value().Valid() && Value().Type() == addressType
    }

    function Value(): Address
      reads this
    {
      if addressType == HOST_NAME then HostName(hostName, port)
      else if addressType == IPV4 || addressType == IPV6 then address
      else Unknown(addressType)
    }

    constructor Blank()
      ensures !valid && Invariant()
    {
      valid, addressType, address, hostName, port := false, 0, Unknown(0), [], 0;
    }

    constructor ToAddress(address: Address)
      requires address.Valid() && (address.IPv4? || address.IPv6?)
      ensures valid && Invariant() && Value() == address
    {
      valid := true;
      addressType := if address.IPv6? then IPV6 else IPV4;
      this.address := address;
      hostName, port := [], 0;
    }

    constructor ToHost(host: seq<byte>, port: nat)
      requires port < 65536
      ensures valid && Invariant() && Value() == HostName(host, port)
    {
      valid := true;
      addressType := HOST_NAME;
      address := Unknown(0);
      hostName, this.port := host, port;
    }

    method Pack() returns (packet: Packet)
      requires Invariant()
      ensures fresh(packet)
      ensures packet.bytes == if valid then Value().Bytes() else [0]
    {
      packet := new Packet([]);
      if valid {
        PackAddress(packet, Value());
      } else {
        packet.AppendInt8(0);
      }
    }

    /** `overrun` tells that a pop ran past the end; the source reports success there too. */
    method Unpack(packet: Packet) returns (overrun: bool)
      modifies this, packet
      ensures var p := ParseHeader(old(packet.bytes));
        && overrun == p.Overrun?
        && (p.Parsed? ==> valid && Invariant() && Value() == p.value && packet.bytes == p.rest)
    {
      if packet.bytes == [] {
        return true;
      }
      addressType := packet.PopInt8();
      if addressType == IPV4 || addressType == IPV6 {
        var a := PopSocketAddress(packet, addressType);
        if a.None? {
          return true;
        }
        address := a.value;
      } else if addressType == HOST_NAME {
        if packet.bytes == [] {
          return true;
        }
        var len := packet.PopInt8();
        var host := PopHost(packet, len);
        if host.None? {
          return true;
        }
        hostName, port := host.value.name, host.value.number;
      }
      valid := true;
      return false;
    }
  }

  /** What the decoder makes of a host name header, by the length octet it finds. */
  lemma ParseHostHeader(len: byte, tail: seq<byte>)
    ensures ParseHeader([HOST_NAME] + ([len] + tail)) ==
      if len >= 128 || |tail| < len + 2 then Overrun
      else Parsed(HostName(tail[..len], ReadU16(tail[len..len + 2])), tail[len + 2..])
  {
    var buf := [HOST_NAME] + ([len] + tail);
    assert buf[1..] == [len] + tail && buf[1..][1..] == tail;
  }

  lemma ShortHostHeader(name: seq<byte>, port: nat, suffix: seq<byte>)
    requires port < 65536 && |name| <= 127
    ensures ParseHeader([HOST_NAME] + ([|name| % 256] + (name + U16(port) + suffix)))
         == Parsed(HostName(name, port), suffix)
  {
    var len: byte, tail := |name|, name + U16(port) + suffix;
    ParseHostHeader(len, tail);
    HostTail(name, port, suffix);
    assert |name| % 256 == len && |tail| >= len + 2;
  }

  /** A length octet that lost its high bits, or reads as negative, gives another name or none. */
  lemma LongHostHeader(name: seq<byte>, port: nat, suffix: seq<byte>)
    requires port < 65536 && |name| > 127
    ensures ParseHeader([HOST_NAME] + ([|name| % 256] + (name + U16(port) + suffix)))
         != Parsed(HostName(name, port), suffix)
  {
    var len, tail := |name| % 256, name + U16(port) + suffix;
    ParseHostHeader(len, tail);
    if len < 128 && |tail| >= len + 2 {
      assert |tail[..len]| < |name|;
    }
  }

  lemma HostHeaderRoundTrip(name: seq<byte>, port: nat, suffix: seq<byte>)
    requires port < 65536
    ensures var a := HostName(name, port);
      ParseHeader(a.Bytes() + suffix) == Parsed(a, suffix) <==> |name| <= 127
  {
    HostLayout(name, port, suffix);
    if |name| <= 127 {
      ShortHostHeader(name, port, suffix);
    } else {
      LongHostHeader(name, port, suffix);
    }
  }

  /** A header decodes to what was encoded, leaving what follows unread, unless its host name is too long. */
  lemma HeaderRoundTrip(a: Address, suffix: seq<byte>)
    requires a.Valid()
    ensures ParseHeader(a.Bytes() + suffix) == Parsed(a, suffix) <==> (a.HostName? ==> |a.name| <= 127)
  {
    var buf := a.Bytes() + suffix;
    if a.HostName? {
      HostHeaderRoundTrip(a.name, a.number, suffix);
    } else if a.Unknown? {
      assert buf[1..] == suffix;
    } else {
      var n := |a.addr|;
      assert buf[1..] == a.addr + a.port + suffix;
      assert buf[1..][..n] == a.addr && buf[1..][n..n + 2] == a.port && buf[1..][n + 2..] == suffix;
    }
  }

  /**
   * The relay request built for a SOCKS5 request. A request of unknown type carries a default-constructed
   * socket address, `blank`.
   */
  function Translate(r: Request, blank: Address): Address {
    if r.address.Unknown? then blank else r.address
  }

  /**
   * Whatever request the decoder finds in a buffer, the header sent upstream for it is octet for octet the
   * buffer's own text from the address type to the port, exactly when its address type is a known one. For any
   * other type the header is that of the blank address.
   */
  lemma TranslationKeepsTheOctets(buf: seq<byte>, blank: Address)
    requires ParseRequest(buf).Parsed? && blank.Valid() && (blank.IPv4? || blank.IPv6?)
    ensures var Parsed(r, rest) := ParseRequest(buf);
      var header := Translate(r, blank).Bytes();
      && |rest| <= |buf| - 3
      && (header == buf[3..|buf| - |rest|] <==> !r.address.Unknown?)
      && ParseHeader(buf[3..]) == Parsed(r.address, rest)
      && ParseHeader(header) == Parsed(if r.address.Unknown? then blank else r.address, [])
  {
    var Parsed(r, rest) := ParseRequest(buf);
    ParsedIsPrefix(buf);
    HeaderRoundTrip(r.address, rest);
    HeaderAlone(Translate(r, blank));
    if r.address.Unknown? {
      assert |buf[3..|buf| - |rest|]| == 1;
    } else {
      Prefix(buf[3..], r.address.Bytes(), rest);
    }
  }

  lemma HeaderAlone(a: Address)
    requires a.Valid()
    ensures (a.HostName? ==> |a.name| <= 127) ==> ParseHeader(a.Bytes()) == Parsed(a, [])
  {
    HeaderRoundTrip(a, []);
    assert a.Bytes() + [] == a.Bytes();
  }

  lemma Prefix(s: seq<byte>, a: seq<byte>, b: seq<byte>)
    requires s == a + b
    ensures s[..|s| - |b|] == a
  {
  }
}
