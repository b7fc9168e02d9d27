/** UDP through the tunnel: datagrams out by a socket, and replies built back into IPv4 packets. */
module Tunnel {
  import opened Bytes
  import opened Decimals
  import opened Checksums

  // Numbers as the processor loads them, low octet first.

  function Load(b: seq<byte>): (n: nat)
    ensures n < Power(|b|)
  {
    if b == [] then 0 else var low: int := b[0]; low + 256 * Load(b[1..])
  }

  function Store(n: nat, size: nat): (b: seq<byte>)
    ensures |b| == size
  {
    if size == 0 then [] else [n % 256] + Store(n / 256, size - 1)
  }

  function Power(size: nat): nat {
    if size == 0 then 1 else 256 * Power(size - 1)
  }

  lemma {:induction false} StoreLoad(b: seq<byte>)
    ensures Store(Load(b), |b|) == b
  {
    if b != [] {
      var low: int, high := b[0], Load(b[1..]);
      StoreLoad(b[1..]);
      assert (low + 256 * high) % 256 == low && (low + 256 * high) / 256 == high;
      assert b == [b[0]] + b[1..];
    }
  }

  lemma Sizes()
    ensures Power(2) == 0x1_0000 && Power(4) == 0x1_0000_0000
  {
    assert Power(0) == 1 && Power(1) == 256;
    assert Power(3) == 256 * Power(2);
  }

  /** A 32-bit word passed where an `int` is wanted, and back. */
  function ToInt32(u: nat): int {
    if u < 0x8000_0000 then u else u - 0x1_0000_0000
  }

  function ToUint32(i: int): nat
    requires INT_MIN <= i
  {
    if i < 0 then i + 0x1_0000_0000 else i
  }

  lemma Int32RoundTrip(u: nat)
    requires u < 0x1_0000_0000
    ensures INT_MIN <= ToInt32(u) <= INT_MAX && ToUint32(ToInt32(u)) == u
  {
  }

  /** An address and a port, in network order as headers and socket addresses hold them. */
  datatype Endpoint = Endpoint(addr: seq<byte>, port: seq<byte>) {
    predicate Valid() {
      |addr| == 4 && |port| == 2
    }
  }

  const NOWHERE := Endpoint(Store(0, 4), Store(0, 2))

  lemma NowhereIsZero()
    ensures NOWHERE == Endpoint([0, 0, 0, 0], [0, 0])
  {
    assert Store(0, 2) == [0] + Store(0, 1) && Store(0, 1) == [0] + Store(0, 0);
    assert Store(0, 4) == [0] + Store(0, 3) && Store(0, 3) == [0] + Store(0, 2);
  }

  /** The string an endpoint has in the session table. */
  function KeyFor(e: Endpoint): string
    requires e.Valid()
  {
    HostPort(ToInt32(Load(e.addr)), Load(e.port))
  }

  /** The endpoint a table string is read back as. */
  function EndpointOf(s: string): (e: Endpoint)
    requires |Components(s)| >= 2
    ensures e.Valid()
  {
    var parts := Components(s);
    FromInts(IntValue(parts[0]), IntValue(parts[1]))
  }

  /** Two `int`s stored in a 32-bit address and a 16-bit port. */
  function FromInts(host: int, port: int): (e: Endpoint)
    requires INT_MIN <= host
    ensures e.Valid()
  {
    Endpoint(Store(ToUint32(host), 4), Store(port % 0x1_0000, 2))
  }

  lemma FromIntsRoundTrip(e: Endpoint)
    requires e.Valid()
    ensures Load(e.port) < 0x1_0000 && INT_MIN <= ToInt32(Load(e.addr)) <= INT_MAX
    ensures FromInts(ToInt32(Load(e.addr)), Load(e.port)) == e
  {
    var addr, port := Load(e.addr), Load(e.port);
    Sizes();
    Int32RoundTrip(addr);
    StoreLoad(e.addr);
    StoreLoad(e.port);
    assert port % 0x1_0000 == port;
  }

  /** The string is the address and the port as the processor loads them, low octet first, the address signed. */
  lemma KeyIsDecimal(e: Endpoint)
    requires e.Valid()
    ensures var a: nat, b: nat, c: nat, d: nat := e.addr[0], e.addr[1], e.addr[2], e.addr[3];
      var p: nat, q: nat := e.port[0], e.port[1];
      var host := a + 0x100 * b + 0x1_0000 * c + 0x100_0000 * d;
      KeyFor(e) == Print(if d < 128 then host else host - 0x1_0000_0000) + ":" + Print(p + 0x100 * q)
  {
    LoadFour(e.addr);
    LoadTwo(e.port);
  }

  lemma LoadTwo(b: seq<byte>)
    requires |b| == 2
    ensures var p: nat, q: nat := b[0], b[1]; Load(b) == p + 0x100 * q
  {
    assert Load(b[1..]) == b[1] + 256 * Load(b[1..][1..]);
    assert b[1..][1..] == [];
  }

  lemma LoadFour(w: seq<byte>)
    requires |w| == 4
    ensures var a: nat, b: nat, c: nat, d: nat := w[0], w[1], w[2], w[3];
      Load(w) == a + 0x100 * b + 0x1_0000 * c + 0x100_0000 * d
  {
    LoadTwo(w[2..]);
    assert w[1..][1..] == w[2..];
    assert Load(w[1..]) == w[1] + 256 * Load(w[1..][1..]);
  }

  /** Every endpoint is read back from its own string. */
  lemma KeyRoundTrip(e: Endpoint)
    requires e.Valid()
    ensures |Components(KeyFor(e))| == 2 && EndpointOf(KeyFor(e)) == e
  {
    FromIntsRoundTrip(e);
    HostPortRoundTrip(ToInt32(Load(e.addr)), Load(e.port));
  }

  // Packets.

  /** What the tunnel makes of a packet from the device; `Short` packets are read past their end. */
  datatype Inbound = Ignored | Short | Datagram(src: Endpoint, dst: Endpoint, payload: seq<byte>)

  function ParsePacket(packet: seq<byte>): Inbound {
    if packet == [] then Short
    else if packet[0] / 16 != 4 then Ignored
    else
      var h := packet[0] % 16 * 4;
      if |packet| < 20 || |packet| < h + 8 then Short
      else
        Datagram(Endpoint(packet[12..16], packet[h..h + 2]), Endpoint(packet[16..20], packet[h + 2..h + 4]),
                 packet[h + 8..])
  }

  const PROTO_UDP: byte := 17
  const TTL: byte := 64
  const IP_HLEN := 20
  const UDP_HLEN := 8

  /** The header before its checksum field, and after it. */
  function HeaderStart(total: nat): (b: seq<byte>)
    ensures |b| == 10
  {
    [0x45, 0] + U16(total) + [0, 0, 0, 0, TTL, PROTO_UDP]
  }

  function IpHeader(src: seq<byte>, dst: seq<byte>, total: nat): seq<byte> {
    HeaderStart(total) + U16(Checksum(HeaderStart(total) + U16(0) + (src + dst))) + (src + dst)
  }

  function UdpStart(src: Endpoint, dst: Endpoint, size: nat): seq<byte> {
    src.port + dst.port + U16(UDP_HLEN + size)
  }

  /** The pseudo header of RFC 768. */
  function Pseudo(src: Endpoint, dst: Endpoint, size: nat): seq<byte> {
    src.addr + dst.addr + [0, PROTO_UDP] + U16(UDP_HLEN + size)
  }

  function UdpChecksum(src: Endpoint, dst: Endpoint, data: seq<byte>): nat {
    Checksum(Pseudo(src, dst, |data|) + UdpStart(src, dst, |data|) + U16(0) + data)
  }

  function UdpSegment(src: Endpoint, dst: Endpoint, data: seq<byte>): seq<byte> {
    UdpStart(src, dst, |data|) + U16(UdpChecksum(src, dst, data)) + data
  }

  /** The packet that carries `data` from `src` to `dst`. */
  function ReplyPacket(src: Endpoint, dst: Endpoint, data: seq<byte>): seq<byte> {
    IpHeader(src.addr, dst.addr, IP_HLEN + UDP_HLEN + |data|) + UdpSegment(src, dst, data)
  }

  predicate Fits(src: Endpoint, dst: Endpoint, data: seq<byte>) {
    src.Valid() && dst.Valid() && IP_HLEN + UDP_HLEN + |data| <= 0xffff
  }

  lemma IpHeaderVerifies(src: Endpoint, dst: Endpoint, total: nat)
    ensures Fold(Sum(IpHeader(src.addr, dst.addr, total))) == 0xffff
  {
    ChecksumVerifies(HeaderStart(total), src.addr + dst.addr);
  }

  lemma UdpVerifies(src: Endpoint, dst: Endpoint, data: seq<byte>)
    requires Fits(src, dst, data)
    ensures Fold(Sum(Pseudo(src, dst, |data|) + UdpSegment(src, dst, data))) == 0xffff
  {
    var pseudo, start := Pseudo(src, dst, |data|), UdpStart(src, dst, |data|);
    var c := UdpChecksum(src, dst, data);
    ChecksumVerifies(pseudo + start, data);
    ConcatAssociates(pseudo, start, U16(c));
    ConcatAssociates(pseudo, start + U16(c), data);
  }

  /**
   * RFC 768 reads a zero checksum field as no checksum. The field comes out zero exactly when the words it is
   * taken over add up to a multiple of 65535, and this code does not send all ones instead.
   */
  lemma ZeroUdpChecksumExactly(src: Endpoint, dst: Endpoint, data: seq<byte>)
    requires Fits(src, dst, data)
    ensures UdpChecksum(src, dst, data) == 0
       <==> Sum(Pseudo(src, dst, |data|) + UdpStart(src, dst, |data|) + data) % 0xffff == 0
  {
    SummedIsPositive(src, dst, |data|);
    ZeroChecksumExactly(Pseudo(src, dst, |data|) + UdpStart(src, dst, |data|), data);
  }

  /** The protocol number alone keeps the sum from being zero. */
  lemma SummedIsPositive(src: Endpoint, dst: Endpoint, size: nat)
    requires src.Valid() && dst.Valid()
    ensures var before := Pseudo(src, dst, size) + UdpStart(src, dst, size);
      |before| % 2 == 0 && Sum(before) > 0
  {
    var addrs, proto, rest := src.addr + dst.addr, [0, PROTO_UDP], U16(UDP_HLEN + size);
    SumSplits(addrs, proto);
    SumSplits(addrs + proto, rest);
    OneWord(0, PROTO_UDP);
    SumSplits(addrs + proto + rest, UdpStart(src, dst, size));
  }

  /** Between any two endpoints there are two octets of data for which it does. */
  lemma ZeroUdpChecksumHappens(src: Endpoint, dst: Endpoint) returns (data: seq<byte>)
    requires src.Valid() && dst.Valid()
    ensures |data| == 2 && UdpChecksum(src, dst, data) == 0
  {
    var before := Pseudo(src, dst, 2) + UdpStart(src, dst, 2) + U16(0);
    data := U16(Checksum(before + U16(0) + []));
    ChecksumVerifies(before, []);
    assert before + data + [] == before + data;
  }

  /** A 16-bit word in network order. */
  lemma NetworkOrder(n: nat)
    requires n <= 0xffff
    ensures U16(n) == [n / 256, n % 256]
  {
  }

  /** The first ten octets of every header, by section 3.1 of RFC 791: version, lengths, time to live, protocol. */
  lemma HeaderOctets(total: nat)
    requires total <= 0xffff
    ensures HeaderStart(total) == [0x45, 0, total / 256, total % 256, 0, 0, 0, 0, 64, 17]
  {
    NetworkOrder(total);
  }

  lemma HeaderFields(src: Endpoint, dst: Endpoint, data: seq<byte>)
    requires Fits(src, dst, data)
    ensures var h := IpHeader(src.addr, dst.addr, IP_HLEN + UDP_HLEN + |data|);
      && |h| == 20 && h[0] == 0x45 && h[1] == 0
      && h[2..4] == [(28 + |data|) / 256, (28 + |data|) % 256]
      && h[4..8] == [0, 0, 0, 0] && h[8] == 64 && h[9] == 17
      && h[12..16] == src.addr && h[16..20] == dst.addr
  {
    var total := IP_HLEN + UDP_HLEN + |data|;
    HeaderOctets(total);
    var start := HeaderStart(total);
    var h := IpHeader(src.addr, dst.addr, total);
    assert start[2..4] == [total / 256, total % 256] && start[4..8] == [0, 0, 0, 0];
    assert h[..10] == start && h[2..4] == h[..10][2..4] && h[4..8] == h[..10][4..8];
    assert h[12..] == src.addr + dst.addr;
    assert h[12..16] == h[12..][..4] && h[16..20] == h[12..][4..];
  }

  lemma SegmentFields(src: Endpoint, dst: Endpoint, data: seq<byte>)
    requires Fits(src, dst, data)
    ensures var u := UdpSegment(src, dst, data);
      && |u| == 8 + |data| && u[0..2] == src.port && u[2..4] == dst.port
      && u[4..6] == [(8 + |data|) / 256, (8 + |data|) % 256] && u[8..] == data
  {
    NetworkOrder(UDP_HLEN + |data|);
    var start := UdpStart(src, dst, |data|);
    var u := UdpSegment(src, dst, data);
    assert u[..6] == start;
    assert u[0..2] == start[0..2] && u[2..4] == start[2..4] && u[4..6] == start[4..6];
  }

  /**
   * A reply packet says what it should: it is an IPv4 packet of protocol UDP and time to live 64, its lengths are
   * exact, both its sums verify, the second one over the pseudo header of RFC 768, and the tunnel's own reading of
   * it gives back the endpoints and the payload.
   */
  lemma ReplyReadsBack(src: Endpoint, dst: Endpoint, data: seq<byte>)
    requires Fits(src, dst, data)
    ensures var p := ReplyPacket(src, dst, data);
      && |p| == 28 + |data|
      && p[0] == 0x45 && p[1] == 0 && p[2..4] == [|p| / 256, |p| % 256]
      && p[4..8] == [0, 0, 0, 0] && p[8] == 64 && p[9] == 17
      && p[24..26] == [(|p| - 20) / 256, (|p| - 20) % 256]
      && Fold(Sum(p[..20])) == 0xffff
      && Fold(Sum(p[12..20] + [0, 17] + p[24..26] + p[20..])) == 0xffff
      && ParsePacket(p) == Datagram(src, dst, data)
  {
    var h, u := IpHeader(src.addr, dst.addr, IP_HLEN + UDP_HLEN + |data|), UdpSegment(src, dst, data);
    HeaderFields(src, dst, data);
    SegmentFields(src, dst, data);
    IpHeaderVerifies(src, dst, IP_HLEN + UDP_HLEN + |data|);
    UdpVerifies(src, dst, data);
    ReadBack(h, u);
    PseudoFields(src, dst, h, u);
  }

  /** The pseudo header is made of fields of the packet. */
  lemma PseudoFields(src: Endpoint, dst: Endpoint, h: seq<byte>, u: seq<byte>)
    requires src.Valid() && dst.Valid() && 8 <= |u| <= 0xffff && |h| == 20
    requires h[12..16] == src.addr && h[16..20] == dst.addr && u[4..6] == [|u| / 256, |u| % 256]
    ensures Pseudo(src, dst, |u| - 8) + u == (h + u)[12..20] + [0, 17] + (h + u)[24..26] + (h + u)[20..]
  {
    var p := h + u;
    NetworkOrder(|u|);
    assert p[12..20] == h[12..16] + h[16..20] && p[24..26] == u[4..6] && p[20..] == u;
  }

  lemma ReadBack(h: seq<byte>, u: seq<byte>)
    requires |h| == 20 && h[0] == 0x45 && |u| >= 8
    ensures var p := h + u;
      && p[2..4] == h[2..4] && p[4..8] == h[4..8] && p[24..26] == u[4..6] && p[..20] == h && p[20..] == u
      && ParsePacket(p) == Datagram(Endpoint(h[12..16], u[0..2]), Endpoint(h[16..20], u[2..4]), u[8..])
  {
    var p := h + u;
    assert p[12..16] == h[12..16] && p[16..20] == h[16..20] && p[20..22] == u[0..2] && p[22..24] == u[2..4];
    assert p[28..] == u[8..];
  }

  /** What a packet of the device is taken for, by its version and the header length that its options add to. */
  lemma PacketParts(packet: seq<byte>, version: nat, words: nat)
    requires packet != [] && words < 16 && packet[0] == 16 * version + words
    ensures ParsePacket([]) == Short
    ensures version != 4 ==> ParsePacket(packet) == Ignored
    ensures version == 4 ==> var n := 4 * words;
      ParsePacket(packet) == if |packet| < 20 || |packet| < n + 8 then Short else
        Datagram(Endpoint(packet[12..16], packet[n..n + 2]), Endpoint(packet[16..20], packet[n + 2..n + 4]),
                 packet[n + 8..])
  {
    assert packet[0] / 16 == version && packet[0] % 16 == words;
  }

  /** A datagram is read past any options its header carries. */
  lemma OptionsAreSkipped(fixed: seq<byte>, options: seq<byte>, ports: seq<byte>, lengths: seq<byte>, data: seq<byte>)
    requires |fixed| == 20 && |options| % 4 == 0 && |options| <= 40 && |ports| == |lengths| == 4
    requires fixed[0] == 0x45 + |options| / 4
    ensures ParsePacket(fixed + options + (ports + lengths + data))
         == Datagram(Endpoint(fixed[12..16], ports[..2]), Endpoint(fixed[16..20], ports[2..]), data)
  {
    var words, front, back := 5 + |options| / 4, fixed + options, ports + lengths + data;
    var packet := front + back;
    assert 4 * words == |front|;
    PacketParts(packet, 4, words);
    assert packet[12..16] == fixed[12..16] && packet[16..20] == fixed[16..20] && packet[|front|..] == back;
    assert packet[|front|..|front| + 2] == ports[..2] && packet[|front| + 2..|front| + 4] == ports[2..];
    assert packet[|front| + 8..] == data;
  }

  // The session table.

  /** What changes the table: a packet from the device, or a stop or restart. */
  datatype TunnelEvent = Packet(bytes: seq<byte>) | Cleared

  function Recorded(table: map<string, string>, packet: seq<byte>): map<string, string> {
    match ParsePacket(packet)
    case Datagram(src, dst, _) => table[KeyFor(dst) := KeyFor(src)]
    case _ => table
  }

  function Table(events: seq<TunnelEvent>): map<string, string> {
    if events == [] then map[] else
      var before := Table(events[..|events| - 1]);
      match events[|events| - 1]
      case Packet(p) => Recorded(before, p)
      case Cleared => map[]
  }

  lemma TableAppend(events: seq<TunnelEvent>, packet: seq<byte>)
    ensures Table(events + [Packet(packet)]) == Recorded(Table(events), packet)
  {
    var all := events + [Packet(packet)];
    assert all[..|all| - 1] == events;
  }

  /** Who last sent to `remote` since the table was last cleared. */
  function LastSender(events: seq<TunnelEvent>, remote: Endpoint): Option<Endpoint> {
    if events == [] then None else
      match events[|events| - 1]
      case Cleared => None
      case Packet(p) =>
        var inbound := ParsePacket(p);
        if inbound.Datagram? && inbound.dst == remote then Some(inbound.src)
        else LastSender(events[..|events| - 1], remote)
  }

  /** What the table says of `remote` is what the events say of it. */
  ghost predicate Holds(table: map<string, string>, remote: Endpoint, s: Option<Endpoint>)
    requires remote.Valid()
  {
    && (s.Some? ==> s.value.Valid())
    && (KeyFor(remote) in table <==> s.Some?)
    && (s.Some? ==> table[KeyFor(remote)] == KeyFor(s.value))
  }

  /** Different endpoints have different strings. */
  lemma KeyInjective(a: Endpoint, b: Endpoint)
    requires a.Valid() && b.Valid() && KeyFor(a) == KeyFor(b)
    ensures a == b
  {
    KeyRoundTrip(a);
    KeyRoundTrip(b);
  }

  lemma RecordedHolds(table: map<string, string>, p: seq<byte>, remote: Endpoint, s: Option<Endpoint>)
    requires remote.Valid() && Holds(table, remote, s)
    ensures var inbound := ParsePacket(p);
      Holds(Recorded(table, p), remote, if inbound.Datagram? && inbound.dst == remote then Some(inbound.src) else s)
  {
    var inbound := ParsePacket(p);
    if inbound.Datagram? && KeyFor(inbound.dst) == KeyFor(remote) {
      KeyInjective(inbound.dst, remote);
    }
  }

  lemma {:induction false} TableHoldsLastSender(events: seq<TunnelEvent>, remote: Endpoint)
    requires remote.Valid()
    ensures var s := LastSender(events, remote);
      && (s.Some? ==> s.value.Valid())
      && (KeyFor(remote) in Table(events) <==> s.Some?)
      && (s.Some? ==> Table(events)[KeyFor(remote)] == KeyFor(s.value))
    ensures Holds(Table(events), remote, LastSender(events, remote))
  {
    if events != [] {
      var before := events[..|events| - 1];
      TableHoldsLastSender(before, remote);
      if events[|events| - 1].Packet? {
        RecordedHolds(Table(before), events[|events| - 1].bytes, remote, LastSender(before, remote));
      }
    }
  }

  /** Whom a reply from `remote` is addressed to: with no entry, nil reads as zeros. */
  function Addressee(table: map<string, string>, remote: Endpoint): (e: Endpoint)
    requires remote.Valid()
    requires KeyFor(remote) in table ==> |Components(table[KeyFor(remote)])| >= 2
    ensures e.Valid()
  {
    if KeyFor(remote) in table then EndpointOf(table[KeyFor(remote)]) else NOWHERE
  }

  class TunnelInterface {
    var udpSession: map<string, string>
    /** What changed the table so far. */
    ghost var events: seq<TunnelEvent>

    ghost predicate Valid()
      reads this
    {
      udpSession == Table(events)
    }

    constructor ()
      ensures Valid() && events == []
    {
      udpSession, events := map[], [];
    }

    method Clear()
      modifies this
      ensures Valid() && events == old(events) + [Cleared]
    {
      udpSession, events := map[], events + [Cleared];
    }

    /** What is sent on by the socket, and to whom. */
    method HandleUDPPacket(packet: seq<byte>) returns (sent: Option<(seq<byte>, Endpoint)>)
      requires Valid()
      modifies this
      ensures Valid() && events == old(events) + [Packet(packet)]
      ensures var p := ParsePacket(packet); sent == if p.Datagram? then Some((p.payload, p.dst)) else None
    {
      sent := None;
      if packet != [] && packet[0] / 16 == 4 {
        var h := packet[0] % 16 * 4;
        if |packet| >= 20 && |packet| >= h + UDP_HLEN {
          var src := Endpoint(packet[12..16], packet[h..h + 2]);
          var dst := Endpoint(packet[16..20], packet[h + 2..h + 4]);
          udpSession := udpSession[KeyFor(dst) := KeyFor(src)];
          sent := Some((packet[h + UDP_HLEN..], dst));
          assert ParsePacket(packet) == Datagram(src, dst, packet[h + UDP_HLEN..]);
        }
      }
      assert udpSession == Recorded(old(udpSession), packet);
      TableAppend(events, packet);
      events := events + [Packet(packet)];
    }

    /** The packet written back to the device for `data` received from `remote`. */
    method DidReceiveData(remote: Endpoint, data: seq<byte>) returns (packet: seq<byte>)
      requires Valid() && remote.Valid() && IP_HLEN + UDP_HLEN + |data| <= 0xffff
      ensures var s := LastSender(events, remote);
        packet == ReplyPacket(remote, if s.Some? then s.value else Endpoint([0, 0, 0, 0], [0, 0]), data)
    {
      TableHoldsLastSender(events, remote);
      NowhereIsZero();
      var client := NOWHERE;
      var key := KeyFor(remote);
      if key in udpSession {
        KeyRoundTrip(LastSender(events, remote).value);
        client := EndpointOf(udpSession[key]);
      }
      var header := GenerateNewIPHeader(remote.addr, client.addr, IP_HLEN + UDP_HLEN + |data|);
      var start := UdpStart(remote, client, |data|);
      var c := InetChksum(Pseudo(remote, client, |data|) + start + U16(0) + data);
      packet := header + (start + U16(c) + data);
    }

    method GenerateNewIPHeader(src: seq<byte>, dst: seq<byte>, total: nat) returns (header: seq<byte>)
      ensures header == IpHeader(src, dst, total)
    {
      var c := InetChksum(HeaderStart(total) + U16(0) + (src + dst));
      header := HeaderStart(total) + U16(c) + (src + dst);
    }
  }

  /**
   * A reply reaches whoever last sent to its remote endpoint: after any packets and restarts, the packet built
   * for data from `remote` reads back, sums verified, as that data sent by `remote` to that sender.
   */
  lemma ReplyReachesLastSender(events: seq<TunnelEvent>, remote: Endpoint, data: seq<byte>)
    requires remote.Valid() && IP_HLEN + UDP_HLEN + |data| <= 0xffff && LastSender(events, remote).Some?
    ensures var client := LastSender(events, remote).value;
      && KeyFor(remote) in Table(events) && |Components(Table(events)[KeyFor(remote)])| >= 2
      && Addressee(Table(events), remote) == client
      && ParsePacket(ReplyPacket(remote, Addressee(Table(events), remote), data)) == Datagram(remote, client, data)
  {
    TableHoldsLastSender(events, remote);
    var client := LastSender(events, remote).value;
    KeyRoundTrip(client);
    ReplyReadsBack(remote, client, data);
  }
}
