/** One upstream connection: it sends its IV and the encrypted header, then relays through the cipher. */
module RelaySessions {
  import opened Bytes
  import opened Cipher
  import opened Socks5
  import opened RelayHeader

  datatype State = Disconnected | Connecting | Connected | Disconnecting | Authorizing | Authorized

  /**
   * The state of a session. `wire` is what it handed to its TCP session, and `unacked` how many of those sends
   * have no write completion yet; `hasTcp` tells that it has a TCP session, `closing` that it asked that session
   * to close. `payload`, `received` and `delivered` record what went through it: the plaintext accepted for
   * sending after the header, the octets read, and the plaintext passed on.
   */
  datatype Relay = Relay(
    state: State, ivPending: bool, encrypt: Context, decrypt: Context, iv: seq<byte>, header: seq<byte>,
    hasTcp: bool, closing: bool, wire: seq<byte>, unacked: nat,
    payload: seq<byte>, received: seq<byte>, delivered: seq<byte>)
  {
    predicate IsClosed() {
      state == Disconnected
    }

    predicate Fits(c: Cipher) {
      c.Valid() && encrypt.Fits(c) && decrypt.Fits(c) && |iv| == c.IvLength()
    }
  }

  /** A session that was given a request, on its way to connect. */
  function Fresh(c: Cipher, header: seq<byte>, iv: seq<byte>): (r: Relay)
    requires c.Valid() && |iv| == c.IvLength()
    ensures r.Fits(c)
  {
    Relay(Connecting, true, Start(c, iv), Start(c, iv), iv, header, false, false, [], 0, [], [], [])
  }

  function OnConnect(c: Cipher, r: Relay, ok: bool): (n: Relay)
    requires r.Fits(c)
    ensures n.Fits(c)
  {
    if !ok then r.(state := Disconnected)
    else
      var (x, out) := Encrypt(c, r.encrypt, r.header);
      r.(state := Authorizing, hasTcp := true, wire := r.wire + (r.iv + out), encrypt := x, unacked := r.unacked + 1)
  }

  /** The second value is what the request callback is told, when it runs. */
  function OnWriteComplete(r: Relay, ok: bool): (Relay, Option<bool>)
    requires r.unacked > 0
  {
    var n := r.(unacked := r.unacked - 1);
    if r.state == Authorizing then (if ok then n.(state := Authorized) else n, Some(ok)) else (n, None)
  }

  /** The plaintext read, or nothing when the first chunk is too short to hold the peer's IV. */
  function OnReadComplete(c: Cipher, r: Relay, chunk: seq<byte>): (n: Option<(Relay, seq<byte>)>)
    requires r.Fits(c)
    ensures n.Some? ==> n.value.0.Fits(c)
  {
    if !r.ivPending then
      var (x, plain) := Decrypt(c, r.decrypt, chunk);
      Some((r.(decrypt := x, received := r.received + chunk, delivered := r.delivered + plain), plain))
    else if |chunk| < c.IvLength() then
      None
    else
      var start := SetIv(c, r.decrypt, chunk[..c.IvLength()]);
      var (x, plain) := Decrypt(c, start, chunk[c.IvLength()..]);
      Some((r.(decrypt := x, ivPending := false, received := r.received + chunk, delivered := r.delivered + plain),
            plain))
  }

  function OnClosed(r: Relay): Relay {
    r.(state := Disconnected)
  }

  function SendPacket(c: Cipher, r: Relay, data: seq<byte>): (n: Relay)
    requires r.Fits(c)
    ensures n.Fits(c)
  {
    if r.state != Authorized then r
    else
      var (x, out) := Encrypt(c, r.encrypt, data);
      r.(wire := r.wire + out, encrypt := x, unacked := r.unacked + 1, payload := r.payload + data)
  }

  function Close(r: Relay): Relay {
    if r.state != Disconnected && r.hasTcp then r.(closing := true) else r
  }

  /** What a session's TCP callbacks run of its owner's, in order. */
  datatype Callback =
    | RequestDone(success: bool)
    | WriteDone(success: bool)
    | ReadDone(plain: seq<byte>)
    | CloseCallback
    | DefaultCloseCallback

  class SSTCPRelaySession {
    const crypto: Crypto
    const request: SSTCPRelayRequest
    var state: State
    var receivedPacketHasIVPrepend: bool
    // The TCP session behind this one.
    var hasTcp: bool
    var closing: bool
    var wire: seq<byte>
    var unacked: nat
    ghost var payload: seq<byte>
    ghost var received: seq<byte>
    ghost var delivered: seq<byte>

    ghost predicate Valid()
      reads this, crypto, request
    {
      crypto.Valid() && request.Invariant() && request.valid
    }

    ghost function Abs(): Relay
      reads this, crypto, request
    {
      Relay(state, receivedPacketHasIVPrepend, crypto.encryptCTX, crypto.decryptCTX, crypto.encryptIV,
            request.Value().Bytes(), hasTcp, closing, wire, unacked, payload, received, delivered)
    }

    /** A session that has been asked to send `request`. */
    constructor (crypto: Crypto, request: SSTCPRelayRequest)
      requires crypto.Valid() && request.Invariant() && request.valid
      requires crypto.encryptCTX == crypto.decryptCTX == Start(crypto.cipher, crypto.encryptIV)
      ensures Valid() && this.crypto == crypto && this.request == request
      ensures Abs() == Fresh(crypto.cipher, request.Value().Bytes(), crypto.encryptIV)
    {
      this.crypto, this.request := crypto, request;
      state, receivedPacketHasIVPrepend := Connecting, true;
      hasTcp, closing, wire, unacked := false, false, [], 0;
      payload, received, delivered := [], [], [];
    }

    /** The IV and the encrypted header, in one packet. */
    method FirstPacket() returns (bytes: seq<byte>)
      requires Valid()
      modifies crypto`encryptCTX
      ensures Valid()
      ensures var (x, out) := Encrypt(crypto.cipher, old(crypto.encryptCTX), request.Value().Bytes());
        crypto.encryptCTX == x && bytes == crypto.encryptIV + out
    {
      var packet := new Packet([]);
      var p := request.Pack();
      packet.Append(crypto.encryptIV);
      var buf := crypto.EncryptData(p.bytes);
      packet.Append(buf);
      bytes := packet.bytes;
      assert [] + crypto.encryptIV == crypto.encryptIV;
    }

    method Connect(ok: bool) returns (callbacks: seq<Callback>)
      requires Valid()
      modifies this, crypto
      ensures Valid() && Abs() == OnConnect(crypto.cipher, old(Abs()), ok)
      ensures callbacks == if ok then [] else [RequestDone(false), CloseCallback]
      ensures !ok ==> Abs() == old(Abs()).(state := Disconnected)
      ensures ok ==> Abs() == old(Abs()).(state := Authorizing, hasTcp := true, wire := wire,
                                          encrypt := crypto.encryptCTX, unacked := old(unacked) + 1)
    {
      callbacks := [];
      if !ok {
        state := Disconnected;
        callbacks := [RequestDone(false), CloseCallback];
      } else {
        state := Authorizing;
        var first := FirstPacket();
        wire, unacked := wire + first, unacked + 1;
        hasTcp := true;
      }
    }

    method WriteComplete(ok: bool) returns (callbacks: seq<Callback>)
      requires Valid() && unacked > 0
      modifies this
      ensures Valid() && Abs() == OnWriteComplete(old(Abs()), ok).0
      ensures callbacks == match old(state)
                           case Authorizing => [RequestDone(ok)]
                           case Authorized => [WriteDone(ok)]
                           case _ => []
      ensures Abs() == old(Abs()).(state := if old(state) == Authorizing && ok then Authorized else old(state),
                                   unacked := old(unacked) - 1)
      ensures forall done :: OnWriteComplete(old(Abs()), ok).1 == Some(done) <==> RequestDone(done) in callbacks
    {
      unacked := unacked - 1;
      callbacks := [];
      if state == Authorizing {
        if ok {
          state := Authorized;
        }
        callbacks := [RequestDone(ok)];
      } else if state == Authorized {
        callbacks := [WriteDone(ok)];
      }
    }

    /** Nothing is defined when the first chunk is too short for the peer's IV. */
    method ReadComplete(chunk: seq<byte>) returns (callbacks: Option<seq<Callback>>)
      requires Valid()
      modifies this, crypto
      ensures Valid()
      ensures var n := OnReadComplete(crypto.cipher, old(Abs()), chunk);
        if n.None? then callbacks == None && Abs() == old(Abs())
        else Abs() == n.value.0 && callbacks == Some([ReadDone(n.value.1)])
      ensures Abs() == old(Abs()).(ivPending := receivedPacketHasIVPrepend, decrypt := crypto.decryptCTX,
                                   received := received, delivered := delivered)
    {
      var n := crypto.cipher.IvLength();
      var data := chunk;
      if receivedPacketHasIVPrepend {
        if |chunk| < n {
          return None;
        }
        crypto.SetDecryptIV(chunk[..n]);
        data := chunk[n..];
      }
      var buf := crypto.DecryptData(data);
      receivedPacketHasIVPrepend := false;
      received, delivered := received + chunk, delivered + buf;
      callbacks := Some([ReadDone(buf)]);
    }

    /** The test for a session that is still authorizing comes after the state is overwritten, and never holds. */
    method Closed() returns (callbacks: seq<Callback>)
      requires Valid()
      modifies this
      ensures Valid() && Abs() == OnClosed(old(Abs())) == old(Abs()).(state := Disconnected)
      ensures callbacks == [CloseCallback, DefaultCloseCallback]
    {
      state := Disconnected;
      callbacks := [];
      if state == Authorizing {
        callbacks := [RequestDone(false)];
      }
      callbacks := callbacks + [CloseCallback, DefaultCloseCallback];
    }

    method Send(data: seq<byte>)
      requires Valid()
      modifies this, crypto
      ensures Valid() && Abs() == SendPacket(crypto.cipher, old(Abs()), data)
      ensures if state != Authorized then Abs() == old(Abs()) else
        var (x, out) := Encrypt(crypto.cipher, old(crypto.encryptCTX), data);
        Abs() == old(Abs()).(wire := old(wire) + out, encrypt := x, unacked := old(unacked) + 1,
                             payload := old(payload) + data)
    {
      if state == Authorized {
        var out := crypto.EncryptData(data);
        wire, unacked := wire + out, unacked + 1;
        payload := payload + data;
      }
    }

    method RequestClose()
      requires Valid()
      modifies this
      ensures Valid() && Abs() == Close(old(Abs()))
      ensures Abs() == old(Abs()).(closing := old(closing) || (state != Disconnected && hasTcp))
    {
      if state != Disconnected && hasTcp {
        closing := true;
      }
    }
  }

  /** What happens to a session: its TCP session's callbacks, and its owner's calls. */
  datatype Step =
    | Connect(ok: bool)
    | WriteComplete(ok: bool)
    | ReadComplete(chunk: seq<byte>)
    | Closed
    | Send(data: seq<byte>)
    | RequestClose

  /** The TCP session connects once and completes each send at most once; the peer's IV comes in one read. */
  predicate Possible(c: Cipher, r: Relay, step: Step) {
    match step
    case Connect(_) => r.state == Connecting
    case WriteComplete(_) => r.unacked > 0
    case ReadComplete(chunk) => r.ivPending ==> |chunk| >= c.IvLength()
    case _ => true
  }

  function Apply(c: Cipher, r: Relay, step: Step): (n: Relay)
    requires r.Fits(c) && Possible(c, r, step)
    ensures n.Fits(c)
  {
    match step
    case Connect(ok) => OnConnect(c, r, ok)
    case WriteComplete(ok) => OnWriteComplete(r, ok).0
    case ReadComplete(chunk) => OnReadComplete(c, r, chunk).value.0
    case Closed => OnClosed(r)
    case Send(data) => SendPacket(c, r, data)
    case RequestClose => Close(r)
  }

  /** What went out is the IV and one encryption of the header and everything accepted after it. */
  ghost predicate Outbound(c: Cipher, r: Relay) {
    && r.Fits(c)
    && (r.state == Connecting ==> !r.hasTcp)
    && (r.state == Authorizing || r.state == Authorized ==> r.hasTcp)
    && (!r.hasTcp ==> r.wire == [] && r.payload == [] && r.encrypt == Start(c, r.iv))
    && (r.hasTcp ==>
          && r.wire == r.iv + Encrypt(c, Start(c, r.iv), r.header + r.payload).1
          && r.encrypt == Encrypt(c, Start(c, r.iv), r.header + r.payload).0)
  }

  /** What was passed on is one decryption, under the peer's IV, of everything received after that IV. */
  ghost predicate Inbound(c: Cipher, r: Relay) {
    var n := c.IvLength();
    && r.Fits(c)
    && (r.ivPending ==> r.received == [] && r.delivered == [] && r.decrypt == Start(c, r.iv))
    && (!r.ivPending ==>
          && |r.received| >= n
          && (r.decrypt, r.delivered) == Decrypt(c, Start(c, r.received[..n]), r.received[n..]))
  }

  lemma SendKeepsOutbound(c: Cipher, r: Relay, data: seq<byte>)
    requires Outbound(c, r)
    ensures Outbound(c, SendPacket(c, r, data))
  {
    if r.state == Authorized {
      var before := r.header + r.payload;
      EncryptSplits(c, Start(c, r.iv), before, data);
      ConcatAssociates(r.header, r.payload, data);
      ConcatAssociates(r.iv, Encrypt(c, Start(c, r.iv), before).1, Encrypt(c, r.encrypt, data).1);
    }
  }

  lemma ConnectKeepsOutbound(c: Cipher, r: Relay, ok: bool)
    requires Outbound(c, r) && r.state == Connecting
    ensures Outbound(c, OnConnect(c, r, ok))
  {
    var out := r.iv + Encrypt(c, r.encrypt, r.header).1;
    assert [] + out == out && r.header + [] == r.header;
  }

  lemma ReadKeepsInbound(c: Cipher, r: Relay, chunk: seq<byte>)
    requires Inbound(c, r) && OnReadComplete(c, r, chunk).Some?
    ensures Inbound(c, OnReadComplete(c, r, chunk).value.0)
  {
    var n := c.IvLength();
    if r.ivPending {
      assert [] + chunk == chunk;
      var plain := OnReadComplete(c, r, chunk).value.1;
      assert [] + plain == plain;
      assert c.Rc4? ==> chunk[..n] == [] == r.iv;
    } else {
      var all := r.received + chunk;
      assert all[..n] == r.received[..n] && all[n..] == r.received[n..] + chunk;
      DecryptSplits(c, Start(c, all[..n]), r.received[n..], chunk);
    }
  }

  lemma StepKeepsStreams(c: Cipher, r: Relay, step: Step)
    requires Outbound(c, r) && Inbound(c, r) && Possible(c, r, step)
    ensures Outbound(c, Apply(c, r, step)) && Inbound(c, Apply(c, r, step))
  {
    match step {
      case Connect(ok) => ConnectKeepsOutbound(c, r, ok);
      case ReadComplete(chunk) => ReadKeepsInbound(c, r, chunk);
      case Send(data) => SendKeepsOutbound(c, r, data);
      case _ =>
    }
  }

  /** What a server holding the key reads from the octets of a connection. */
  function ServerReads(c: Cipher, wire: seq<byte>): seq<byte>
    requires c.Valid() && |wire| >= c.IvLength()
  {
    Decrypt(c, Start(c, wire[..c.IvLength()]), wire[c.IvLength()..]).1
  }

  lemma ServerReadsPlaintext(c: Cipher, r: Relay)
    requires Outbound(c, r) && r.hasTcp
    ensures |r.wire| >= c.IvLength() && ServerReads(c, r.wire) == r.header + r.payload
  {
    var n := c.IvLength();
    assert r.wire[..n] == r.iv && r.wire[n..] == Encrypt(c, Start(c, r.iv), r.header + r.payload).1;
    DecryptInverts(c, Start(c, r.iv), r.header + r.payload);
  }

  predicate PossibleRun(c: Cipher, r: Relay, steps: seq<Step>)
    requires r.Fits(c)
    decreases |steps|
  {
    steps == [] || (Possible(c, r, steps[0]) && PossibleRun(c, Apply(c, r, steps[0]), steps[1..]))
  }

  function Run(c: Cipher, r: Relay, steps: seq<Step>): (n: Relay)
    requires r.Fits(c) && PossibleRun(c, r, steps)
    ensures n.Fits(c)
    decreases |steps|
  {
    if steps == [] then r else Run(c, Apply(c, r, steps[0]), steps[1..])
  }

  /** The plaintext the owner handed over while the session was authorized. */
  function Accepted(c: Cipher, r: Relay, steps: seq<Step>): seq<byte>
    requires r.Fits(c) && PossibleRun(c, r, steps)
    decreases |steps|
  {
    if steps == [] then []
    else
      (if steps[0].Send? && r.state == Authorized then steps[0].data else [])
      + Accepted(c, Apply(c, r, steps[0]), steps[1..])
  }

  lemma StepAccepts(c: Cipher, r: Relay, step: Step)
    requires r.Fits(c) && Possible(c, r, step)
    ensures var n := Apply(c, r, step);
      && n.header == r.header && (r.hasTcp ==> n.hasTcp)
      && n.payload == r.payload + (if step.Send? && r.state == Authorized then step.data else [])
  {
    assert r.payload + [] == r.payload;
  }

  lemma {:induction false} RunKeepsStreams(c: Cipher, r: Relay, steps: seq<Step>)
    requires Outbound(c, r) && Inbound(c, r) && PossibleRun(c, r, steps)
    ensures var n := Run(c, r, steps);
      && Outbound(c, n) && Inbound(c, n) && n.header == r.header
      && n.payload == r.payload + Accepted(c, r, steps)
      && (r.hasTcp ==> n.hasTcp)
    decreases |steps|
  {
    if steps == [] {
      assert r.payload + [] == r.payload;
    } else {
      var next := Apply(c, r, steps[0]);
      StepKeepsStreams(c, r, steps[0]);
      StepAccepts(c, r, steps[0]);
      RunKeepsStreams(c, next, steps[1..]);
      var now := if steps[0].Send? && r.state == Authorized then steps[0].data else [];
      ConcatAssociates(r.payload, now, Accepted(c, next, steps[1..]));
    }
  }

  /**
   * Upstream transparency: after any run of callbacks and calls, the server reads the address header followed,
   * in order, by exactly the data handed over while the session was authorized, however it was cut up.
   */
  lemma UpstreamTransparency(c: Cipher, header: seq<byte>, iv: seq<byte>, steps: seq<Step>)
    requires c.Valid() && |iv| == c.IvLength() && PossibleRun(c, Fresh(c, header, iv), steps)
    ensures var start := Fresh(c, header, iv);
      var r := Run(c, start, steps);
      if r.hasTcp then |r.wire| >= |iv| && ServerReads(c, r.wire) == header + Accepted(c, start, steps)
      else r.wire == [] && Accepted(c, start, steps) == []
  {
    var start := Fresh(c, header, iv);
    RunKeepsStreams(c, start, steps);
    var r := Run(c, start, steps);
    assert [] + Accepted(c, start, steps) == Accepted(c, start, steps);
    if r.hasTcp {
      ServerReadsPlaintext(c, r);
    }
  }

  /** A run of reads, as far as each is defined. */
  function ReadAll(c: Cipher, r: Relay, chunks: seq<seq<byte>>): Option<Relay>
    requires r.Fits(c)
    decreases |chunks|
  {
    if chunks == [] then Some(r) else
      var n := OnReadComplete(c, r, chunks[0]);
      if n.None? then None else ReadAll(c, n.value.0, chunks[1..])
  }

  lemma {:induction false} ReadAllKeepsInbound(c: Cipher, r: Relay, chunks: seq<seq<byte>>)
    requires Inbound(c, r)
    ensures var n := ReadAll(c, r, chunks);
      && (n.Some? <==> r.ivPending && chunks != [] ==> |chunks[0]| >= c.IvLength())
      && (n.Some? ==> Inbound(c, n.value) && n.value.received == r.received + Flatten(chunks)
                      && n.value.ivPending == (r.ivPending && chunks == []))
    decreases |chunks|
  {
    if chunks == [] {
      assert r.received + [] == r.received;
    } else {
      var n := OnReadComplete(c, r, chunks[0]);
      if n.Some? {
        ReadKeepsInbound(c, r, chunks[0]);
        ReadAllKeepsInbound(c, n.value.0, chunks[1..]);
        ConcatAssociates(r.received, chunks[0], Flatten(chunks[1..]));
      }
    }
  }

  /** Decryption of a beginning of a ciphertext gives the matching beginning of the plaintext. */
  lemma DecryptPrefix(c: Cipher, x: Context, plain: seq<byte>, n: nat)
    requires c.Valid() && x.Fits(c) && n <= |plain|
    ensures Decrypt(c, x, Encrypt(c, x, plain).1[..n]).1 == plain[..n]
  {
    EncryptSplits(c, x, plain[..n], plain[n..]);
    assert plain[..n] + plain[n..] == plain;
    assert Encrypt(c, x, plain).1[..n] == Encrypt(c, x, plain[..n]).1;
    DecryptInverts(c, x, plain[..n]);
  }

  lemma CutPrefix(stream: seq<byte>, a: seq<byte>, b: seq<byte>)
    requires stream <= a + b && |stream| >= |a|
    ensures stream[..|a|] == a && stream[|a|..] == b[..|stream| - |a|]
  {
    assert stream == (a + b)[..|stream|];
  }

  /**
   * Downstream transparency: reading any split of the peer's IV and ciphertext is defined exactly when the
   * first chunk holds the whole IV, and then passes on exactly the plaintext that has arrived.
   */
  lemma DownstreamTransparency(c: Cipher, r: Relay, peerIv: seq<byte>, plain: seq<byte>, chunks: seq<seq<byte>>)
    requires Inbound(c, r) && r.ivPending && |peerIv| == c.IvLength()
    requires Flatten(chunks) <= peerIv + Encrypt(c, Start(c, peerIv), plain).1
    ensures var n := ReadAll(c, r, chunks);
      && (n.Some? <==> chunks == [] || |chunks[0]| >= c.IvLength())
      && (n.Some? && chunks != [] ==>
            |Flatten(chunks)| >= |peerIv| && n.value.delivered == plain[..|Flatten(chunks)| - |peerIv|])
  {
    ReadAllKeepsInbound(c, r, chunks);
    var n, k, stream := ReadAll(c, r, chunks), |peerIv|, Flatten(chunks);
    if n.Some? && chunks != [] {
      var out := Encrypt(c, Start(c, peerIv), plain).1;
      assert [] + stream == stream;
      CutPrefix(stream, peerIv, out);
      DecryptPrefix(c, Start(c, peerIv), plain, |stream| - k);
    }
  }
}
