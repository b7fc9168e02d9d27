/** What the source promises of one channel: its status, its closing, its replies and its two byte streams. */
module ChannelGuarantees {
  import opened Bytes
  import opened Cipher
  import opened Socks5
  import opened Channels
  import opened ChannelInvariants
  import S = Socks5Sessions
  import R = RelaySessions

  // Status.

  /** How far a channel has come, from not yet there to gone. */
  function Rank(cell: Cell): nat {
    if cell.channel.None? then (if cell.client.None? then 0 else 6) else
      match cell.channel.value.status
      case Inited => 1
      case WaitingSession => 2
      case Established => 3
      case Closing => 4
      case Closed => 5
  }

  /** The event runs the request callback of the channel's upstream session. */
  predicate Completes(cell: Cell, e: CellEvent)
    requires Ready(cell, e)
  {
    match e
    case FromUpstream(Connected(ok)) => !ok
    case FromUpstream(WriteDone(_)) => cell.upstream.value.relay.state == R.Authorizing
    case _ => false
  }

  /** The event reports a CONNECT request. */
  predicate Requests(cell: Cell, e: CellEvent)
    requires Ready(cell, e)
  {
    match e
    case FromClient(Read(chunk, _, _)) =>
      var event := S.OnRead(cell.client.value.session, chunk).1;
      event.Ask? && event.request.cmd == CMD_CONNECT
    case _ => false
  }

  /** The event runs `closeChannel`. */
  predicate Closes(cell: Cell, e: CellEvent)
    requires Ready(cell, e)
  {
    match e
    case FromClient(CloseCallback(_)) => true
    case FromClient(Timer(_)) => true
    case FromUpstream(UpstreamCloseCallback(_)) => cell.upstream.value.bound.Some?
    case _ => false
  }

  /** The event relays data of the client's. */
  predicate Forwards(cell: Cell, e: CellEvent)
    requires Ready(cell, e)
  {
    e.FromClient? && e.c.Read? && S.OnRead(cell.client.value.session, e.c.chunk).1.Data?
  }

  /** A channel whose upstream session is missing where `closeChannel` looks at it. */
  predicate ClosesOnNull(cell: Cell)
    requires cell.channel.Some? ==> cell.client.Some?
  {
    && cell.channel.Some? && UpstreamState(cell).None?
    && (|| cell.channel.value.status == Established
        || (cell.channel.value.status == Closing && cell.client.value.tcpClosed))
  }

  predicate BothClosed(cell: Cell) {
    && cell.client.Some? && cell.client.value.tcpClosed
    && cell.upstream.Some? && cell.upstream.value.relay.IsClosed()
  }

  /** What a step does to the client's record, and to what the upstream session is bound to. */
  ghost predicate RecordEffect(cell: Cell, e: CellEvent, n: Cell)
    requires Ready(cell, e) && cell.client.Some?
  {
    && n.client.Some? && cell.client.value.sent <= n.client.value.sent
    && (!Requests(cell, e) ==> n.client.value.key == cell.client.value.key)
    && (cell.upstream.Some? && !Requests(cell, e) && !e.Freed? ==>
          n.upstream.Some? && (cell.upstream.value.bound.Some? ==> n.upstream.value.bound.Some?))
    && (n.client.value.fault == NullSession <==>
          (Forwards(cell, e) && cell.channel.Some? && UpstreamState(cell).None?)
          || (Closes(cell, e) && ClosesOnNull(cell)))
  }

  /** What a step does to the channel's entry. */
  ghost predicate StatusEffect(cell: Cell, e: CellEvent, n: Cell)
    requires Ready(cell, e) && cell.client.Some?
  {
    && (cell.channel.None? ==> n.channel.None?)
    && (cell.channel.Some? ==>
          if Requests(cell, e) then n.channel.Some? && n.channel.value.status == WaitingSession
          else if Completes(cell, e) && cell.listed && cell.pending then
            n.channel.Some? && n.channel.value.status == Established
          else if Closes(cell, e) then
            && Rank(n) >= Rank(cell)
            && (cell.channel.value.status in {Established, Closing} && n.channel.None? ==> BothClosed(n))
          else n.channel == cell.channel)
  }

  ghost predicate Effect(cell: Cell, e: CellEvent, n: Cell)
    requires Ready(cell, e) && cell.client.Some?
  {
    RecordEffect(cell, e, n) && StatusEffect(cell, e, n)
  }

  lemma CloseEffect(cell: Cell, sync: bool)
    requires cell.channel.Some? ==> cell.client.Some?
    ensures var n := CellClose(cell, sync);
      && Rank(n) >= Rank(cell)
      && (cell.channel.None? ==> n == cell)
      && (cell.channel.Some? ==>
            && n.client.Some? && n.client.value.sent == cell.client.value.sent
            && n.client.value.key == cell.client.value.key
            && (cell.upstream.Some? ==> n.upstream.Some? && n.upstream.value.bound == cell.upstream.value.bound)
            && (cell.client.value.fault == Fine ==>
                  (n.client.value.fault == NullSession <==> ClosesOnNull(cell)))
            && (cell.channel.value.status in {Established, Closing} && n.channel.None? ==> BothClosed(n)))
  {
  }

  lemma ReadFault(cfg: Config, cell: Cell, chunk: seq<byte>, newKey: Key, random: seq<byte>)
    requires cell.Fits(cfg) && Ready(cell, FromClient(Read(chunk, newKey, random)))
    ensures var e, n := FromClient(Read(chunk, newKey, random)), CellRead(cfg, cell, chunk, newKey, random);
      && n.client.Some?
      && (n.client.value.fault == NullSession <==>
            Forwards(cell, e) && cell.channel.Some? && UpstreamState(cell).None?)
  {
  }

  lemma ReadKeepsSent(cfg: Config, cell: Cell, chunk: seq<byte>, newKey: Key, random: seq<byte>)
    requires cell.Fits(cfg) && Ready(cell, FromClient(Read(chunk, newKey, random)))
    ensures var n := CellRead(cfg, cell, chunk, newKey, random);
      n.client.Some? && cell.client.value.sent <= n.client.value.sent
  {
    var (session, event) := S.OnRead(cell.client.value.session, chunk);
    var cl := Recorded(cell.client.value, session, chunk, event);
    match event {
      case Negotiate(_, methods) => AnsweredGrows(cl, Method(ChooseMethod(methods)), METHOD_NO_AUTH in methods);
      case Ask(_, request) => AnsweredGrows(cl, Reply(STATUS_CMD_NOT_SUPPORTED), false);
      case _ =>
    }
  }

  lemma AnsweredGrows(cl: Client, m: Message, good: bool)
    ensures cl.sent <= Answered(cl, m, good).sent
  {
  }

  lemma ReadKeepsKey(cfg: Config, cell: Cell, chunk: seq<byte>, newKey: Key, random: seq<byte>)
    requires cell.Fits(cfg) && Ready(cell, FromClient(Read(chunk, newKey, random)))
    requires !Requests(cell, FromClient(Read(chunk, newKey, random)))
    ensures var n := CellRead(cfg, cell, chunk, newKey, random);
      n.client.Some? && n.client.value.key == cell.client.value.key
  {
  }

  lemma ReadKeepsSession(cfg: Config, cell: Cell, chunk: seq<byte>, newKey: Key, random: seq<byte>)
    requires cell.Fits(cfg) && Ready(cell, FromClient(Read(chunk, newKey, random)))
    requires cell.upstream.Some? && !Requests(cell, FromClient(Read(chunk, newKey, random)))
    ensures var n := CellRead(cfg, cell, chunk, newKey, random);
      n.upstream.Some? && n.upstream.value.bound == cell.upstream.value.bound
  {
  }

  lemma ReadEffect(cfg: Config, cell: Cell, chunk: seq<byte>, newKey: Key, random: seq<byte>)
    requires cell.Fits(cfg) && Ready(cell, FromClient(Read(chunk, newKey, random)))
    ensures RecordEffect(cell, FromClient(Read(chunk, newKey, random)), CellRead(cfg, cell, chunk, newKey, random))
  {
    ReadFault(cfg, cell, chunk, newKey, random);
    ReadKeepsSent(cfg, cell, chunk, newKey, random);
    if !Requests(cell, FromClient(Read(chunk, newKey, random))) {
      ReadKeepsKey(cfg, cell, chunk, newKey, random);
      if cell.upstream.Some? {
        ReadKeepsSession(cfg, cell, chunk, newKey, random);
      }
    }
  }

  lemma ReadStatus(cfg: Config, cell: Cell, chunk: seq<byte>, newKey: Key, random: seq<byte>)
    requires cell.Fits(cfg) && Ready(cell, FromClient(Read(chunk, newKey, random)))
    ensures StatusEffect(cell, FromClient(Read(chunk, newKey, random)), CellRead(cfg, cell, chunk, newKey, random))
  {
  }

  lemma TcpClosedEffect(cfg: Config, cell: Cell)
    requires cell.Fits(cfg) && Ready(cell, FromClient(TcpClosed))
    ensures Effect(cell, FromClient(TcpClosed), CellClient(cfg, cell, TcpClosed))
  {
  }

  /** An event that runs `closeChannel` on a cell whose client it changed in ways that do not matter here. */
  lemma ClosingEffect(cell: Cell, e: CellEvent, cl: Client, sync: bool)
    requires Ready(cell, e) && e in {FromClient(CloseCallback(sync)), FromClient(Timer(sync))}
    requires var was := cell.client.value;
      cl.tcpClosed == was.tcpClosed && cl.sent == was.sent && cl.key == was.key && cl.fault == was.fault
    ensures Effect(cell, e, CellClose(cell.(client := Some(cl)), sync))
  {
    CloseEffect(cell.(client := Some(cl)), sync);
  }

  lemma NotifiedEffect(cfg: Config, cell: Cell, sync: bool)
    requires cell.Fits(cfg) && Ready(cell, FromClient(CloseCallback(sync)))
    ensures Effect(cell, FromClient(CloseCallback(sync)), CellClient(cfg, cell, CloseCallback(sync)))
  {
    ClosingEffect(cell, FromClient(CloseCallback(sync)), CellNotified(cell).client.value, sync);
  }

  lemma TimerEffect(cfg: Config, cell: Cell, sync: bool)
    requires cell.Fits(cfg) && Ready(cell, FromClient(Timer(sync)))
    ensures Effect(cell, FromClient(Timer(sync)), CellClient(cfg, cell, Timer(sync)))
  {
    var cl := cell.client.value;
    ClosingEffect(cell, FromClient(Timer(sync)), cl.(timers := cl.timers - 1), sync);
  }

  lemma ToldEffect(cfg: Config, cell: Cell, sync: bool)
    requires cell.Fits(cfg) && Ready(cell, FromUpstream(UpstreamCloseCallback(sync)))
    ensures var e := UpstreamCloseCallback(sync); Effect(cell, FromUpstream(e), CellUpstream(cfg, cell, e))
  {
    CloseEffect(cell.(upstream := Some(cell.upstream.value.(notice := Given))), sync);
  }

  lemma ConnectedRecord(cfg: Config, cell: Cell, ok: bool)
    requires cell.Fits(cfg) && Ready(cell, FromUpstream(Connected(ok)))
    ensures RecordEffect(cell, FromUpstream(Connected(ok)), CellUpstream(cfg, cell, Connected(ok)))
  {
  }

  lemma WriteDoneRecord(cfg: Config, cell: Cell, ok: bool)
    requires cell.Fits(cfg) && Ready(cell, FromUpstream(WriteDone(ok)))
    ensures RecordEffect(cell, FromUpstream(WriteDone(ok)), CellUpstream(cfg, cell, WriteDone(ok)))
  {
  }

  lemma PassedRecord(cell: Cell, relay: R.Relay, plain: seq<byte>)
    requires cell.client.Some? && cell.upstream.Some?
    ensures var cl, n := cell.client.value, CellPassed(cell, relay, plain);
      && n.client.Some? && cl.sent <= n.client.value.sent
      && n.client.value.key == cl.key && n.client.value.fault == cl.fault
      && n.upstream.Some? && n.upstream.value.bound == cell.upstream.value.bound
  {
  }

  lemma UpstreamReadRecord(cfg: Config, cell: Cell, chunk: seq<byte>)
    requires cell.Fits(cfg) && Ready(cell, FromUpstream(UpstreamRead(chunk)))
    ensures RecordEffect(cell, FromUpstream(UpstreamRead(chunk)), CellUpstream(cfg, cell, UpstreamRead(chunk)))
  {
    var r := R.OnReadComplete(cfg.cipher, cell.upstream.value.relay, chunk);
    if r.Some? {
      PassedRecord(cell, r.value.0, r.value.1);
    }
  }

  lemma UpstreamStatus(cfg: Config, cell: Cell, u: UpstreamEvent)
    requires cell.Fits(cfg) && Ready(cell, FromUpstream(u)) && !u.UpstreamCloseCallback?
    ensures StatusEffect(cell, FromUpstream(u), CellUpstream(cfg, cell, u))
  {
  }

  lemma StepEffect(cfg: Config, cell: Cell, e: CellEvent)
    requires cell.Fits(cfg) && Ready(cell, e) && cell.client.Some?
    ensures Effect(cell, e, CellStep(cfg, cell, e))
  {
    match e {
      case FromClient(Read(chunk, newKey, random)) =>
        ReadEffect(cfg, cell, chunk, newKey, random);
        ReadStatus(cfg, cell, chunk, newKey, random);
      case FromClient(TcpClosed) => TcpClosedEffect(cfg, cell);
      case FromClient(CloseCallback(sync)) => NotifiedEffect(cfg, cell, sync);
      case FromClient(Timer(sync)) => TimerEffect(cfg, cell, sync);
      case Freed =>
      case FromUpstream(UpstreamCloseCallback(sync)) => ToldEffect(cfg, cell, sync);
      case FromUpstream(u) =>
        UpstreamStatus(cfg, cell, u);
        match u {
          case Connected(ok) => ConnectedRecord(cfg, cell, ok);
          case WriteDone(ok) => WriteDoneRecord(cfg, cell, ok);
          case UpstreamRead(chunk) => UpstreamReadRecord(cfg, cell, chunk);
          case UpstreamClosed =>
        }
    }
  }

  /**
   * Exactly these steps, of any client, set a channel's status back: a request on a channel past waiting, and a
   * completion on a channel past established.
   */
  lemma StatusRegressesExactly(cfg: Config, cell: Cell, e: CellEvent)
    requires cell.Fits(cfg) && Ready(cell, e)
    ensures Rank(CellStep(cfg, cell, e)) < Rank(cell) <==>
      && cell.channel.Some?
      && (|| (Requests(cell, e) && cell.channel.value.status in {Established, Closing, Closed})
          || (Completes(cell, e) && cell.listed && cell.pending && cell.channel.value.status in {Closing, Closed}))
  {
    if e.Accept? {
      assert cell.client.None?;
    } else {
      StepEffect(cfg, cell, e);
    }
  }

  /** With a well-behaved client a channel's status only moves forward. */
  lemma StatusForward(cfg: Config, cell: Cell, e: CellEvent)
    requires Good(cfg, cell) && Ready(cell, e) && WellBehaved(cfg, cell, e)
    ensures Rank(CellStep(cfg, cell, e)) >= Rank(cell)
  {
    StatusRegressesExactly(cfg, cell, e);
  }

  /** Exactly these steps, of any client, reach through a channel's missing upstream session. */
  lemma NullSessionExactly(cfg: Config, cell: Cell, e: CellEvent)
    requires cell.Fits(cfg) && Ready(cell, e) && cell.client.Some?
    ensures var n := CellStep(cfg, cell, e);
      n.client.Some? && n.client.value.fault == NullSession <==>
        && cell.channel.Some? && UpstreamState(cell).None?
        && (Forwards(cell, e) || (Closes(cell, e) && ClosesOnNull(cell)))
  {
    StepEffect(cfg, cell, e);
  }

  // Closing.

  /** An established or closing channel is dropped only when both its sessions are closed. */
  lemma LeavesOnlyWhenClosed(cfg: Config, cell: Cell, e: CellEvent)
    requires cell.Fits(cfg) && Ready(cell, e)
    requires cell.channel.Some? && cell.channel.value.status in {Established, Closing}
    requires CellStep(cfg, cell, e).channel.None?
    ensures BothClosed(CellStep(cfg, cell, e))
  {
    StepEffect(cfg, cell, e);
  }

  /**
   * Once a client's close callback ran, its channel is there only to wait for the other one: when the upstream
   * session never completed the request, or was told of its own close too, the channel is gone.
   */
  lemma GoneWhenBothTold(cfg: Config, cell: Cell)
    requires Good(cfg, cell) && cell.client.Some? && cell.client.value.notified
    requires var u := cell.upstream; u.None? || u.value.bound.None? || u.value.notice.Given?
    ensures cell.channel.None?
  {
  }

  /**
   * A closing channel asked both its ends to close, save those that are closed; a channel that is not closing
   * asked neither. And an established channel whose request failed has a delayed close still to come.
   */
  lemma BothEndsAsked(cfg: Config, cell: Cell)
    requires Good(cfg, cell) && cell.channel.Some?
    ensures cell.client.Some?
    ensures var cl, u, status := cell.client.value, cell.upstream, cell.channel.value.status;
      && (status == Closing ==>
            && (cl.closing || cl.tcpClosed)
            && u.Some? && (u.value.relay.closing || u.value.relay.IsClosed()))
      && (status != Closing ==> !cl.closing && (u.Some? ==> !u.value.relay.closing))
      && (status == Established && Reply(STATUS_FAILED) in cl.sent ==> cl.timers > 0)
  {
    assert Reply(STATUS_FAILED) == ReplyFor(false);
  }

  /** A channel that is gone stays gone. */
  lemma StaysGone(cfg: Config, cell: Cell, e: CellEvent)
    requires cell.Fits(cfg) && Ready(cell, e) && cell.client.Some? && cell.channel.None?
    ensures CellStep(cfg, cell, e).channel.None?
  {
    StepEffect(cfg, cell, e);
  }

  // Replies.

  /** What a client was sent is never taken back. */
  lemma SentGrows(cfg: Config, cell: Cell, e: CellEvent)
    requires cell.Fits(cfg) && Ready(cell, e) && cell.client.Some?
    ensures var n := CellStep(cfg, cell, e);
      n.client.Some? && cell.client.value.sent <= n.client.value.sent
  {
    StepEffect(cfg, cell, e);
  }

  /**
   * A client gets at most one reply to its request. Its payload goes upstream only after a success reply, and
   * none ever does after a failure. A request completed when its channel was gone leaves a session that was
   * asked to close, or is closed.
   */
  lemma ReplyBeforeRelay(cfg: Config, cell: Cell)
    requires Good(cfg, cell) && cell.client.Some?
    ensures var sent := cell.client.value.sent;
      && (forall i, j | 0 <= i < |sent| && 0 <= j < |sent| && sent[i].Reply? && sent[j].Reply? :: i == j)
      && (cell.upstream.Some? ==>
            var u := cell.upstream.value;
            && (u.relay.payload != [] ==> Reply(STATUS_SUCCESS) in sent)
            && (Reply(STATUS_FAILED) in sent ==> u.relay.payload == [])
            && (u.bound.Some? && !Replied(sent) ==> u.relay.closing || u.relay.IsClosed()))
  {
    var sent := cell.client.value.sent;
    assert |sent| >= 2 ==> sent[1].Reply?;
  }

  // The two streams.

  /**
   * End to end, upstream: what the server decrypts is the client's own octets, from the address type of its
   * request to the last octet relayed, in order and without a gap.
   */
  lemma UpstreamEndToEnd(cfg: Config, cell: Cell)
    requires Good(cfg, cell) && cell.upstream.Some? && cell.upstream.value.relay.hasTcp
    ensures var cl, r := cell.client.value, cell.upstream.value.relay;
      && |r.wire| >= cfg.cipher.IvLength() && |cl.asked| >= 3
      && R.ServerReads(cfg.cipher, r.wire) == cl.asked[3..] + r.payload
      && r.payload <= cl.forwarded
      && (r.state == R.Authorized ==> r.payload == cl.forwarded)
      && cl.received == cl.greeting + cl.asked + cl.session.buffer + cl.forwarded
  {
    R.ServerReadsPlaintext(cfg.cipher, cell.upstream.value.relay);
  }

  /**
   * End to end, downstream: what the client was sent as data is a beginning of the decryption of what the server
   * sent after its IV, and all of it while the channel is there.
   */
  lemma DownstreamEndToEnd(cfg: Config, cell: Cell)
    requires Good(cfg, cell) && cell.upstream.Some? && !cell.upstream.value.relay.ivPending
    ensures var cl, r, n := cell.client.value, cell.upstream.value.relay, cfg.cipher.IvLength();
      && |r.received| >= n
      && var plain := Decrypt(cfg.cipher, Start(cfg.cipher, r.received[..n]), r.received[n..]).1;
         && Delivered(cl.sent) <= plain
         && (cell.channel.Some? ==> Delivered(cl.sent) == plain)
  {
    if cell.channel.Some? && cell.channel.value.status == WaitingSession {
      DeliveredOne(cell.client.value.sent);
    }
  }
}
