/** What holds of one channel in every state a well-behaved client can bring it to. */
module ChannelInvariants {
  import opened Bytes
  import opened Cipher
  import opened Socks5
  import opened RelayHeader
  import opened Channels
  import S = Socks5Sessions
  import R = RelaySessions

  predicate Replied(sent: seq<Message>) {
    exists i | 0 <= i < |sent| :: sent[i].Reply?
  }

  /**
   * A well-behaved client offers no-authentication, asks to CONNECT only, sends neither request nor data before
   * its turn, and never leaves a socket address cut where the decoder would overrun. Its server sends the IV in
   * one read.
   */
  predicate WellBehaved(cfg: Config, cell: Cell, e: CellEvent)
    requires cfg.Valid() && Ready(cell, e)
  {
    match e
    case FromClient(Read(chunk, _, _)) =>
      var cl := cell.client.value;
      (match S.OnRead(cl.session, chunk).1
       case Negotiate(b, methods) => METHOD_NO_AUTH in methods && ParseMethods(b).Parsed? && ParseMethods(b).rest == []
       case Ask(b, request) => request.cmd == CMD_CONNECT && ParseRequest(b).Parsed? && ParseRequest(b).rest == []
       case Garbled(_) => false
       case Data(_) => Replied(cl.sent)
       case _ => true)
    case FromUpstream(UpstreamRead(chunk)) =>
      cell.upstream.value.relay.ivPending ==> |chunk| >= cfg.cipher.IvLength()
    case _ => true
  }

  /** A client is answered its greeting, then its request, once each, and then only sent data. */
  ghost predicate Shape(sent: seq<Message>) {
    && (|sent| >= 1 ==> sent[0] == Method(METHOD_NO_AUTH))
    && (|sent| >= 2 ==> sent[1] == ReplyFor(true) || sent[1] == ReplyFor(false))
    && (forall i | 2 <= i < |sent| :: sent[i].Payload?)
  }

  /** The data a client was sent. */
  function Delivered(sent: seq<Message>): seq<byte> {
    if sent == [] then [] else
      var last := sent[|sent| - 1];
      Delivered(sent[..|sent| - 1]) + (if last.Payload? then last.data else [])
  }

  lemma DeliveredAppend(sent: seq<Message>, m: Message)
    ensures Delivered(sent + [m]) == Delivered(sent) + (if m.Payload? then m.data else [])
  {
    assert (sent + [m])[..|sent|] == sent;
  }

  lemma DeliveredOne(sent: seq<Message>)
    requires |sent| <= 1 && Shape(sent)
    ensures Delivered(sent) == []
  {
    if |sent| == 1 {
      assert sent[..0] == [];
      assert Delivered(sent[..0]) == [];
    }
  }

  ghost predicate ClientGood(cl: Client) {
    && cl.fault == Fine
    && (cl.notified ==> cl.tcpClosed)
    && (cl.session.status == S.Disconnected <==> cl.notified)
    && (cl.session.status == S.Requested ==> cl.session.buffer == [] && cl.key.Some?)
    && cl.received == cl.greeting + cl.asked + cl.session.buffer + cl.forwarded
    && (cl.key.None? ==> |cl.sent| <= 1 && cl.asked == [])
    && (cl.forwarded != [] ==> |cl.sent| >= 2)
    && (S.Progress(cl.session.status) == 0 ==> cl.greeting == [] && cl.sent == [] && cl.key.None?)
    && (S.Progress(cl.session.status) == 1 ==> |cl.sent| == 1 && cl.key.None?)
    && Shape(cl.sent)
  }

  /** Where an upstream session stands in its protocol; `bound` tells that its request was completed. */
  ghost predicate RelayGood(c: Cipher, r: R.Relay, bound: bool, notice: Notice) {
    && R.Outbound(c, r) && R.Inbound(c, r)
    && (notice.NotYet? <==> !r.IsClosed())
    && match r.state
       case Connecting => !bound && r.unacked == 0
       case Authorizing => r.hasTcp && r.unacked == if bound then 0 else 1
       case Authorized => r.hasTcp && bound
       case Disconnected => true
       case _ => false
  }

  ghost predicate Pair(cl: Client, u: Upstream) {
    && |cl.asked| >= 3 && u.relay.header == cl.asked[3..]
    && u.relay.payload <= cl.forwarded
    && (u.relay.state == R.Authorized ==> u.relay.payload == cl.forwarded)
    && (u.bound.None? ==> |cl.sent| <= 1 && u.relay.payload == [] && u.relay.received == u.relay.delivered == [])
    && (u.bound.Some? && |cl.sent| < 2 ==> u.relay.closing || u.relay.IsClosed())
    && (|cl.sent| < 2 ==> u.relay.payload == [])
    && (|cl.sent| >= 2 && cl.sent[1] == ReplyFor(false) ==> u.relay.payload == [] && u.relay.state != R.Authorized)
  }

  ghost predicate Tied(cell: Cell)
    requires cell.client.Some?
  {
    var cl := cell.client.value;
    match cell.channel
    case None =>
      cl.tcpClosed && (cell.upstream.Some? ==> Delivered(cl.sent) <= cell.upstream.value.relay.delivered)
    case Some(ch) =>
      match ch.status
      case Inited => ch.ssSession.None? && cl.key.None? && cl.timers == 0 && !cl.closing
      case WaitingSession =>
        && ch.ssSession.None? && cell.pending && cl.timers == 0 && |cl.sent| == 1 && !cl.closing
        && (cell.upstream.Some? ==> !cell.upstream.value.relay.closing)
      case Established | Closing =>
        && ch.ssSession == cl.key && cell.upstream.Some? && cell.upstream.value.bound.Some? && |cl.sent| >= 2
        && Delivered(cl.sent) == cell.upstream.value.relay.delivered
        && AskedToEnd(ch.status, cl, cell.upstream.value.relay)
      case Closed => false
  }

  /** Whom an established or closing channel asked to close: nobody yet, or both ends that were open. */
  ghost predicate AskedToEnd(status: ChannelStatus, cl: Client, r: R.Relay)
  {
    if status == Established then !cl.closing && !r.closing
    else
      (cl.closing || cl.tcpClosed) && (r.closing || r.IsClosed())
  }

  ghost predicate Base(cfg: Config, cell: Cell) {
    && cell.Fits(cfg)
    && (cell.client.None? ==> cell == Nothing(cell.id))
    && (cell.upstream.None? ==> !cell.listed)
    && (cell.client.Some? ==>
          && ClientGood(cell.client.value)
          && (cell.upstream.Some? || cell.pending ==> cell.client.value.key.Some?)
          && Tied(cell))
    && (cell.upstream.Some? ==>
          var u := cell.upstream.value;
          && RelayGood(cfg.cipher, u.relay, u.bound.Some?, u.notice)
          && Pair(cell.client.value, u)
          && (u.bound == if cell.pending then None else Some(cell.id))
          && (u.notice.NotYet? ==> cell.listed))
  }

  /** A failed request has a delayed close to come. */
  ghost predicate Timed(cl: Client) {
    |cl.sent| >= 2 && cl.timers == if cl.sent[1] == ReplyFor(false) then 1 else 0
  }

  /** No close callback that already ran was in vain, and none is missing. */
  ghost predicate Settled(cell: Cell) {
    cell.channel.Some? && cell.client.Some? ==>
      var notified := cell.client.value.notified;
      var given := cell.upstream.Some? && cell.upstream.value.notice.Given?;
      match cell.channel.value.status
      case Established => !notified && !given && Timed(cell.client.value)
      case Closing => !(notified && given)
      case _ => !notified
  }

  /** The invariant of one channel. */
  ghost predicate Good(cfg: Config, cell: Cell) {
    Base(cfg, cell) && Settled(cell)
  }

  lemma NothingIsGood(cfg: Config, id: Id)
    requires cfg.Valid()
    ensures Good(cfg, Nothing(id))
  {
  }

  lemma AcceptGood(cfg: Config, cell: Cell)
    requires Good(cfg, cell) && Ready(cell, Accept)
    ensures Good(cfg, CellStep(cfg, cell, Accept))
  {
  }

  lemma AskedToCloseGood(cl: Client, sync: bool)
    requires ClientGood(cl)
    ensures ClientGood(AskedToClose(cl, sync))
  {
  }

  lemma RelayCloseGood(c: Cipher, cl: Client, u: Upstream, sync: bool)
    requires RelayGood(c, u.relay, u.bound.Some?, u.notice) && Pair(cl, u)
    ensures var n := u.(relay := R.Close(u.relay));
      RelayGood(c, n.relay, n.bound.Some?, n.notice) && Pair(cl, n) && Pair(AskedToClose(cl, sync), n)
  {
  }

  /** Asking either end to close keeps all but the channel's own entry in order. */
  lemma ClosingGood(cfg: Config, cell: Cell, closeClient: bool, sync: bool, closeUpstream: bool, ch: Option<Channel>)
    requires Base(cfg, cell) && cell.client.Some?
    requires var n := Rearranged(cell, closeClient, sync, closeUpstream, ch); Tied(n) && n.Fits(cfg)
    ensures Base(cfg, Rearranged(cell, closeClient, sync, closeUpstream, ch))
  {
    AskedToCloseGood(cell.client.value, sync);
    if cell.upstream.Some? {
      RelayCloseGood(cfg.cipher, cell.client.value, cell.upstream.value, sync);
    }
  }

  /** Closing a channel whose callbacks may be overdue settles it. */
  lemma CloseGood(cfg: Config, cell: Cell, sync: bool)
    requires Base(cfg, cell) && cell.client.Some?
    requires cell.channel.Some? && cell.channel.value.status in {Inited, WaitingSession} ==> cell.client.value.notified
    ensures Good(cfg, CellClose(cell, sync))
  {
    if cell.channel.Some? {
      var cl, ch := cell.client.value, cell.channel.value;
      var v := CloseVerdict(ch.status, cl.tcpClosed, sync, UpstreamState(cell));
      assert v.Verdict?;
      var entry := if v.status == Closed then None else Some(ch.(status := v.status));
      ClosingGood(cfg, cell, v.closeClient, sync, v.closeUpstream, entry);
    }
  }

  lemma CloseCallbackGood(cfg: Config, cell: Cell, sync: bool)
    requires Good(cfg, cell) && Ready(cell, FromClient(CloseCallback(sync)))
    ensures Good(cfg, CellStep(cfg, cell, FromClient(CloseCallback(sync))))
  {
    CloseGood(cfg, CellNotified(cell), sync);
  }

  lemma TickedBase(cfg: Config, cell: Cell)
    requires Good(cfg, cell) && cell.client.Some? && cell.client.value.timers > 0
    ensures var cl := cell.client.value;
      Base(cfg, cell.(client := Some(cl.(timers := cl.timers - 1))))
  {
    var cl := cell.client.value;
    var n := cl.(timers := cl.timers - 1);
    assert ClientGood(n);
    assert cell.upstream.Some? ==> Pair(n, cell.upstream.value);
  }

  lemma TimerGood(cfg: Config, cell: Cell, sync: bool)
    requires Good(cfg, cell) && Ready(cell, FromClient(Timer(sync)))
    ensures Good(cfg, CellStep(cfg, cell, FromClient(Timer(sync))))
  {
    var cl := cell.client.value;
    TickedBase(cfg, cell);
    CloseGood(cfg, cell.(client := Some(cl.(timers := cl.timers - 1))), sync);
  }

  lemma TcpClosedGood(cfg: Config, cell: Cell)
    requires Good(cfg, cell) && Ready(cell, FromClient(TcpClosed))
    ensures Good(cfg, CellStep(cfg, cell, FromClient(TcpClosed)))
  {
  }

  // Reads from the client.

  lemma ForwardedGood(c: Cipher, cl: Client, u: Upstream, chunk: seq<byte>)
    requires ClientGood(cl) && cl.session.status == S.Requested && |cl.sent| >= 2
    requires RelayGood(c, u.relay, true, u.notice) && Pair(cl, u) && u.bound.Some?
    ensures var relay := R.SendPacket(c, u.relay, chunk);
      var n := cl.(received := cl.received + chunk, forwarded := cl.forwarded + chunk);
      && ClientGood(n) && RelayGood(c, relay, true, u.notice) && Pair(n, u.(relay := relay))
      && relay.delivered == u.relay.delivered
  {
    AccountAppend(cl.greeting + cl.asked, cl.forwarded, chunk);
    R.SendKeepsOutbound(c, u.relay, chunk);
  }

  lemma DataGood(cfg: Config, cell: Cell, chunk: seq<byte>, newKey: Key, random: seq<byte>)
    requires Good(cfg, cell) && Ready(cell, FromClient(Read(chunk, newKey, random)))
    requires WellBehaved(cfg, cell, FromClient(Read(chunk, newKey, random)))
    requires cell.client.value.session.status == S.Requested
    ensures Good(cfg, CellRead(cfg, cell, chunk, newKey, random))
  {
    assert cell.upstream.Some?;
    ForwardedGood(cfg.cipher, cell.client.value, cell.upstream.value, chunk);
  }

  lemma AccountAppend(a: seq<byte>, forwarded: seq<byte>, chunk: seq<byte>)
    ensures a + [] + forwarded + chunk == a + [] + (forwarded + chunk)
  {
  }

  /** The session opened for a request starts out in order, its header the request's own octets. */
  lemma OpenedGood(cfg: Config, cl: Client, buffer: seq<byte>, request: Request, random: seq<byte>, id: Id)
    requires cfg.Valid() && |random| == 16 && |cl.sent| == 1 && cl.asked == buffer
    requires ParseRequest(buffer) == Parsed(request, [])
    ensures var u := NewUpstream(cfg, request, random, id);
      RelayGood(cfg.cipher, u.relay, false, NotYet) && Pair(cl, u)
  {
    HeaderIsText(buffer, request, cfg.blank);
    assert |buffer| >= 3;
  }

  lemma HeaderIsText(buffer: seq<byte>, request: Request, blank: Address)
    requires blank.Valid() && (blank.IPv4? || blank.IPv6?) && ParseRequest(buffer) == Parsed(request, [])
    ensures |buffer| >= 3 && Translate(request, blank).Bytes() == buffer[3..]
  {
    TranslationKeepsTheOctets(buffer, blank);
    assert !request.address.Unknown?;
    assert buffer[3..|buffer| - 0] == buffer[3..];
  }

  lemma AskedGood(cl: Client, chunk: seq<byte>, newKey: Key)
    requires ClientGood(cl) && S.Progress(cl.session.status) == 1
    ensures var (session, event) := S.OnRead(cl.session, chunk);
      var n := Recorded(cl, session, chunk, event);
      && (!event.Ask? && !event.Garbled? ==> ClientGood(n))
      && (event.Ask? ==> ClientGood(n.(key := Some(newKey))) && n.asked == event.buffer)
  {
    var (session, event) := S.OnRead(cl.session, chunk);
    var n := Recorded(cl, session, chunk, event);
    if !event.Garbled? {
      assert n.received == n.greeting + n.asked + n.session.buffer + n.forwarded;
    }
  }

  lemma AskGood(cfg: Config, cell: Cell, chunk: seq<byte>, newKey: Key, random: seq<byte>)
    requires Good(cfg, cell) && Ready(cell, FromClient(Read(chunk, newKey, random)))
    requires WellBehaved(cfg, cell, FromClient(Read(chunk, newKey, random)))
    requires S.Progress(cell.client.value.session.status) == 1
    ensures Good(cfg, CellRead(cfg, cell, chunk, newKey, random))
  {
    var cl := cell.client.value;
    var (session, event) := S.OnRead(cl.session, chunk);
    AskedGood(cl, chunk, newKey);
    if event.Ask? {
      var n := Recorded(cl, session, chunk, event).(key := Some(newKey));
      OpenedGood(cfg, n, event.buffer, event.request, random, cell.id);
      DeliveredOne(cl.sent);
    }
  }

  /** A read before the greeting is complete, or that completes it, leaves the client in order. */
  lemma GreetedGood(cl: Client, chunk: seq<byte>)
    requires ClientGood(cl) && S.Progress(cl.session.status) == 0
    ensures var (session, event) := S.OnRead(cl.session, chunk);
      var n := Recorded(cl, session, chunk, event);
      && (event.Quiet? ==> ClientGood(n))
      && (event.Negotiate? ==> ClientGood(Answered(n, Method(METHOD_NO_AUTH), true)))
      && (event.Quiet? || event.Negotiate?) && n.key == cl.key && n.timers == cl.timers && n.closing == cl.closing
  {
    var (session, event) := S.OnRead(cl.session, chunk);
    var n := Recorded(cl, session, chunk, event);
    assert n.received == n.greeting + n.asked + n.session.buffer + n.forwarded;
  }

  lemma GreetingGood(cfg: Config, cell: Cell, chunk: seq<byte>, newKey: Key, random: seq<byte>)
    requires Good(cfg, cell) && Ready(cell, FromClient(Read(chunk, newKey, random)))
    requires WellBehaved(cfg, cell, FromClient(Read(chunk, newKey, random)))
    requires S.Progress(cell.client.value.session.status) == 0
    ensures Good(cfg, CellRead(cfg, cell, chunk, newKey, random))
  {
    GreetedGood(cell.client.value, chunk);
  }

  // The upstream session.

  /** The answer to a request leaves the client in order. */
  lemma AnsweredGood(cl: Client, u: Upstream, ok: bool, id: Id)
    requires ClientGood(cl) && Pair(cl, u) && u.bound.None? && |cl.sent| == 1 && cl.timers == 0 && cl.key.Some?
    requires !ok ==> u.relay.state != R.Authorized
    ensures var n := Answered(cl, ReplyFor(ok), ok);
      && ClientGood(n) && Pair(n, u.(bound := Some(id))) && Timed(n) && |n.sent| == 2 && Delivered(n.sent) == []
  {
    DeliveredOne(cl.sent);
    DeliveredAppend(cl.sent, ReplyFor(ok));
  }

  lemma CompleteGood(cfg: Config, cell: Cell, ok: bool)
    requires cell.Fits(cfg) && cell.client.Some? && cell.upstream.Some? && cell.pending && cell.listed
    requires ClientGood(cell.client.value) && Tied(cell) && Settled(cell) && cell.client.value.key.Some?
    requires var u := cell.upstream.value;
      && u.bound.None? && Pair(cell.client.value, u) && RelayGood(cfg.cipher, u.relay, true, u.notice)
      && (ok ==> u.relay.state == R.Authorized) && (!ok ==> u.relay.state != R.Authorized)
      && (u.relay.hasTcp || u.relay.IsClosed()) && !u.notice.Given?
      && (u.notice.NotYet? ==> cell.listed)
    ensures Good(cfg, CellComplete(cell, ok))
  {
    var cl := cell.client.value;
    if cell.channel.Some? {
      AnsweredGood(cl, cell.upstream.value, ok, cell.id);
    } else {
      DeliveredOne(cl.sent);
    }
  }

  lemma ConnectedGood(cfg: Config, cell: Cell, ok: bool)
    requires Good(cfg, cell) && Ready(cell, FromUpstream(Connected(ok)))
    ensures Good(cfg, CellStep(cfg, cell, FromUpstream(Connected(ok))))
  {
    var u := cell.upstream.value;
    R.ConnectKeepsOutbound(cfg.cipher, u.relay, ok);
    var relay := R.OnConnect(cfg.cipher, u.relay, ok);
    if !ok {
      CompleteGood(cfg, cell.(upstream := Some(u.(relay := relay, notice := Owed))), false);
    }
  }

  /** A write completion that completes nothing only counts. */
  lemma CountedGood(cfg: Config, cell: Cell, ok: bool)
    requires Good(cfg, cell) && Ready(cell, FromUpstream(WriteDone(ok)))
    requires cell.upstream.value.relay.state != R.Authorizing
    ensures Good(cfg, CellStep(cfg, cell, FromUpstream(WriteDone(ok))))
  {
    var u := cell.upstream.value;
    CountedRelay(cfg.cipher, cell.client.value, u);
    SwappedGood(cfg, cell, u.(relay := u.relay.(unacked := u.relay.unacked - 1)));
  }

  lemma CountedRelay(c: Cipher, cl: Client, u: Upstream)
    requires RelayGood(c, u.relay, u.bound.Some?, u.notice) && Pair(cl, u)
    requires u.relay.unacked > 0 && u.relay.state != R.Authorizing
    ensures var n := u.(relay := u.relay.(unacked := u.relay.unacked - 1));
      RelayGood(c, n.relay, n.bound.Some?, n.notice) && Pair(cl, n)
  {
  }

  /** An upstream session may be replaced by one that looks the same to the channel's entry. */
  lemma SwappedGood(cfg: Config, cell: Cell, n: Upstream)
    requires Good(cfg, cell) && cell.upstream.Some? && n.relay.Fits(cfg.cipher)
    requires RelayGood(cfg.cipher, n.relay, n.bound.Some?, n.notice) && Pair(cell.client.value, n)
    requires var u := cell.upstream.value;
      && n.bound == u.bound && n.notice == u.notice && n.relay.delivered == u.relay.delivered
      && n.relay.closing == u.relay.closing && n.relay.IsClosed() == u.relay.IsClosed()
    ensures Good(cfg, cell.(upstream := Some(n)))
  {
  }

  lemma WriteDoneGood(cfg: Config, cell: Cell, ok: bool)
    requires Good(cfg, cell) && Ready(cell, FromUpstream(WriteDone(ok)))
    ensures Good(cfg, CellStep(cfg, cell, FromUpstream(WriteDone(ok))))
  {
    var u := cell.upstream.value;
    if u.relay.state == R.Authorizing {
      CompleteGood(cfg, cell.(upstream := Some(u.(relay := R.OnWriteComplete(u.relay, ok).0))), ok);
    } else {
      CountedGood(cfg, cell, ok);
    }
  }

  lemma ReadRelayGood(c: Cipher, cl: Client, u: Upstream, chunk: seq<byte>)
    requires RelayGood(c, u.relay, true, u.notice) && Pair(cl, u) && u.bound.Some?
    requires R.OnReadComplete(c, u.relay, chunk).Some?
    ensures var (relay, plain) := R.OnReadComplete(c, u.relay, chunk).value;
      && RelayGood(c, relay, true, u.notice) && Pair(cl, u.(relay := relay))
      && relay.delivered == u.relay.delivered + plain
      && relay.closing == u.relay.closing && relay.state == u.relay.state
  {
    R.ReadKeepsInbound(c, u.relay, chunk);
  }

  lemma PassedGood(cfg: Config, cell: Cell, relay: R.Relay, plain: seq<byte>)
    requires Good(cfg, cell) && cell.upstream.Some? && cell.upstream.value.bound.Some?
    requires var u := cell.upstream.value;
      && RelayGood(cfg.cipher, relay, true, u.notice) && Pair(cell.client.value, u.(relay := relay))
      && relay.delivered == u.relay.delivered + plain
      && relay.closing == u.relay.closing && relay.state == u.relay.state
    ensures Good(cfg, CellPassed(cell, relay, plain))
  {
    var cl, u := cell.client.value, cell.upstream.value.(relay := relay);
    if cell.channel.Some? {
      DeliveredAppend(cl.sent, Payload(plain));
      SentGood(cl, u, plain);
    }
  }

  lemma UpstreamReadGood(cfg: Config, cell: Cell, chunk: seq<byte>)
    requires Good(cfg, cell) && Ready(cell, FromUpstream(UpstreamRead(chunk)))
    requires WellBehaved(cfg, cell, FromUpstream(UpstreamRead(chunk)))
    ensures Good(cfg, CellStep(cfg, cell, FromUpstream(UpstreamRead(chunk))))
  {
    var u := cell.upstream.value;
    ReadRelayGood(cfg.cipher, cell.client.value, u, chunk);
    var (relay, plain) := R.OnReadComplete(cfg.cipher, u.relay, chunk).value;
    PassedGood(cfg, cell, relay, plain);
  }

  lemma SentGood(cl: Client, u: Upstream, plain: seq<byte>)
    requires ClientGood(cl) && Pair(cl, u) && |cl.sent| >= 2
    ensures var n := Answered(cl, Payload(plain), true);
      ClientGood(n) && Pair(n, u)
  {
  }

  lemma UpstreamClosedGood(cfg: Config, cell: Cell)
    requires Good(cfg, cell) && Ready(cell, FromUpstream(UpstreamClosed))
    ensures Good(cfg, CellStep(cfg, cell, FromUpstream(UpstreamClosed)))
  {
  }

  lemma ToldBase(cfg: Config, cell: Cell)
    requires Good(cfg, cell) && cell.upstream.Some? && cell.upstream.value.notice.Owed?
    ensures Base(cfg, cell.(upstream := Some(cell.upstream.value.(notice := Given))))
  {
    var u := cell.upstream.value;
    assert Pair(cell.client.value, u.(notice := Given));
  }

  lemma UnlistedGood(cfg: Config, cell: Cell)
    requires Good(cfg, cell) && cell.upstream.Some? && !cell.upstream.value.notice.NotYet?
    ensures Good(cfg, cell.(listed := false))
  {
  }

  lemma UpstreamCloseCallbackGood(cfg: Config, cell: Cell, sync: bool)
    requires Good(cfg, cell) && Ready(cell, FromUpstream(UpstreamCloseCallback(sync)))
    ensures Good(cfg, CellStep(cfg, cell, FromUpstream(UpstreamCloseCallback(sync))))
  {
    var u := cell.upstream.value;
    var told := cell.(upstream := Some(u.(notice := Given)));
    ToldBase(cfg, cell);
    var next := if u.bound.Some? then CellClose(told, sync) else told;
    if u.bound.Some? {
      CloseGood(cfg, told, sync);
      NoticeKept(told, sync);
    }
    if u.relay.hasTcp {
      UnlistedGood(cfg, next);
    }
  }

  lemma NoticeKept(cell: Cell, sync: bool)
    requires cell.upstream.Some? && (cell.channel.Some? ==> cell.client.Some?)
    ensures var n := CellClose(cell, sync);
      n.upstream.Some? && n.upstream.value.notice == cell.upstream.value.notice
  {
  }

  /** Destroying a session that nothing refers to leaves the rest in order. */
  lemma FreedGood(cfg: Config, cell: Cell)
    requires Good(cfg, cell) && Ready(cell, Freed)
    ensures Good(cfg, CellStep(cfg, cell, Freed))
  {
  }

  /** Every step of a well-behaved client and its server keeps the channel's invariant. */
  lemma StepGood(cfg: Config, cell: Cell, e: CellEvent)
    requires Good(cfg, cell) && Ready(cell, e) && WellBehaved(cfg, cell, e)
    ensures Good(cfg, CellStep(cfg, cell, e))
  {
    match e {
      case Accept => AcceptGood(cfg, cell);
      case FromClient(Read(chunk, newKey, random)) =>
        if cell.client.value.session.status == S.Requested {
          DataGood(cfg, cell, chunk, newKey, random);
        } else if S.Progress(cell.client.value.session.status) == 1 {
          AskGood(cfg, cell, chunk, newKey, random);
        } else {
          GreetingGood(cfg, cell, chunk, newKey, random);
        }
      case FromClient(TcpClosed) => TcpClosedGood(cfg, cell);
      case FromClient(CloseCallback(sync)) => CloseCallbackGood(cfg, cell, sync);
      case FromClient(Timer(sync)) => TimerGood(cfg, cell, sync);
      case Freed => FreedGood(cfg, cell);
      case FromUpstream(Connected(ok)) => ConnectedGood(cfg, cell, ok);
      case FromUpstream(WriteDone(ok)) => WriteDoneGood(cfg, cell, ok);
      case FromUpstream(UpstreamRead(chunk)) => UpstreamReadGood(cfg, cell, chunk);
      case FromUpstream(UpstreamClosed) => UpstreamClosedGood(cfg, cell);
      case FromUpstream(UpstreamCloseCallback(sync)) => UpstreamCloseCallbackGood(cfg, cell, sync);
    }
  }
}
