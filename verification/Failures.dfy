/** Where the multiplexer falls short, with inputs that show it, and requests that are never answered. */
module Failures {
  import opened Bytes
  import opened Socks5
  import opened Channels
  import opened ChannelGuarantees
  import opened Completion
  import opened Guarantees
  import H = Handshakes
  import S = Socks5Sessions
  import R = RelaySessions

  const GREETING: seq<byte> := [5, 1, 0]
  /** A greeting that offers only user name and password. */
  const REFUSED: seq<byte> := [5, 1, 2]
  /** CONNECT to 10.0.0.1, port 80. */
  const REQUEST: seq<byte> := [5, 1, 0, 1, 10, 0, 0, 1, 0, 80]

  function ReadEvent(chunk: seq<byte>): CellEvent {
    FromClient(Read(chunk, 0, seq(16, i => 0)))
  }

  ghost predicate Leads(cfg: Config, from: Cell, e: CellEvent, to: Cell) {
    from.Fits(cfg) && to.Fits(cfg) && Ready(from, e) && CellStep(cfg, from, e) == to
  }

  /** The channel's client connection is open and at `session`, and its entry is `ch`. */
  predicate At(cell: Cell, session: S.Session, ch: Channel) {
    && cell.client.Some? && cell.channel == Some(ch)
    && var cl := cell.client.value;
       cl.session == session && cl.fault == Fine && !cl.tcpClosed && !cl.notified
  }

  /** An upstream session on its way to connect. */
  predicate Opened(u: Upstream) {
    u.relay.state == R.Connecting && !u.relay.hasTcp && u.bound.None? && u.notice.NotYet?
  }

  lemma GreetingDecodes(code: byte)
    ensures ParseMethods([5, 1, code]) == Parsed([code], [])
  {
    var m: seq<byte> := [5, 1, code];
    assert m[2..] == [code];
    assert m[1] == 1 && Signed(1) == 1;
    assert [code][..1] == [code] && [code][1..] == [];
  }

  lemma RequestDecodes()
    ensures ParseRequest(REQUEST) == Parsed(Request(CMD_CONNECT, IPv4([10, 0, 0, 1], [0, 80])), [])
  {
    var body: seq<byte> := [10, 0, 0, 1, 0, 80];
    assert REQUEST[4..] == body;
    assert body[..4] == [10, 0, 0, 1] && body[4..6] == [0, 80] && body[6..] == [];
  }

  lemma Accepted(cfg: Config, id: Id) returns (c: Cell)
    requires cfg.Valid()
    ensures Leads(cfg, Nothing(id), Accept, c) && At(c, S.FRESH, Channel(Inited, None)) && c.client.value.timers == 0
    ensures c.client.value.sent == []
  {
    c := CellStep(cfg, Nothing(id), Accept);
  }

  lemma Greeted(cfg: Config, c: Cell, code: byte) returns (n: Cell)
    requires c.Fits(cfg) && At(c, S.FRESH, Channel(Inited, None)) && c.client.value.timers == 0
    ensures Leads(cfg, c, ReadEvent([5, 1, code]), n) && At(n, S.Session(S.Negotiated, []), Channel(Inited, None))
    ensures n.client.value.timers == if code == METHOD_NO_AUTH then 0 else 1
    ensures n.client.value.sent == c.client.value.sent + [Method(ChooseMethod([code]))]
  {
    GreetingDecodes(code);
    assert [] + [5, 1, code] == [5, 1, code];
    n := CellStep(cfg, c, ReadEvent([5, 1, code]));
  }

  lemma Asked(cfg: Config, c: Cell, ch: Channel) returns (n: Cell)
    requires c.Fits(cfg) && At(c, S.Session(S.Negotiated, []), ch)
    ensures Leads(cfg, c, ReadEvent(REQUEST), n)
    ensures At(n, S.Session(S.Requested, []), ch.(status := WaitingSession)) && n.client.value.key == Some(0)
    ensures n.client.value.timers == c.client.value.timers && n.pending && n.listed
    ensures n.upstream.Some? && Opened(n.upstream.value)
  {
    RequestDecodes();
    assert [] + REQUEST == REQUEST;
    n := CellStep(cfg, c, ReadEvent(REQUEST));
  }

  /** A client that sends data before its reply reaches through the missing upstream session. */
  lemma EagerClientFails(cfg: Config, id: Id) returns (c1: Cell, c2: Cell, c3: Cell, c4: Cell)
    requires cfg.Valid()
    ensures Leads(cfg, Nothing(id), Accept, c1)
    ensures Leads(cfg, c1, ReadEvent(GREETING), c2)
    ensures Leads(cfg, c2, ReadEvent(REQUEST), c3)
    ensures Leads(cfg, c3, ReadEvent([42]), c4)
    ensures c4.client.Some? && c4.client.value.fault == NullSession
  {
    c1 := Accepted(cfg, id);
    c2 := Greeted(cfg, c1, METHOD_NO_AUTH);
    c3 := Asked(cfg, c2, Channel(Inited, None));
    c4 := ReadsEarly(cfg, c3);
  }

  lemma ReadsEarly(cfg: Config, c: Cell) returns (n: Cell)
    requires c.Fits(cfg) && At(c, S.Session(S.Requested, []), Channel(WaitingSession, None))
    ensures Leads(cfg, c, ReadEvent([42]), n) && n.client.Some? && n.client.value.fault == NullSession
  {
    n := CellStep(cfg, c, ReadEvent([42]));
  }

  lemma Timed(cfg: Config, c: Cell) returns (n: Cell)
    requires c.Fits(cfg) && At(c, S.Session(S.Negotiated, []), Channel(Inited, None)) && c.client.value.timers == 1
    ensures Leads(cfg, c, FromClient(Timer(false)), n)
    ensures At(n, S.Session(S.Negotiated, []), Channel(Closing, None))
  {
    n := CellStep(cfg, c, FromClient(Timer(false)));
  }

  lemma ClosedOnNull(cfg: Config, c: Cell) returns (n: Cell, m: Cell)
    requires c.Fits(cfg) && At(c, S.Session(S.Negotiated, []), Channel(Closing, None))
    ensures Leads(cfg, c, FromClient(TcpClosed), n) && Leads(cfg, n, FromClient(CloseCallback(false)), m)
    ensures m.client.Some? && m.client.value.fault == NullSession
  {
    n := CellStep(cfg, c, FromClient(TcpClosed));
    m := CellStep(cfg, n, FromClient(CloseCallback(false)));
  }

  /**
   * A client whose methods are all refused and that stays until the delayed close: when it then closes, the
   * multiplexer reaches through the missing upstream session.
   */
  lemma RefusedClientFails(cfg: Config, id: Id) returns (c1: Cell, c2: Cell, c3: Cell, c4: Cell, c5: Cell)
    requires cfg.Valid()
    ensures Leads(cfg, Nothing(id), Accept, c1)
    ensures Leads(cfg, c1, ReadEvent(REFUSED), c2)
    ensures Leads(cfg, c2, FromClient(Timer(false)), c3)
    ensures Leads(cfg, c3, FromClient(TcpClosed), c4)
    ensures Leads(cfg, c4, FromClient(CloseCallback(false)), c5)
    ensures c5.client.Some? && c5.client.value.fault == NullSession
  {
    c1 := Accepted(cfg, id);
    c2 := Greeted(cfg, c1, 2);
    c3 := Timed(cfg, c2);
    c4, c5 := ClosedOnNull(cfg, c3);
  }

  /** The same client, asking to CONNECT after the delayed close instead, sets its channel's status back. */
  lemma RefusedClientGoesBack(cfg: Config, id: Id) returns (c1: Cell, c2: Cell, c3: Cell, c4: Cell)
    requires cfg.Valid()
    ensures Leads(cfg, Nothing(id), Accept, c1)
    ensures Leads(cfg, c1, ReadEvent(REFUSED), c2)
    ensures Leads(cfg, c2, FromClient(Timer(false)), c3)
    ensures Leads(cfg, c3, ReadEvent(REQUEST), c4)
    ensures Rank(c4) < Rank(c3)
  {
    c1 := Accepted(cfg, id);
    c2 := Greeted(cfg, c1, 2);
    c3 := Timed(cfg, c2);
    c4 := Asked(cfg, c3, Channel(Closing, None));
    assert Rank(c3) == 4 && Rank(c4) == 2;
  }

  /** A socket address cut after its eighth octet is decoded past what has arrived. */
  lemma CutAddressFails(cfg: Config, id: Id) returns (c1: Cell, c2: Cell, c3: Cell)
    requires cfg.Valid()
    ensures Leads(cfg, Nothing(id), Accept, c1)
    ensures Leads(cfg, c1, ReadEvent(GREETING), c2)
    ensures Leads(cfg, c2, ReadEvent(REQUEST[..8]), c3)
    ensures c3.client.Some? && c3.client.value.fault == DecoderOverrun
  {
    c1 := Accepted(cfg, id);
    c2 := Greeted(cfg, c1, METHOD_NO_AUTH);
    var cut := REQUEST[..8];
    assert [] + cut == cut && |cut[4..]| == 4 && cut[3] == 1;
    c3 := CellStep(cfg, c2, ReadEvent(cut));
  }

  /**
   * A greeting and a request in one read: the request is cleared with the greeting's buffer, and the client, whose
   * channel goes on waiting for a request, was not heard.
   */
  lemma PipelinedRequestFails(cfg: Config, id: Id) returns (c1: Cell, c2: Cell)
    requires cfg.Valid()
    ensures S.OnRead(S.FRESH, GREETING + REQUEST)
         == (S.Session(S.Negotiated, []), S.Negotiate(GREETING + REQUEST, [METHOD_NO_AUTH]))
    ensures Leads(cfg, Nothing(id), Accept, c1)
    ensures Leads(cfg, c1, ReadEvent(GREETING + REQUEST), c2)
    ensures c2.client.Some? && c2.client.value.received == GREETING + REQUEST
    ensures c2.client.value.session == S.Session(S.Negotiated, []) && c2.client.value.key.None?
    ensures c2.channel == Some(Channel(Inited, None)) && c2.upstream.None?
  {
    c1 := Accepted(cfg, id);
    var both := GREETING + REQUEST;
    GreetingDecodes(METHOD_NO_AUTH);
    H.GreetingExtends(GREETING, REQUEST);
    assert [] + both == both;
    c2 := CellStep(cfg, c1, ReadEvent(both));
  }

  /**
   * A refused client that asks to CONNECT and meets the delayed close before its request completes: the completion
   * then sets the closing channel back to established.
   */
  lemma CompletionGoesBack(cfg: Config, id: Id) returns (c1: Cell, c2: Cell, c3: Cell, c4: Cell, c5: Cell)
    requires cfg.Valid()
    ensures Leads(cfg, Nothing(id), Accept, c1)
    ensures Leads(cfg, c1, ReadEvent(REFUSED), c2)
    ensures Leads(cfg, c2, ReadEvent(REQUEST), c3)
    ensures Leads(cfg, c3, FromClient(Timer(false)), c4)
    ensures Leads(cfg, c4, FromUpstream(Connected(false)), c5)
    ensures Rank(c5) < Rank(c4)
  {
    c1 := Accepted(cfg, id);
    c2 := Greeted(cfg, c1, 2);
    c3 := Asked(cfg, c2, Channel(Inited, None));
    c4 := TimedWaiting(cfg, c3);
    c5 := FailsClosing(cfg, c4);
    assert Rank(c4) == 4 && Rank(c5) == 3;
  }

  lemma TimedWaiting(cfg: Config, c: Cell) returns (n: Cell)
    requires c.Fits(cfg) && At(c, S.Session(S.Requested, []), Channel(WaitingSession, None))
    requires c.client.value.timers == 1 && c.pending && c.listed && c.upstream.Some? && Opened(c.upstream.value)
    ensures Leads(cfg, c, FromClient(Timer(false)), n)
    ensures At(n, S.Session(S.Requested, []), Channel(Closing, None))
    ensures n.pending && n.listed && n.upstream == c.upstream
  {
    n := CellStep(cfg, c, FromClient(Timer(false)));
  }

  lemma FailsClosing(cfg: Config, c: Cell) returns (n: Cell)
    requires c.Fits(cfg) && At(c, S.Session(S.Requested, []), Channel(Closing, None))
    requires c.pending && c.listed && c.upstream.Some? && Opened(c.upstream.value)
    ensures Leads(cfg, c, FromUpstream(Connected(false)), n)
    ensures n.channel.Some? && n.channel.value.status == Established
  {
    n := CellStep(cfg, c, FromUpstream(Connected(false)));
  }

  // Requests that are never answered.

  /** The upstream session closed before its request was completed, and its client waits. */
  predicate Lost(cell: Cell) {
    && cell.client.Some? && S.Progress(cell.client.value.session.status) >= 2 && cell.pending
    && (cell.upstream.Some? ==> cell.upstream.value.bound.None? && cell.upstream.value.relay.IsClosed())
  }

  lemma Connects(cfg: Config, c: Cell) returns (n: Cell)
    requires c.Fits(cfg) && c.client.Some? && c.client.value.fault == Fine
    requires c.upstream.Some? && Opened(c.upstream.value)
    ensures Leads(cfg, c, FromUpstream(Connected(true)), n)
    ensures n == c.(upstream := n.upstream) && n.upstream.Some?
    ensures var u := n.upstream.value; u.relay.state == R.Authorizing && u.relay.hasTcp && u.bound.None?
  {
    n := CellStep(cfg, c, FromUpstream(Connected(true)));
  }

  lemma ClosesAuthorizing(cfg: Config, c: Cell) returns (n: Cell)
    requires c.Fits(cfg) && c.client.Some? && c.client.value.fault == Fine && c.upstream.Some?
    requires var u := c.upstream.value; u.relay.state == R.Authorizing && u.relay.hasTcp && u.bound.None?
    ensures Leads(cfg, c, FromUpstream(UpstreamClosed), n)
    ensures n == c.(upstream := n.upstream) && n.upstream.Some?
    ensures var u := n.upstream.value; u.relay.IsClosed() && u.relay.hasTcp && u.bound.None? && u.notice.Owed?
  {
    n := CellStep(cfg, c, FromUpstream(UpstreamClosed));
  }

  /** A request lost: its connection is made, and closes before the header's write completes. */
  lemma LostHappens(cfg: Config, id: Id) returns (c1: Cell, c2: Cell, c3: Cell, c4: Cell, c5: Cell)
    requires cfg.Valid()
    ensures Leads(cfg, Nothing(id), Accept, c1)
    ensures Leads(cfg, c1, ReadEvent(GREETING), c2)
    ensures Leads(cfg, c2, ReadEvent(REQUEST), c3)
    ensures Leads(cfg, c3, FromUpstream(Connected(true)), c4)
    ensures Leads(cfg, c4, FromUpstream(UpstreamClosed), c5)
    ensures !Lost(c4) && Lost(c5)
  {
    c1 := Accepted(cfg, id);
    c2 := Greeted(cfg, c1, METHOD_NO_AUTH);
    c3 := Asked(cfg, c2, Channel(Inited, None));
    c4 := Connects(cfg, c3);
    c5 := ClosesAuthorizing(cfg, c4);
  }

  lemma ReadKeepsFound(cfg: Config, cell: Cell, chunk: seq<byte>, newKey: Key, random: seq<byte>)
    requires cell.Fits(cfg) && Once(cell) && Ready(cell, FromClient(Read(chunk, newKey, random))) && !Lost(cell)
    ensures !Lost(CellRead(cfg, cell, chunk, newKey, random))
  {
  }

  lemma CloseKeepsFound(cell: Cell, sync: bool)
    requires Once(cell) && cell.client.Some? && !Lost(cell)
    ensures !Lost(CellClose(cell, sync))
  {
  }

  lemma ClientKeepsFound(cfg: Config, cell: Cell, c: ClientEvent)
    requires cell.Fits(cfg) && Once(cell) && Ready(cell, FromClient(c)) && !Lost(cell)
    ensures !Lost(CellClient(cfg, cell, c))
  {
    match c {
      case Read(chunk, newKey, random) => ReadKeepsFound(cfg, cell, chunk, newKey, random);
      case TcpClosed =>
      case CloseCallback(sync) => CloseKeepsFound(CellNotified(cell), sync);
      case Timer(sync) =>
        var cl := cell.client.value;
        CloseKeepsFound(cell.(client := Some(cl.(timers := cl.timers - 1))), sync);
    }
  }

  lemma CompletionKeepsFound(cfg: Config, cell: Cell, u: UpstreamEvent)
    requires cell.Fits(cfg) && Once(cell) && Ready(cell, FromUpstream(u)) && !Lost(cell)
    requires u.Connected? || u.WriteDone?
    ensures !Lost(CellUpstream(cfg, cell, u))
  {
    CompletionFindsRequest(cfg, cell, FromUpstream(u));
  }

  lemma ToldKeepsFound(cfg: Config, cell: Cell, sync: bool)
    requires cell.Fits(cfg) && Once(cell) && Ready(cell, FromUpstream(UpstreamCloseCallback(sync))) && !Lost(cell)
    ensures !Lost(CellUpstream(cfg, cell, UpstreamCloseCallback(sync)))
  {
    var u := cell.upstream.value;
    var told := cell.(upstream := Some(u.(notice := Given)));
    var gone := told.(listed := cell.listed && !u.relay.hasTcp);
    CloseKeepsFound(gone, sync);
    CloseKeepsListed(told, gone.listed, sync);
  }

  lemma UpstreamReadKeepsFound(cfg: Config, cell: Cell, chunk: seq<byte>)
    requires cell.Fits(cfg) && Once(cell) && Ready(cell, FromUpstream(UpstreamRead(chunk))) && !Lost(cell)
    ensures !Lost(CellUpstream(cfg, cell, UpstreamRead(chunk)))
  {
    assert !cell.pending;
  }

  /**
   * For any client, a request is lost exactly when its upstream connection closes before its header was written:
   * the close callback overwrites the state it then tests, and so reports nothing.
   */
  lemma LostExactly(cfg: Config, cell: Cell, e: CellEvent)
    requires cell.Fits(cfg) && Once(cell) && Ready(cell, e) && !Lost(cell)
    ensures Lost(CellStep(cfg, cell, e)) <==>
      e == FromUpstream(UpstreamClosed) && cell.upstream.value.relay.state == R.Authorizing && cell.pending
  {
    match e {
      case Accept =>
      case Freed =>
      case FromClient(c) => ClientKeepsFound(cfg, cell, c);
      case FromUpstream(UpstreamClosed) =>
      case FromUpstream(UpstreamRead(chunk)) => UpstreamReadKeepsFound(cfg, cell, chunk);
      case FromUpstream(UpstreamCloseCallback(sync)) => ToldKeepsFound(cfg, cell, sync);
      case FromUpstream(u) => CompletionKeepsFound(cfg, cell, u);
    }
  }

  lemma LostClientStep(cfg: Config, cell: Cell, c: ClientEvent)
    requires cell.Fits(cfg) && Ready(cell, FromClient(c)) && Lost(cell)
    ensures var n := CellClient(cfg, cell, c);
      Lost(n) && n.client.value.sent == cell.client.value.sent && n.client.value.key == cell.client.value.key
  {
    var cl := cell.client.value;
    match c {
      case Read(chunk, newKey, random) => LostRead(cfg, cell, chunk, newKey, random);
      case TcpClosed =>
      case CloseCallback(sync) => LostClose(CellNotified(cell), sync);
      case Timer(sync) => LostClose(cell.(client := Some(cl.(timers := cl.timers - 1))), sync);
    }
  }

  lemma LostRead(cfg: Config, cell: Cell, chunk: seq<byte>, newKey: Key, random: seq<byte>)
    requires cell.Fits(cfg) && Ready(cell, FromClient(Read(chunk, newKey, random))) && Lost(cell)
    ensures var n := CellRead(cfg, cell, chunk, newKey, random);
      Lost(n) && n.client.value.sent == cell.client.value.sent && n.client.value.key == cell.client.value.key
  {
  }

  lemma LostClose(cell: Cell, sync: bool)
    requires Lost(cell)
    ensures var n := CellClose(cell, sync);
      Lost(n) && n.client.value.sent == cell.client.value.sent && n.client.value.key == cell.client.value.key
  {
  }

  lemma LostUpstreamStep(cfg: Config, cell: Cell, u: UpstreamEvent)
    requires cell.Fits(cfg) && Ready(cell, FromUpstream(u)) && Lost(cell)
    ensures var n := CellUpstream(cfg, cell, u);
      Lost(n) && n.client.value.sent == cell.client.value.sent && n.client.value.key == cell.client.value.key
  {
  }

  lemma LostStep(cfg: Config, cell: Cell, e: CellEvent)
    requires cell.Fits(cfg) && Ready(cell, e) && Lost(cell)
    ensures var n := CellStep(cfg, cell, e);
      && Lost(n) && !Completes(cell, e)
      && n.client.value.sent == cell.client.value.sent && n.client.value.key == cell.client.value.key
  {
    match e {
      case Accept =>
      case Freed =>
      case FromClient(c) => LostClientStep(cfg, cell, c);
      case FromUpstream(u) => LostUpstreamStep(cfg, cell, u);
    }
  }

  /**
   * Whatever its own client and its own session go through, a lost request is not completed and its client is sent
   * nothing. What another client's request at its address does is not an event of this channel; `LostRequests`
   * follows that too.
   */
  lemma {:induction false} LostForever(cfg: Config, cell: Cell, es: seq<CellEvent>)
    requires cell.Fits(cfg) && CellReadyRun(cfg, cell, es) && Lost(cell)
    ensures var n := CellRun(cfg, cell, es);
      Lost(n) && n.client.value.sent == cell.client.value.sent && n.client.value.key == cell.client.value.key
    decreases |es|
  {
    if es != [] {
      LostStep(cfg, cell, es[0]);
      LostForever(cfg, CellStep(cfg, cell, es[0]), es[1..]);
    }
  }
}
