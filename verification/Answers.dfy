/** What an event sends a client, what a request opens, and what its completion changes, for any client. */
module Answers {
  import opened Bytes
  import opened Cipher
  import opened Socks5
  import opened RelayHeader
  import opened Channels
  import opened ChannelGuarantees
  import opened Completion
  import S = Socks5Sessions
  import R = RelaySessions

  /**
   * What an event has a client told, if its channel is there, by the codes of sections 3 and 6 of RFC 1928: the
   * method chosen or none, a command not supported, the outcome of its request, or what its server wrote.
   */
  function Said(cfg: Config, cell: Cell, e: CellEvent): Option<Message>
    requires cell.Fits(cfg) && Ready(cell, e)
  {
    match e
    case FromClient(Read(chunk, _, _)) =>
      (match S.OnRead(cell.client.value.session, chunk).1
       case Negotiate(_, methods) => Some(Method(if 0 in methods then 0 else 255))
       case Ask(_, request) => if request.cmd == 1 then None else Some(Reply(7))
       case _ => None)
    case FromUpstream(Connected(ok)) => if ok then None else Some(Reply(1))
    case FromUpstream(WriteDone(ok)) =>
      if cell.upstream.value.relay.state == R.Authorizing then Some(Reply(if ok then 0 else 1)) else None
    case FromUpstream(UpstreamRead(chunk)) =>
      var r := R.OnReadComplete(cfg.cipher, cell.upstream.value.relay, chunk);
      if r.None? then None else Some(Payload(r.value.1))
    case _ => None
  }

  /** A message that the delayed close follows. */
  predicate Refuses(m: Message) {
    m in {Method(255), Reply(7), Reply(1)}
  }

  /** From `cl` to `n` the client was told `m`, and `ticked` tells that a delayed close ran. */
  predicate Told(cl: Client, n: Client, m: Option<Message>, ticked: bool) {
    && n.sent == (if m.Some? then cl.sent + [m.value] else cl.sent)
    && n.timers == cl.timers + (if m.Some? && Refuses(m.value) then 1 else 0) - (if ticked then 1 else 0)
  }

  ghost predicate ReadTold(cfg: Config, cell: Cell, chunk: seq<byte>, newKey: Key, random: seq<byte>)
    requires cell.Fits(cfg) && Ready(cell, FromClient(Read(chunk, newKey, random)))
  {
    var e, n := FromClient(Read(chunk, newKey, random)), CellRead(cfg, cell, chunk, newKey, random);
    n.client.Some? && Told(cell.client.value, n.client.value,
                           if cell.channel.Some? then Said(cfg, cell, e) else None, false)
  }

  lemma AnswerTells(cfg: Config, cell: Cell, chunk: seq<byte>, newKey: Key, random: seq<byte>)
    requires cell.Fits(cfg) && Ready(cell, FromClient(Read(chunk, newKey, random)))
    requires S.OnRead(cell.client.value.session, chunk).1.Negotiate?
    ensures ReadTold(cfg, cell, chunk, newKey, random)
  {
  }

  lemma RequestTells(cfg: Config, cell: Cell, chunk: seq<byte>, newKey: Key, random: seq<byte>)
    requires cell.Fits(cfg) && Ready(cell, FromClient(Read(chunk, newKey, random)))
    requires S.OnRead(cell.client.value.session, chunk).1.Ask?
    ensures ReadTold(cfg, cell, chunk, newKey, random)
  {
  }

  lemma ReadTells(cfg: Config, cell: Cell, chunk: seq<byte>, newKey: Key, random: seq<byte>)
    requires cell.Fits(cfg) && Ready(cell, FromClient(Read(chunk, newKey, random)))
    ensures ReadTold(cfg, cell, chunk, newKey, random)
  {
    match S.OnRead(cell.client.value.session, chunk).1 {
      case Negotiate(_, _) => AnswerTells(cfg, cell, chunk, newKey, random);
      case Ask(_, _) => RequestTells(cfg, cell, chunk, newKey, random);
      case _ =>
    }
  }

  lemma CloseTells(cell: Cell, sync: bool)
    requires cell.client.Some?
    ensures var n := CellClose(cell, sync);
      && n.client.Some? && n.client.value.sent == cell.client.value.sent
      && n.client.value.timers == cell.client.value.timers
  {
  }

  lemma ClosingTells(cfg: Config, cell: Cell, c: ClientEvent)
    requires cell.Fits(cfg) && Ready(cell, FromClient(c)) && !c.Read?
    ensures var n := CellClient(cfg, cell, c);
      n.client.Some? && Told(cell.client.value, n.client.value, None, c.Timer?)
  {
    var cl := cell.client.value;
    match c {
      case TcpClosed =>
      case CloseCallback(sync) => CloseTells(CellNotified(cell), sync);
      case Timer(sync) => CloseTells(cell.(client := Some(cl.(timers := cl.timers - 1))), sync);
    }
  }

  lemma CompletionTells(cfg: Config, cell: Cell, u: UpstreamEvent)
    requires cell.Fits(cfg) && Once(cell) && Ready(cell, FromUpstream(u)) && (u.Connected? || u.WriteDone?)
    ensures var n := CellUpstream(cfg, cell, u);
      n.client.Some? && Told(cell.client.value, n.client.value,
                             if cell.channel.Some? then Said(cfg, cell, FromUpstream(u)) else None, false)
  {
    if Completes(cell, FromUpstream(u)) {
      FindsPending(cell, FromUpstream(u));
    }
  }

  lemma UpstreamTells(cfg: Config, cell: Cell, u: UpstreamEvent)
    requires cell.Fits(cfg) && Once(cell) && Ready(cell, FromUpstream(u))
    ensures var n := CellUpstream(cfg, cell, u);
      n.client.Some? && Told(cell.client.value, n.client.value,
                             if cell.channel.Some? then Said(cfg, cell, FromUpstream(u)) else None, false)
  {
    match u {
      case UpstreamCloseCallback(sync) =>
        CloseTells(cell.(upstream := Some(cell.upstream.value.(notice := Given))), sync);
      case UpstreamRead(chunk) =>
      case UpstreamClosed =>
      case _ => CompletionTells(cfg, cell, u);
    }
  }

  /**
   * Exactly what each event sends a client, and that a delayed close is posted with each refusal and with nothing
   * else: no more than one message an event, and none once the channel is gone.
   */
  lemma ToldExactly(cfg: Config, cell: Cell, e: CellEvent)
    requires cell.Fits(cfg) && Once(cell) && Ready(cell, e) && cell.client.Some?
    ensures var n := CellStep(cfg, cell, e);
      n.client.Some? && Told(cell.client.value, n.client.value,
                             if cell.channel.Some? then Said(cfg, cell, e) else None, e.FromClient? && e.c.Timer?)
  {
    match e {
      case Freed =>
      case FromClient(Read(chunk, newKey, random)) => ReadTells(cfg, cell, chunk, newKey, random);
      case FromClient(c) => ClosingTells(cfg, cell, c);
      case FromUpstream(u) => UpstreamTells(cfg, cell, u);
    }
  }

  /** What a step is not carried out for, if for anything: octets that are read past a buffer, or a null session. */
  ghost function FaultOf(cfg: Config, cell: Cell, e: CellEvent): Fault
    requires cell.Fits(cfg) && Ready(cell, e)
  {
    match e
    case FromUpstream(UpstreamRead(chunk)) =>
      if cell.upstream.value.relay.ivPending && |chunk| < cfg.cipher.IvLength() then ShortIv else Fine
    case FromClient(Read(chunk, _, _)) =>
      if S.OnRead(cell.client.value.session, chunk).1.Garbled? then DecoderOverrun
      else if Forwards(cell, e) && cell.channel.Some? && UpstreamState(cell).None? then NullSession
      else Fine
    case _ => if Closes(cell, e) && ClosesOnNull(cell) then NullSession else Fine
  }

  ghost predicate ReadFaulted(cfg: Config, cell: Cell, chunk: seq<byte>, newKey: Key, random: seq<byte>)
    requires cell.Fits(cfg) && Ready(cell, FromClient(Read(chunk, newKey, random)))
  {
    var n := CellRead(cfg, cell, chunk, newKey, random);
    n.client.Some? && n.client.value.fault == FaultOf(cfg, cell, FromClient(Read(chunk, newKey, random)))
  }

  lemma DataFaults(cfg: Config, cell: Cell, chunk: seq<byte>, newKey: Key, random: seq<byte>)
    requires cell.Fits(cfg) && Ready(cell, FromClient(Read(chunk, newKey, random)))
    requires S.OnRead(cell.client.value.session, chunk).1.Data?
    ensures ReadFaulted(cfg, cell, chunk, newKey, random)
  {
  }

  lemma RequestFaults(cfg: Config, cell: Cell, chunk: seq<byte>, newKey: Key, random: seq<byte>)
    requires cell.Fits(cfg) && Ready(cell, FromClient(Read(chunk, newKey, random)))
    requires S.OnRead(cell.client.value.session, chunk).1.Ask?
    ensures ReadFaulted(cfg, cell, chunk, newKey, random)
  {
  }

  lemma ReadFaults(cfg: Config, cell: Cell, chunk: seq<byte>, newKey: Key, random: seq<byte>)
    requires cell.Fits(cfg) && Ready(cell, FromClient(Read(chunk, newKey, random)))
    ensures ReadFaulted(cfg, cell, chunk, newKey, random)
  {
    match S.OnRead(cell.client.value.session, chunk).1 {
      case Data(_) => DataFaults(cfg, cell, chunk, newKey, random);
      case Ask(_, _) => RequestFaults(cfg, cell, chunk, newKey, random);
      case _ =>
    }
  }

  lemma CloseFaults(cell: Cell, sync: bool)
    requires cell.client.Some? && cell.client.value.fault == Fine
    ensures var n := CellClose(cell, sync);
      n.client.Some? && n.client.value.fault == if ClosesOnNull(cell) then NullSession else Fine
  {
  }

  lemma UpstreamFaults(cfg: Config, cell: Cell, u: UpstreamEvent)
    requires cell.Fits(cfg) && Once(cell) && Ready(cell, FromUpstream(u))
    ensures var n := CellUpstream(cfg, cell, u);
      n.client.Some? && n.client.value.fault == FaultOf(cfg, cell, FromUpstream(u))
  {
    match u {
      case UpstreamCloseCallback(sync) =>
        CloseFaults(cell.(upstream := Some(cell.upstream.value.(notice := Given))), sync);
      case UpstreamRead(chunk) =>
      case UpstreamClosed =>
      case _ =>
        if Completes(cell, FromUpstream(u)) {
          FindsPending(cell, FromUpstream(u));
        }
    }
  }

  lemma ClosingFaults(cfg: Config, cell: Cell, c: ClientEvent)
    requires cell.Fits(cfg) && Ready(cell, FromClient(c)) && !c.Read?
    ensures var n := CellClient(cfg, cell, c);
      n.client.Some? && n.client.value.fault == FaultOf(cfg, cell, FromClient(c))
  {
    match c {
      case TcpClosed =>
      case CloseCallback(sync) => CloseFaults(CellNotified(cell), sync);
      case Timer(sync) =>
        var cl := cell.client.value;
        CloseFaults(cell.(client := Some(cl.(timers := cl.timers - 1))), sync);
    }
  }

  /** Exactly what can go wrong in a step of any client, and that no completion misses its request. */
  lemma FaultsExactly(cfg: Config, cell: Cell, e: CellEvent)
    requires cell.Fits(cfg) && Once(cell) && Ready(cell, e) && cell.client.Some?
    ensures var n := CellStep(cfg, cell, e); n.client.Some? && n.client.value.fault == FaultOf(cfg, cell, e)
  {
    match e {
      case Freed =>
      case FromUpstream(u) => UpstreamFaults(cfg, cell, u);
      case FromClient(Read(chunk, newKey, random)) => ReadFaults(cfg, cell, chunk, newKey, random);
      case FromClient(c) => ClosingFaults(cfg, cell, c);
    }
  }

  // Requests.

  /** The octets of a request's buffer that its header takes: those from the address type to the port. */
  ghost function AddressText(cfg: Config, buf: seq<byte>): seq<byte>
    requires cfg.Valid() && ParseRequest(buf).Parsed?
  {
    ParsedIsPrefix(buf);
    if buf[3] in {1, 3, 4} then buf[3..|buf| - |ParseRequest(buf).rest|] else cfg.blank.Bytes()
  }

  lemma HeaderIsText(cfg: Config, buf: seq<byte>)
    requires cfg.Valid() && ParseRequest(buf).Parsed?
    ensures Translate(ParseRequest(buf).value, cfg.blank).Bytes() == AddressText(cfg, buf)
  {
    TranslationKeepsTheOctets(buf, cfg.blank);
    ParsedCodes(buf);
  }

  /**
   * A CONNECT request of any client whose channel is there: the channel waits, the request is pending and its
   * session listed, on its way to connect, with its own vector and, to come, the client's own text of the address.
   */
  lemma OpensExactly(cfg: Config, cell: Cell, chunk: seq<byte>, newKey: Key, random: seq<byte>)
    requires cell.Fits(cfg) && Ready(cell, FromClient(Read(chunk, newKey, random))) && cell.channel.Some?
    requires Requests(cell, FromClient(Read(chunk, newKey, random)))
    ensures var n, buf := CellRead(cfg, cell, chunk, newKey, random), cell.client.value.session.buffer + chunk;
      var iv := random[..cfg.cipher.IvLength()];
      && ParseRequest(buf).Parsed?
      && n.channel == Some(cell.channel.value.(status := WaitingSession))
      && n.client.Some? && n.client.value.key == Some(newKey) && n.pending && n.listed
      && n.upstream == Some(Upstream(R.Relay(R.Connecting, true, Context(iv, 0), Context(iv, 0), iv,
                                             AddressText(cfg, buf), false, false, [], 0, [], [], []),
                                     None, NotYet, cell.id))
  {
    HeaderIsText(cfg, cell.client.value.session.buffer + chunk);
  }

  /**
   * A completion for any client: its channel, whatever became of it, is established with the session, which is
   * bound to it; and if the channel is gone, nothing comes back and a session that connected is asked to close.
   */
  lemma CompletesExactly(cfg: Config, cell: Cell, e: CellEvent)
    requires cell.Fits(cfg) && Once(cell) && Ready(cell, e) && Completes(cell, e)
    ensures var n, r := CellStep(cfg, cell, e), cell.upstream.value.relay;
      && !n.pending && n.listed && n.upstream.Some? && n.upstream.value.bound == Some(cell.id)
      && n.channel == (if cell.channel.Some? then Some(Channel(Established, cell.client.value.key)) else None)
      && var m := n.upstream.value.relay;
         && m.state == (if e.u.Connected? then R.Disconnected else if e.u.ok then R.Authorized else R.Authorizing)
         && m.closing == (r.closing || (cell.channel.None? && e.u.WriteDone?))
         && m.wire == r.wire && m.hasTcp == r.hasTcp
  {
    FindsPending(cell, e);
  }

  /** Making the connection sends the vector and the encrypted header, and nothing is told yet. */
  lemma ConnectsExactly(cfg: Config, cell: Cell)
    requires cell.Fits(cfg) && Ready(cell, FromUpstream(Connected(true)))
    ensures var n, u := CellUpstream(cfg, cell, Connected(true)), cell.upstream.value;
      && n == cell.(upstream := n.upstream) && n.upstream.Some?
      && var m := n.upstream.value;
         && m.relay.state == R.Authorizing && m.relay.hasTcp && m.relay.unacked == u.relay.unacked + 1
         && m.relay.wire == u.relay.wire + (u.relay.iv + Encrypt(cfg.cipher, u.relay.encrypt, u.relay.header).1)
         && m == u.(relay := m.relay)
  {
  }
}
