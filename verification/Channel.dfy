/**
 * One channel: a client connection, the upstream connection opened for its request, and the entry that ties
 * them together. This machine knows no other channel; `Multiplexer` runs many at once over shared tables.
 */
module Channels {
  import opened Bytes
  import opened Cipher
  import opened Socks5
  import opened RelayHeader
  import S = Socks5Sessions
  import R = RelaySessions

  /** Channel ids, and the identities of relay requests (the source uses their addresses). */
  type Id = nat
  type Key = nat

  datatype ChannelStatus = Inited | WaitingSession | Established | Closing | Closed

  datatype Channel = Channel(status: ChannelStatus, ssSession: Option<Key>)

  /** What a client is sent. */
  datatype Message = Method(code: byte) | Reply(status: byte) | Payload(data: seq<byte>)

  /** Why a step could not be carried out as written: a null session, `assert(false)`, or a read past a buffer. */
  datatype Fault = Fine | NullSession | NoPendingRequest | DecoderOverrun | ShortIv

  /**
   * A client connection. `tcpClosed` is its TCP session's `isClosed()`, and `notified` tells that the close
   * callback ran; `timers` counts the delayed closes posted for it. `key` is the relay request made for it.
   * `received` records what came in, and `greeting`, `asked` and `forwarded` what its callbacks were given.
   */
  datatype Client = Client(
    session: S.Session, tcpClosed: bool, notified: bool, closing: bool, timers: nat, sent: seq<Message>,
    key: Option<Key>, fault: Fault,
    received: seq<byte>, greeting: seq<byte>, asked: seq<byte>, forwarded: seq<byte>)

  /** Whether an upstream session's close callback is still to run. */
  datatype Notice = NotYet | Owed | Given

  /**
   * An upstream session as the client object keeps it: `bound` is the channel id its read and close callbacks
   * captured, and `owner` the channel its request came from.
   */
  datatype Upstream = Upstream(relay: R.Relay, bound: Option<Id>, notice: Notice, owner: Id)

  /** The cipher in use, and the address of a default-constructed socket address. */
  datatype Config = Config(cipher: Cipher, blank: Address) {
    predicate Valid() {
      cipher.Valid() && blank.Valid() && (blank.IPv4? || blank.IPv6?)
    }
  }

  const NEW_CLIENT := Client(S.FRESH, false, false, false, 0, [], None, Fine, [], [], [], [])

  datatype ClientEvent =
    | Read(chunk: seq<byte>, newKey: Key, random: seq<byte>)
    | TcpClosed
    | CloseCallback(sync: bool)
    | Timer(sync: bool)

  datatype UpstreamEvent =
    | Connected(ok: bool)
    | WriteDone(ok: bool)
    | UpstreamRead(chunk: seq<byte>)
    | UpstreamClosed
    | UpstreamCloseCallback(sync: bool)

  /** What the TCP library and the clock can do to a client connection. */
  predicate ClientReady(cl: Client, e: ClientEvent) {
    && cl.fault.Fine?
    && match e
       case Read(_, _, random) => !cl.tcpClosed && |random| == 16
       case TcpClosed => !cl.tcpClosed
       case CloseCallback(_) => cl.tcpClosed && !cl.notified
       case Timer(_) => cl.timers > 0
  }

  /**
   * What the TCP library can do to an upstream connection: one connect result, at most one write completion a
   * send, one close, and no data before the request callback ran.
   */
  predicate UpstreamReady(u: Upstream, e: UpstreamEvent) {
    match e
    case Connected(_) => u.relay.state == R.Connecting
    case WriteDone(_) => u.relay.unacked > 0
    case UpstreamRead(_) => u.relay.hasTcp && !u.relay.IsClosed() && u.bound.Some?
    case UpstreamClosed => u.relay.hasTcp && !u.relay.IsClosed()
    case UpstreamCloseCallback(_) => u.notice.Owed?
  }

  // What both machines do to one record.

  function Recorded(cl: Client, session: S.Session, chunk: seq<byte>, e: S.Event): Client {
    cl.(session := session, received := cl.received + chunk,
        greeting := if e.Negotiate? then cl.greeting + e.buffer else cl.greeting,
        asked := if e.Ask? then cl.asked + e.buffer else cl.asked,
        forwarded := if e.Data? then cl.forwarded + e.chunk else cl.forwarded)
  }

  /** Sends `m`, and posts a delayed close unless `good`. */
  function Answered(cl: Client, m: Message, good: bool): Client {
    cl.(sent := cl.sent + [m], timers := if good then cl.timers else cl.timers + 1)
  }

  /** Asks the client's TCP session to close; `sync` tells whether it is closed at once. */
  function AskedToClose(cl: Client, sync: bool): Client {
    cl.(closing := true, tcpClosed := cl.tcpClosed || sync)
  }

  function NewUpstream(cfg: Config, request: Request, random: seq<byte>, owner: Id): (u: Upstream)
    requires cfg.Valid() && |random| == 16
    ensures u.relay.Fits(cfg.cipher)
  {
    var header := Translate(request, cfg.blank).Bytes();
    Upstream(R.Fresh(cfg.cipher, header, random[..cfg.cipher.IvLength()]), None, NotYet, owner)
  }

  function ChooseMethod(methods: seq<byte>): byte {
    if METHOD_NO_AUTH in methods then METHOD_NO_AUTH else METHOD_NOT_ACCEPT
  }

  function ReplyFor(ok: bool): Message {
    Reply(if ok then STATUS_SUCCESS else STATUS_FAILED)
  }

  /** What `closeChannel` decides: the new status and whom to close, or that it reaches a null session. */
  datatype Verdict = Verdict(status: ChannelStatus, closeClient: bool, closeUpstream: bool) | Null

  function CloseVerdict(status: ChannelStatus, clientClosed: bool, sync: bool, upstream: Option<bool>): Verdict {
    match status
    case Inited | WaitingSession =>
      if clientClosed then Verdict(Closed, false, false) else Verdict(Closing, true, false)
    case Established =>
      if upstream.None? then Null
      else if (clientClosed || sync) && upstream.value then Verdict(Closed, !clientClosed, false)
      else Verdict(Closing, !clientClosed, !upstream.value)
    case Closing =>
      if !clientClosed then Verdict(Closing, false, false)
      else if upstream.None? then Null
      else Verdict(if upstream.value then Closed else Closing, false, false)
    case Closed => Verdict(Closed, false, false)
  }

  // The one-channel machine.

  /** `pending`: the request map holds the channel's request. `listed`: the client object holds its session. */
  datatype Cell = Cell(
    id: Id, client: Option<Client>, channel: Option<Channel>, upstream: Option<Upstream>, pending: bool, listed: bool)
  {
    predicate Fits(cfg: Config) {
      && cfg.Valid()
      && (upstream.Some? ==> client.Some? && upstream.value.relay.Fits(cfg.cipher))
      && (channel.Some? ==> client.Some?)
    }
  }

  function Nothing(id: Id): Cell {
    Cell(id, None, None, None, false, false)
  }

  /** `Freed`: the upstream session and its request are destroyed, as nothing refers to them any more. */
  datatype CellEvent = Accept | FromClient(c: ClientEvent) | FromUpstream(u: UpstreamEvent) | Freed

  predicate Ready(cell: Cell, e: CellEvent) {
    match e
    case Accept => cell.client.None?
    case FromClient(c) => cell.client.Some? && ClientReady(cell.client.value, c)
    case FromUpstream(u) =>
      && cell.client.Some? && cell.client.value.fault.Fine?
      && cell.upstream.Some? && UpstreamReady(cell.upstream.value, u)
    case Freed =>
      && cell.client.Some? && cell.client.value.fault.Fine?
      && cell.upstream.Some? && !cell.listed
      && (cell.channel.Some? ==> cell.channel.value.ssSession.None?)
  }

  function Faulted(cell: Cell, f: Fault): Cell
    requires cell.client.Some?
  {
    cell.(client := Some(cell.client.value.(fault := f)))
  }

  /** `isClosed()` of the channel's upstream session, if it has one. */
  function UpstreamState(cell: Cell): Option<bool> {
    if cell.channel.Some? && cell.channel.value.ssSession.Some? && cell.upstream.Some?
    then Some(cell.upstream.value.relay.IsClosed()) else None
  }

  /** The cell with either end asked to close, and `ch` for its entry. */
  function Rearranged(cell: Cell, closeClient: bool, sync: bool, closeUpstream: bool, ch: Option<Channel>): Cell
    requires cell.client.Some?
  {
    cell.(client := if closeClient then Some(AskedToClose(cell.client.value, sync)) else cell.client,
          channel := ch,
          upstream := if closeUpstream && cell.upstream.Some?
            then Some(cell.upstream.value.(relay := R.Close(cell.upstream.value.relay))) else cell.upstream)
  }

  function CellClose(cell: Cell, sync: bool): Cell
    requires cell.channel.Some? ==> cell.client.Some?
  {
    if cell.channel.None? then cell else
      var ch := cell.channel.value;
      match CloseVerdict(ch.status, cell.client.value.tcpClosed, sync, UpstreamState(cell))
      case Null => Faulted(cell, NullSession)
      case Verdict(status, closeClient, closeUpstream) =>
        Rearranged(cell, closeClient, sync, closeUpstream,
                   if status == Closed then None else Some(ch.(status := status)))
  }

  function CellRead(cfg: Config, cell: Cell, chunk: seq<byte>, newKey: Key, random: seq<byte>): (n: Cell)
    requires cell.Fits(cfg) && cell.client.Some? && |random| == 16
    ensures n.Fits(cfg)
  {
    var (session, event) := S.OnRead(cell.client.value.session, chunk);
    var cl := Recorded(cell.client.value, session, chunk, event);
    var next := cell.(client := Some(cl));
    match event
    case Garbled(_) => Faulted(cell, DecoderOverrun)
    case Negotiate(_, methods) =>
      if cell.channel.None? then next
      else next.(client := Some(Answered(cl, Method(ChooseMethod(methods)), METHOD_NO_AUTH in methods)))
    case Ask(_, request) =>
      if cell.channel.None? then next
      else if request.cmd != CMD_CONNECT then
        next.(client := Some(Answered(cl, Reply(STATUS_CMD_NOT_SUPPORTED), false)))
      else
        next.(client := Some(cl.(key := Some(newKey))),
              channel := Some(cell.channel.value.(status := WaitingSession)),
              upstream := Some(NewUpstream(cfg, request, random, cell.id)),
              pending := true, listed := true)
    case Data(data) =>
      if cell.channel.None? then next
      else if UpstreamState(cell).None? then Faulted(next, NullSession)
      else
        var u := cell.upstream.value;
        next.(upstream := Some(u.(relay := R.SendPacket(cfg.cipher, u.relay, data))))
    case _ => next
  }

  /** The request callback: the answer goes to the client, or the session is closed if the client is gone. */
  function CellComplete(cell: Cell, ok: bool): Cell
    requires cell.client.Some? && cell.upstream.Some?
  {
    var u := cell.upstream.value.(bound := Some(cell.id));
    if !cell.listed then cell
    else if !cell.pending then Faulted(cell, NoPendingRequest)
    else if cell.channel.Some? then
      cell.(pending := false, upstream := Some(u),
            channel := Some(Channel(Established, cell.client.value.key)),
            client := Some(Answered(cell.client.value, ReplyFor(ok), ok)))
    else
      cell.(pending := false, upstream := Some(u.(relay := R.Close(u.relay))))
  }

  /** The read callback of the upstream session: the client gets what was read, if its channel is still there. */
  function CellPassed(cell: Cell, relay: R.Relay, plain: seq<byte>): Cell
    requires cell.client.Some? && cell.upstream.Some?
  {
    var next := cell.(upstream := Some(cell.upstream.value.(relay := relay)));
    if cell.channel.None? then next
    else next.(client := Some(Answered(cell.client.value, Payload(plain), true)))
  }

  function CellUpstream(cfg: Config, cell: Cell, e: UpstreamEvent): (n: Cell)
    requires cell.Fits(cfg) && cell.client.Some? && cell.upstream.Some? && UpstreamReady(cell.upstream.value, e)
    ensures n.Fits(cfg)
  {
    var u := cell.upstream.value;
    match e
    case Connected(ok) =>
      var relay := R.OnConnect(cfg.cipher, u.relay, ok);
      if ok then cell.(upstream := Some(u.(relay := relay)))
      else CellComplete(cell.(upstream := Some(u.(relay := relay, notice := Owed))), false)
    case WriteDone(ok) =>
      var (relay, completion) := R.OnWriteComplete(u.relay, ok);
      var next := cell.(upstream := Some(u.(relay := relay)));
      if completion.None? then next else CellComplete(next, completion.value)
    case UpstreamRead(chunk) =>
      (match R.OnReadComplete(cfg.cipher, u.relay, chunk)
       case None => Faulted(cell, ShortIv)
       case Some((relay, plain)) => CellPassed(cell, relay, plain))
    case UpstreamClosed =>
      cell.(upstream := Some(u.(relay := R.OnClosed(u.relay), notice := Owed)))
    case UpstreamCloseCallback(sync) =>
      var told := cell.(upstream := Some(u.(notice := Given)));
      var next := if u.bound.Some? then CellClose(told, sync) else told;
      if u.relay.hasTcp then next.(listed := false) else next
  }

  function CellClient(cfg: Config, cell: Cell, e: ClientEvent): (n: Cell)
    requires cell.Fits(cfg) && cell.client.Some? && ClientReady(cell.client.value, e)
    ensures n.Fits(cfg)
  {
    var cl := cell.client.value;
    match e
    case Read(chunk, newKey, random) => CellRead(cfg, cell, chunk, newKey, random)
    case TcpClosed => cell.(client := Some(cl.(tcpClosed := true)))
    case CloseCallback(sync) => CellClose(CellNotified(cell), sync)
    case Timer(sync) => CellClose(cell.(client := Some(cl.(timers := cl.timers - 1))), sync)
  }

  function CellNotified(cell: Cell): Cell
    requires cell.client.Some?
  {
    var cl := cell.client.value;
    cell.(client := Some(cl.(session := cl.session.(status := S.Disconnected), notified := true)))
  }

  function CellStep(cfg: Config, cell: Cell, e: CellEvent): (n: Cell)
    requires cell.Fits(cfg) && Ready(cell, e)
    ensures n.Fits(cfg)
  {
    match e
    case Accept => cell.(client := Some(NEW_CLIENT), channel := Some(Channel(Inited, None)))
    case FromClient(c) => CellClient(cfg, cell, c)
    case FromUpstream(u) => CellUpstream(cfg, cell, u)
    case Freed => cell.(upstream := None)
  }
}
