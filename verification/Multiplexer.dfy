/** The multiplexer: many channels over shared tables, keyed by channel id and by relay request. */
module Multiplexer {
  import opened Bytes
  import opened Socks5
  import opened Channels
  import S = Socks5Sessions
  import R = RelaySessions

  /**
   * The tables of `Socks2SS` and of its `SSClient` (`sessionMap`), with the session objects they lead to:
   * `clients` by the channel id their callbacks captured, `upstreams` by the request they were opened for.
   */
  datatype System = System(
    channelMap: map<Id, Channel>, paddingRequestMap: map<Key, Id>, nextChannelID: Id, sessionMap: set<Key>,
    clients: map<Id, Client>, upstreams: map<Key, Upstream>)

  const EMPTY := System(map[], map[], 0, {}, map[], map[])

  /** What any step needs of the session of request `k`: it fits the cipher, and its clients are there. */
  ghost predicate SessionSane(cfg: Config, s: System, k: Key)
    requires k in s.upstreams
  {
    var u := s.upstreams[k];
    && u.relay.Fits(cfg.cipher) && u.owner in s.clients
    && (u.bound.Some? ==> u.bound.value in s.clients)
  }

  /** A channel holds no session that was destroyed. */
  predicate HeldIsThere(s: System, id: Id)
    requires id in s.channelMap
  {
    s.channelMap[id].ssSession.Some? ==> s.channelMap[id].ssSession.value in s.upstreams
  }

  /** What any step needs of the tables: nothing in them dangles. */
  ghost predicate Sane(cfg: Config, s: System) {
    && cfg.Valid()
    && s.channelMap.Keys <= s.clients.Keys
    && s.sessionMap <= s.upstreams.Keys
    && (forall id | id in s.clients :: id < s.nextChannelID)
    && (forall id | id in s.channelMap :: HeldIsThere(s, id))
    && (forall k | k in s.paddingRequestMap :: s.paddingRequestMap[k] in s.clients)
    && (forall k | k in s.upstreams :: SessionSane(cfg, s, k))
  }

  /** Session `k` is the one opened for the request of client `id`. */
  predicate Owns(s: System, id: Id, k: Key) {
    k in s.upstreams && s.upstreams[k].owner == id
  }

  /** What the tables say of client `id`: its entry holds no session but the one opened for its own request. */
  ghost predicate ClientLinked(s: System, id: Id)
    requires id in s.clients
  {
    var key := s.clients[id].key;
    && id < s.nextChannelID
    && (id in s.channelMap && s.channelMap[id].ssSession.Some? ==>
          s.channelMap[id].ssSession == key && Owns(s, id, key.value))
    && (key.Some? ==> S.Progress(s.clients[id].session.status) >= 2)
  }

  /** What the tables say of the upstream session of request `k`. */
  ghost predicate UpstreamLinked(cfg: Config, s: System, k: Key)
    requires k in s.upstreams
  {
    var u := s.upstreams[k];
    && u.relay.Fits(cfg.cipher)
    && u.owner in s.clients && s.clients[u.owner].key == Some(k)
    && (u.bound.Some? ==> u.bound.value == u.owner)
    && (k in s.paddingRequestMap ==> s.paddingRequestMap[k] == u.owner)
  }

  /** A pending entry is its client's own; the request it names may be gone. */
  ghost predicate PendingLinked(s: System, k: Key)
    requires k in s.paddingRequestMap
  {
    s.paddingRequestMap[k] in s.clients && s.clients[s.paddingRequestMap[k]].key == Some(k)
  }

  /** How the tables refer to one another: every channel has what is its own. */
  ghost predicate Related(cfg: Config, s: System) {
    && cfg.Valid()
    && (forall id: Id | id < s.nextChannelID :: id in s.clients)
    && s.channelMap.Keys <= s.clients.Keys
    && s.sessionMap <= s.upstreams.Keys
    && (forall id | id in s.clients :: ClientLinked(s, id))
    && (forall k | k in s.upstreams :: UpstreamLinked(cfg, s, k))
    && (forall k | k in s.paddingRequestMap :: PendingLinked(s, k))
  }

  ghost predicate Linked(cfg: Config, s: System) {
    Sane(cfg, s) && Related(cfg, s)
  }

  lemma RelatedIsSane(cfg: Config, s: System)
    requires Related(cfg, s)
    ensures Linked(cfg, s)
  {
    forall id | id in s.clients ensures id < s.nextChannelID {
      assert ClientLinked(s, id);
    }
    forall id | id in s.channelMap ensures HeldIsThere(s, id) {
      assert ClientLinked(s, id);
    }
    forall k | k in s.upstreams ensures SessionSane(cfg, s, k) {
      assert UpstreamLinked(cfg, s, k);
    }
    forall k | k in s.paddingRequestMap ensures s.paddingRequestMap[k] in s.clients {
      assert PendingLinked(s, k);
    }
  }

  /** `Free(k)`: the last references to request `k` and its session go, and its address may be used again. */
  datatype Event =
    | Arrive
    | OnClient(id: Id, c: ClientEvent)
    | OnUpstream(key: Key, u: UpstreamEvent)
    | Free(freed: Key)

  /** What the environment can do; the address of a new relay request is not that of one still there. */
  predicate Possible(s: System, e: Event) {
    match e
    case Arrive => true
    case OnClient(id, c) =>
      id in s.clients && ClientReady(s.clients[id], c) && (c.Read? ==> c.newKey !in s.upstreams)
    case OnUpstream(k, u) =>
      && k in s.upstreams && UpstreamReady(s.upstreams[k], u)
      && s.upstreams[k].owner in s.clients && s.clients[s.upstreams[k].owner].fault.Fine?
    case Free(k) =>
      && k in s.upstreams && k !in s.sessionMap
      && s.upstreams[k].owner in s.clients && s.clients[s.upstreams[k].owner].fault.Fine?
      && forall id | id in s.channelMap :: s.channelMap[id].ssSession != Some(k)
  }

  // Single table updates.

  function WithClient(s: System, id: Id, cl: Client): System {
    s.(clients := s.clients[id := cl])
  }

  function WithUpstream(s: System, k: Key, u: Upstream): System {
    s.(upstreams := s.upstreams[k := u])
  }

  function WithChannel(s: System, id: Id, ch: Option<Channel>): System {
    s.(channelMap := if ch.Some? then s.channelMap[id := ch.value] else s.channelMap - {id})
  }

  function WithoutPending(s: System, k: Key): System {
    s.(paddingRequestMap := s.paddingRequestMap - {k})
  }

  function WithoutSession(s: System, k: Key): System {
    s.(sessionMap := s.sessionMap - {k})
  }

  function Faults(s: System, id: Id, f: Fault): System
    requires id in s.clients
  {
    WithClient(s, id, s.clients[id].(fault := f))
  }

  /** `isClosed()` of the upstream session in channel `id`, if there is one. */
  function SessionState(s: System, id: Id): Option<bool> {
    if id in s.channelMap && s.channelMap[id].ssSession.Some? && s.channelMap[id].ssSession.value in s.upstreams
    then Some(s.upstreams[s.channelMap[id].ssSession.value].relay.IsClosed()) else None
  }

  function CloseUpstream(s: System, k: Option<Key>): System {
    if k.Some? && k.value in s.upstreams then
      var u := s.upstreams[k.value];
      WithUpstream(s, k.value, u.(relay := R.Close(u.relay)))
    else s
  }

  /** Asks the ends named to close, and sets the entry of channel `id`. */
  function Rearrange(s: System, id: Id, closeClient: bool, sync: bool, close: Option<Key>, ch: Option<Channel>): System
    requires id in s.clients
  {
    var s1 := if closeClient then WithClient(s, id, AskedToClose(s.clients[id], sync)) else s;
    WithChannel(CloseUpstream(s1, close), id, ch)
  }

  /** `closeChannel`. */
  function CloseChannel(s: System, id: Id, sync: bool): System
    requires id in s.channelMap ==> id in s.clients
  {
    if id !in s.channelMap then s else
      var ch := s.channelMap[id];
      match CloseVerdict(ch.status, s.clients[id].tcpClosed, sync, SessionState(s, id))
      case Null => Faults(s, id, NullSession)
      case Verdict(status, closeClient, closeUpstream) =>
        Rearrange(s, id, closeClient, sync, if closeUpstream then ch.ssSession else None,
                  if status == Closed then None else Some(ch.(status := status)))
  }

  /** A client connected: `setupSocksSession` and `createChanel`. */
  function Arrival(s: System): System {
    s.(channelMap := s.channelMap[s.nextChannelID := Channel(Inited, None)],
       clients := s.clients[s.nextChannelID := NEW_CLIENT],
       nextChannelID := s.nextChannelID + 1)
  }

  function Answer(s: System, id: Id, m: Message, good: bool): System
    requires id in s.clients
  {
    WithClient(s, id, Answered(s.clients[id], m, good))
  }

  /** The negotiate callback. */
  function Negotiation(s: System, id: Id, methods: seq<byte>): System
    requires id in s.clients
  {
    if id !in s.channelMap then s
    else Answer(s, id, Method(ChooseMethod(methods)), METHOD_NO_AUTH in methods)
  }

  /** The request callback of a client session. */
  function OpenRequest(cfg: Config, s: System, id: Id, request: Socks5.Request, newKey: Key, random: seq<byte>): System
    requires cfg.Valid() && |random| == 16 && id in s.clients
  {
    if id !in s.channelMap then s
    else if request.cmd != CMD_CONNECT then Answer(s, id, Reply(STATUS_CMD_NOT_SUPPORTED), false)
    else
      s.(channelMap := s.channelMap[id := s.channelMap[id].(status := WaitingSession)],
         paddingRequestMap := if newKey in s.paddingRequestMap then s.paddingRequestMap
                              else s.paddingRequestMap[newKey := id],
         clients := s.clients[id := s.clients[id].(key := Some(newKey))],
         upstreams := s.upstreams[newKey := NewUpstream(cfg, request, random, id)],
         sessionMap := s.sessionMap + {newKey})
  }

  predicate SessionFits(cfg: Config, s: System, k: Option<Key>) {
    k.Some? && k.value in s.upstreams ==> s.upstreams[k.value].relay.Fits(cfg.cipher)
  }

  /** The read callback of a client session. */
  function Forward(cfg: Config, s: System, id: Id, data: seq<byte>): System
    requires id in s.clients && (id in s.channelMap ==> SessionFits(cfg, s, s.channelMap[id].ssSession))
  {
    if id !in s.channelMap then s
    else if SessionState(s, id).None? then Faults(s, id, NullSession)
    else
      var k := s.channelMap[id].ssSession.value;
      var u := s.upstreams[k];
      WithUpstream(s, k, u.(relay := R.SendPacket(cfg.cipher, u.relay, data)))
  }

  /** The request callback of an upstream session, through `SSClient`. */
  function Complete(s: System, k: Key, ok: bool): System
    requires k in s.upstreams && s.upstreams[k].owner in s.clients
    requires k in s.paddingRequestMap ==> s.paddingRequestMap[k] in s.clients
  {
    if k !in s.sessionMap then s
    else if k !in s.paddingRequestMap then Faults(s, s.upstreams[k].owner, NoPendingRequest)
    else
      var id := s.paddingRequestMap[k];
      var u := s.upstreams[k].(bound := Some(id));
      var s1 := WithoutPending(s, k);
      if id in s.channelMap then
        Answer(WithChannel(WithUpstream(s1, k, u), id, Some(Channel(Established, Some(k)))), id, ReplyFor(ok), ok)
      else
        WithUpstream(s1, k, u.(relay := R.Close(u.relay)))
  }

  /** The read callback installed on an upstream session for channel `id`. */
  function Deliver(s: System, id: Id, plain: seq<byte>): System
    requires id in s.channelMap ==> id in s.clients
  {
    if id !in s.channelMap then s else Answer(s, id, Payload(plain), true)
  }

  function ReadStep(cfg: Config, s: System, id: Id, chunk: seq<byte>, newKey: Key, random: seq<byte>): System
    requires Sane(cfg, s) && id in s.clients && |random| == 16
  {
    var (session, event) := S.OnRead(s.clients[id].session, chunk);
    var s1 := WithClient(s, id, Recorded(s.clients[id], session, chunk, event));
    match event
    case Garbled(_) => Faults(s, id, DecoderOverrun)
    case Negotiate(_, methods) => Negotiation(s1, id, methods)
    case Ask(_, request) => OpenRequest(cfg, s1, id, request, newKey, random)
    case Data(data) =>
      assert forall k | k in s.upstreams :: SessionSane(cfg, s, k);
      Forward(cfg, s1, id, data)
    case _ => s1
  }

  function ClientStep(cfg: Config, s: System, id: Id, c: ClientEvent): System
    requires Sane(cfg, s) && Possible(s, OnClient(id, c))
  {
    var cl := s.clients[id];
    match c
    case Read(chunk, newKey, random) => ReadStep(cfg, s, id, chunk, newKey, random)
    case TcpClosed => WithClient(s, id, cl.(tcpClosed := true))
    case CloseCallback(sync) =>
      var n := cl.(session := cl.session.(status := S.Disconnected), notified := true);
      CloseChannel(WithClient(s, id, n), id, sync)
    case Timer(sync) => CloseChannel(WithClient(s, id, cl.(timers := cl.timers - 1)), id, sync)
  }

  function UpstreamStep(cfg: Config, s: System, k: Key, e: UpstreamEvent): System
    requires Sane(cfg, s) && Possible(s, OnUpstream(k, e))
  {
    var u := s.upstreams[k];
    match e
    case Connected(ok) =>
      var relay := R.OnConnect(cfg.cipher, u.relay, ok);
      if ok then WithUpstream(s, k, u.(relay := relay))
      else Complete(WithUpstream(s, k, u.(relay := relay, notice := Owed)), k, false)
    case WriteDone(ok) =>
      var (relay, completion) := R.OnWriteComplete(u.relay, ok);
      var s1 := WithUpstream(s, k, u.(relay := relay));
      if completion.None? then s1 else Complete(s1, k, completion.value)
    case UpstreamRead(chunk) =>
      (match R.OnReadComplete(cfg.cipher, u.relay, chunk)
       case None => Faults(s, u.owner, ShortIv)
       case Some((relay, plain)) =>
         Deliver(WithUpstream(s, k, u.(relay := relay)), u.bound.value, plain))
    case UpstreamClosed =>
      WithUpstream(s, k, u.(relay := R.OnClosed(u.relay), notice := Owed))
    case UpstreamCloseCallback(sync) =>
      var s1 := WithUpstream(s, k, u.(notice := Given));
      var s2 := if u.bound.Some? then CloseChannel(s1, u.bound.value, sync) else s1;
      if u.relay.hasTcp then WithoutSession(s2, k) else s2
  }

  function Step(cfg: Config, s: System, e: Event): System
    requires Sane(cfg, s) && Possible(s, e)
  {
    match e
    case Arrive => Arrival(s)
    case OnClient(id, c) => ClientStep(cfg, s, id, c)
    case OnUpstream(k, u) => UpstreamStep(cfg, s, k, u)
    case Free(k) => s.(upstreams := s.upstreams - {k})
  }

  /**
   * The event is a CONNECT request whose address an old request had, and that one's entry is still pending: the
   * source's `insert` then leaves the old entry in place.
   */
  predicate Stale(s: System, e: Event)
    requires Possible(s, e)
  {
    match e
    case OnClient(id, Read(chunk, newKey, _)) =>
      var event := S.OnRead(s.clients[id].session, chunk).1;
      event.Ask? && event.request.cmd == CMD_CONNECT && id in s.channelMap && newKey in s.paddingRequestMap
    case _ => false
  }

  /** What can happen, short of such an address being used again. */
  predicate Proper(s: System, e: Event) {
    Possible(s, e) && !Stale(s, e)
  }

  // One channel of the many.

  /** All that the tables hold for channel `id`. */
  function View(s: System, id: Id): Cell {
    var client := if id in s.clients then Some(s.clients[id]) else None;
    var k := if client.Some? then client.value.key else None;
    Cell(id, client,
         if id in s.channelMap then Some(s.channelMap[id]) else None,
         if k.Some? && Owns(s, id, k.value) then Some(s.upstreams[k.value]) else None,
         k.Some? && k.value in s.paddingRequestMap && s.paddingRequestMap[k.value] == id,
         k.Some? && Owns(s, id, k.value) && k.value in s.sessionMap)
  }

  /** The channel an event concerns, and what it is for that channel. */
  function Concerns(s: System, e: Event): Id
    requires Possible(s, e)
  {
    match e
    case Arrive => s.nextChannelID
    case OnClient(id, _) => id
    case OnUpstream(k, _) => s.upstreams[k].owner
    case Free(k) => s.upstreams[k].owner
  }

  function Local(e: Event): CellEvent {
    match e
    case Arrive => Accept
    case OnClient(_, c) => FromClient(c)
    case OnUpstream(_, u) => FromUpstream(u)
    case Free(_) => Freed
  }
}
