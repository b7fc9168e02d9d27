/** What each event does to each session, each pending entry and each client, addresses used again included. */
module Effects {
  import opened Bytes
  import opened Socks5
  import opened Channels
  import opened Completion
  import opened Multiplexer
  import S = Socks5Sessions
  import R = RelaySessions

  // The invariant of lookup by address.

  ghost predicate ClientKeyed(cl: Client) {
    cl.fault != NoPendingRequest && (cl.key.Some? ==> S.Progress(cl.session.status) >= 2)
  }

  /** The session at address `k` is its owner's, and is pending, bound and listed as its state wants. */
  ghost predicate SessionKeyed(s: System, k: Key)
    requires k in s.upstreams
  {
    var u := s.upstreams[k];
    && Stage(u, k in s.paddingRequestMap, k in s.sessionMap)
    && u.owner in s.clients && s.clients[u.owner].key == Some(k)
    && (u.bound.Some? ==> u.bound.value in s.clients && s.clients[u.bound.value].key == Some(k))
  }

  /** What lookup by address rests on, whatever happens. */
  ghost predicate Keyed(cfg: Config, s: System) {
    && Sane(cfg, s)
    && (forall id | id in s.clients :: ClientKeyed(s.clients[id]))
    && (forall k | k in s.upstreams :: SessionKeyed(s, k))
    && (forall k | k in s.paddingRequestMap :: PendingLinked(s, k))
  }

  lemma EmptyIsKeyed(cfg: Config)
    requires cfg.Valid()
    ensures Keyed(cfg, EMPTY)
  {
  }

  /** A client's record that a close or a fault may have changed. */
  predicate ClientSimilar(cl: Client, n: Client) {
    && n.key == cl.key && n.session == cl.session && n.sent == cl.sent
    && (n.fault == cl.fault || n.fault == NullSession)
  }

  predicate UpstreamSimilar(u: Upstream, n: Upstream) {
    n == u || n == u.(relay := R.Close(u.relay))
  }

  /** What closing a channel leaves alone. */
  ghost predicate Similar(s: System, n: System) {
    && n.paddingRequestMap == s.paddingRequestMap && n.sessionMap == s.sessionMap
    && n.clients.Keys == s.clients.Keys && n.upstreams.Keys == s.upstreams.Keys
    && (forall id | id in s.clients :: ClientSimilar(s.clients[id], n.clients[id]))
    && (forall k | k in s.upstreams :: UpstreamSimilar(s.upstreams[k], n.upstreams[k]))
  }

  lemma CloseSimilar(s: System, id: Id, sync: bool)
    requires s.channelMap.Keys <= s.clients.Keys
    ensures Similar(s, CloseChannel(s, id, sync))
  {
    if id in s.channelMap {
      var cl, ch := s.clients[id], s.channelMap[id];
      var v := CloseVerdict(ch.status, cl.tcpClosed, sync, SessionState(s, id));
      if v.Verdict? {
        RearrangeSimilar(s, id, v.closeClient, sync, if v.closeUpstream then ch.ssSession else None,
                         if v.status == Closed then None else Some(ch.(status := v.status)));
      }
    }
  }

  lemma RearrangeSimilar(s: System, id: Id, closeClient: bool, sync: bool, close: Option<Key>, ch: Option<Channel>)
    requires id in s.clients
    ensures Similar(s, Rearrange(s, id, closeClient, sync, close, ch))
  {
  }

  // Completions.

  /** The event runs the request callback of the session opened for `k`. */
  predicate CompletesKey(s: System, e: Event, k: Key)
    requires Possible(s, e)
  {
    match e
    case OnUpstream(j, Connected(ok)) => j == k && !ok
    case OnUpstream(j, WriteDone(_)) => j == k && s.upstreams[k].relay.state == R.Authorizing
    case _ => false
  }

  /** A completion finds its request pending and its session listed, and not bound yet. */
  lemma FindsRequest(cfg: Config, s: System, e: Event, k: Key)
    requires Keyed(cfg, s) && Possible(s, e) && CompletesKey(s, e, k)
    ensures k in s.upstreams && k in s.paddingRequestMap && k in s.sessionMap && s.upstreams[k].bound.None?
  {
    assert SessionKeyed(s, k);
  }

  // What an event does, by address and by client.

  /** Client `e.id` makes a request that its channel is there for. */
  predicate Requesting(s: System, e: Event)
    requires Possible(s, e)
  {
    match e
    case OnClient(id, Read(chunk, _, _)) =>
      var event := S.OnRead(s.clients[id].session, chunk).1;
      event.Ask? && event.request.cmd == CMD_CONNECT && id in s.channelMap
    case _ => false
  }

  /** It makes it at address `k`. */
  predicate Asking(s: System, e: Event, k: Key)
    requires Possible(s, e)
  {
    Requesting(s, e) && e.c.newKey == k
  }

  /** The event closes the session at address `k`. */
  predicate ClosesKey(e: Event, k: Key) {
    e == OnUpstream(k, UpstreamClosed) || e == OnUpstream(k, Connected(false))
  }

  /** A read of the session at `k` is defined: the peer's initialisation vector came, or comes whole. */
  predicate ReadDefined(cfg: Config, u: Upstream, chunk: seq<byte>) {
    u.relay.ivPending ==> |chunk| >= cfg.cipher.IvLength()
  }

  /** The event answers client `id`, or passes data to it, by way of the session at address `k`. */
  predicate Serves(cfg: Config, s: System, e: Event, id: Id, k: Key)
    requires Possible(s, e) && k in s.upstreams
  {
    && id in s.channelMap && e.OnUpstream? && e.key == k
    && (|| (CompletesKey(s, e, k) && k in s.sessionMap && k in s.paddingRequestMap && s.paddingRequestMap[k] == id)
        || (e.u.UpstreamRead? && s.upstreams[k].bound == Some(id) && ReadDefined(cfg, s.upstreams[k], e.u.chunk)))
  }

  /** The event has the multiplexer send something to client `id`. */
  predicate Speaks(cfg: Config, s: System, e: Event, id: Id)
    requires Possible(s, e)
  {
    match e
    case OnClient(j, Read(chunk, _, _)) =>
      var event := S.OnRead(s.clients[j].session, chunk).1;
      j == id && id in s.channelMap && (event.Negotiate? || (event.Ask? && event.request.cmd != CMD_CONNECT))
    case OnUpstream(k, _) => Serves(cfg, s, e, id, k)
    case _ => false
  }

  ghost predicate SessionEffect(s: System, e: Event, n: System, k: Key)
    requires Possible(s, e) && k in s.upstreams
  {
    if e == Free(k) then k !in n.upstreams
    else
      && k in n.upstreams
      && var u, v := s.upstreams[k], n.upstreams[k];
         && v.owner == u.owner
         && (v.relay.IsClosed() <==> u.relay.IsClosed() || ClosesKey(e, k))
         && (v.relay.hasTcp <==> u.relay.hasTcp || e == OnUpstream(k, Connected(true)))
         && v.bound ==
              if CompletesKey(s, e, k) && k in s.paddingRequestMap then Some(s.paddingRequestMap[k]) else u.bound
  }

  ghost predicate NewSession(s: System, e: Event, n: System, k: Key)
    requires Possible(s, e) && k in n.upstreams
  {
    Asking(s, e, k) && n.upstreams[k].owner == e.id && n.upstreams[k].bound.None? && !n.upstreams[k].relay.IsClosed()
  }

  /** A pending entry goes with its completion, and comes with a request; one that is there keeps its channel. */
  ghost predicate PendingEffect(s: System, e: Event, n: System, k: Key)
    requires Possible(s, e)
  {
    && (k in n.paddingRequestMap <==> (k in s.paddingRequestMap && !CompletesKey(s, e, k)) || Asking(s, e, k))
    && (k in n.paddingRequestMap ==>
          n.paddingRequestMap[k] == if k in s.paddingRequestMap then s.paddingRequestMap[k] else e.id)
  }

  ghost predicate ClientEffect(cfg: Config, s: System, e: Event, n: System, id: Id)
    requires Possible(s, e) && id in s.clients
  {
    && id in n.clients
    && var cl, m := s.clients[id], n.clients[id];
       && |m.sent| == |cl.sent| + (if Speaks(cfg, s, e, id) then 1 else 0)
       && cl.sent <= m.sent
       && S.Progress(m.session.status) >= S.Progress(cl.session.status)
       && m.key == (if Requesting(s, e) && e.id == id then Some(e.c.newKey) else cl.key)
       && (Requesting(s, e) && e.id == id ==> S.Progress(m.session.status) >= 2)
  }

  ghost predicate Effect(cfg: Config, s: System, e: Event, n: System)
    requires Possible(s, e)
  {
    && (forall k | k in s.upstreams :: SessionEffect(s, e, n, k))
    && (forall k | k in n.upstreams && k !in s.upstreams :: NewSession(s, e, n, k))
    && (forall k {:trigger PendingEffect(s, e, n, k)} :: PendingEffect(s, e, n, k))
    && (forall id | id in s.clients :: ClientEffect(cfg, s, e, n, id))
    && (forall id | id in n.clients && id !in s.clients :: n.clients[id] == NEW_CLIENT)
  }

  /** From `s` to `n` nothing but the session at `k0` and the record of client `id0` changed, short of closing. */
  ghost predicate Delta(s: System, n: System, k0: Option<Key>, id0: Option<Id>) {
    && n.upstreams.Keys == s.upstreams.Keys && n.clients.Keys == s.clients.Keys
    && (forall k | k in s.upstreams && k0 != Some(k) :: UpstreamSimilar(s.upstreams[k], n.upstreams[k]))
    && (forall id | id in s.clients && id0 != Some(id) :: ClientSimilar(s.clients[id], n.clients[id]))
  }

  /** The event is about no other session and no other client. */
  ghost predicate About(cfg: Config, s: System, e: Event, k0: Option<Key>, id0: Option<Id>)
    requires Possible(s, e)
  {
    && !e.Free? && !Requesting(s, e)
    && (forall k: Key | k0 != Some(k) ::
          !ClosesKey(e, k) && !CompletesKey(s, e, k) && e != OnUpstream(k, Connected(true)))
    && (forall id: Id | id0 != Some(id) :: !Speaks(cfg, s, e, id))
  }

  lemma OtherSession(s: System, e: Event, n: System, k: Key)
    requires Possible(s, e) && k in s.upstreams && k in n.upstreams
    requires UpstreamSimilar(s.upstreams[k], n.upstreams[k])
    requires e != Free(k) && !ClosesKey(e, k) && !CompletesKey(s, e, k) && e != OnUpstream(k, Connected(true))
    ensures SessionEffect(s, e, n, k)
  {
  }

  lemma OtherClient(cfg: Config, s: System, e: Event, n: System, id: Id)
    requires Possible(s, e) && id in s.clients && id in n.clients && ClientSimilar(s.clients[id], n.clients[id])
    requires !Speaks(cfg, s, e, id) && !Requesting(s, e)
    ensures ClientEffect(cfg, s, e, n, id)
  {
  }

  lemma OtherPending(s: System, e: Event, n: System, k: Key)
    requires Possible(s, e) && !Requesting(s, e)
    requires k in n.paddingRequestMap <==> k in s.paddingRequestMap && !CompletesKey(s, e, k)
    requires k in n.paddingRequestMap ==> n.paddingRequestMap[k] == s.paddingRequestMap[k]
    ensures PendingEffect(s, e, n, k)
  {
  }

  lemma DeltaEffect(cfg: Config, s: System, e: Event, n: System, k0: Option<Key>, id0: Option<Id>)
    requires Possible(s, e) && Delta(s, n, k0, id0) && About(cfg, s, e, k0, id0)
    requires k0.Some? && k0.value in s.upstreams ==> SessionEffect(s, e, n, k0.value)
    requires id0.Some? && id0.value in s.clients ==> ClientEffect(cfg, s, e, n, id0.value)
    requires n.paddingRequestMap == if k0.Some? && CompletesKey(s, e, k0.value) then s.paddingRequestMap - {k0.value}
                                    else s.paddingRequestMap
    ensures Effect(cfg, s, e, n)
  {
    forall k | k in s.upstreams ensures SessionEffect(s, e, n, k) {
      if k0 != Some(k) {
        OtherSession(s, e, n, k);
      }
    }
    forall k: Key ensures PendingEffect(s, e, n, k) {
      OtherPending(s, e, n, k);
    }
    forall id | id in s.clients ensures ClientEffect(cfg, s, e, n, id) {
      if id0 != Some(id) {
        OtherClient(cfg, s, e, n, id);
      }
    }
  }

  // Events of a client.

  lemma ClientAbout(cfg: Config, s: System, id: Id, c: ClientEvent, k0: Option<Key>)
    requires Possible(s, OnClient(id, c)) && !Requesting(s, OnClient(id, c))
    ensures About(cfg, s, OnClient(id, c), k0, Some(id))
  {
  }

  lemma ClosingEffect(cfg: Config, s: System, id: Id, c: ClientEvent, cl: Client, sync: bool)
    requires Sane(cfg, s) && Possible(s, OnClient(id, c)) && c in {CloseCallback(sync), Timer(sync)}
    requires cl.sent == s.clients[id].sent && cl.key == s.clients[id].key
    requires S.Progress(cl.session.status) >= S.Progress(s.clients[id].session.status)
    ensures Effect(cfg, s, OnClient(id, c), CloseChannel(WithClient(s, id, cl), id, sync))
  {
    var s1 := WithClient(s, id, cl);
    var n := CloseChannel(s1, id, sync);
    CloseSimilar(s1, id, sync);
    ClientAbout(cfg, s, id, c, None);
    assert ClientSimilar(s1.clients[id], n.clients[id]);
    SimilarDelta(s, s1, n, None, id);
    DeltaEffect(cfg, s, OnClient(id, c), n, None, Some(id));
  }

  lemma SimilarDelta(s: System, s1: System, n: System, k0: Option<Key>, id: Id)
    requires Similar(s1, n) && id in s.clients && id in s1.clients && s1 == WithClient(s, id, s1.clients[id])
    ensures Delta(s, n, k0, Some(id)) && n.paddingRequestMap == s.paddingRequestMap
  {
    forall j | j in s.clients && j != id ensures ClientSimilar(s.clients[j], n.clients[j]) {
      assert ClientSimilar(s1.clients[j], n.clients[j]);
    }
    forall k | k in s.upstreams ensures UpstreamSimilar(s.upstreams[k], n.upstreams[k]) {
      assert UpstreamSimilar(s1.upstreams[k], n.upstreams[k]);
    }
  }

  lemma ClientUpdateEffect(cfg: Config, s: System, id: Id, c: ClientEvent, cl: Client)
    requires Possible(s, OnClient(id, c)) && !Requesting(s, OnClient(id, c))
    requires ClientEffect(cfg, s, OnClient(id, c), WithClient(s, id, cl), id)
    ensures Effect(cfg, s, OnClient(id, c), WithClient(s, id, cl))
  {
    ClientAbout(cfg, s, id, c, None);
    DeltaEffect(cfg, s, OnClient(id, c), WithClient(s, id, cl), None, Some(id));
  }

  /** A read that makes no request and passes no data on. */
  ghost predicate Answering(cfg: Config, s: System, id: Id, chunk: seq<byte>, newKey: Key, random: seq<byte>) {
    && Sane(cfg, s) && Possible(s, OnClient(id, Read(chunk, newKey, random)))
    && !Requesting(s, OnClient(id, Read(chunk, newKey, random)))
    && !S.OnRead(s.clients[id].session, chunk).1.Data?
  }

  lemma AnsweringUpdates(cfg: Config, s: System, id: Id, chunk: seq<byte>, newKey: Key, random: seq<byte>)
    requires Answering(cfg, s, id, chunk, newKey, random)
    ensures var n := ReadStep(cfg, s, id, chunk, newKey, random);
      id in n.clients && n == WithClient(s, id, n.clients[id])
  {
  }

  lemma AnsweringClient(cfg: Config, s: System, id: Id, chunk: seq<byte>, newKey: Key, random: seq<byte>)
    requires Answering(cfg, s, id, chunk, newKey, random)
    ensures var n := ReadStep(cfg, s, id, chunk, newKey, random);
      ClientEffect(cfg, s, OnClient(id, Read(chunk, newKey, random)), n, id)
  {
  }

  lemma AnsweringEffect(cfg: Config, s: System, id: Id, chunk: seq<byte>, newKey: Key, random: seq<byte>)
    requires Answering(cfg, s, id, chunk, newKey, random)
    ensures Effect(cfg, s, OnClient(id, Read(chunk, newKey, random)), ReadStep(cfg, s, id, chunk, newKey, random))
  {
    AnsweringUpdates(cfg, s, id, chunk, newKey, random);
    AnsweringClient(cfg, s, id, chunk, newKey, random);
    ClientUpdateEffect(cfg, s, id, Read(chunk, newKey, random),
                       ReadStep(cfg, s, id, chunk, newKey, random).clients[id]);
  }

  /** A read that passes data on. */
  ghost predicate Forwarding(cfg: Config, s: System, id: Id, chunk: seq<byte>, newKey: Key, random: seq<byte>) {
    && Sane(cfg, s) && Possible(s, OnClient(id, Read(chunk, newKey, random)))
    && S.OnRead(s.clients[id].session, chunk).1.Data?
  }

  lemma ForwardingDelta(cfg: Config, s: System, id: Id, chunk: seq<byte>, newKey: Key, random: seq<byte>)
    requires Forwarding(cfg, s, id, chunk, newKey, random)
    ensures var n, k := ReadStep(cfg, s, id, chunk, newKey, random),
                        if id in s.channelMap then s.channelMap[id].ssSession else None;
      Delta(s, n, k, Some(id)) && n.paddingRequestMap == s.paddingRequestMap
  {
  }

  lemma ForwardingSession(cfg: Config, s: System, id: Id, chunk: seq<byte>, newKey: Key, random: seq<byte>, k: Key)
    requires Forwarding(cfg, s, id, chunk, newKey, random)
    requires id in s.channelMap && s.channelMap[id].ssSession == Some(k) && k in s.upstreams
    ensures SessionEffect(s, OnClient(id, Read(chunk, newKey, random)), ReadStep(cfg, s, id, chunk, newKey, random), k)
  {
  }

  lemma ForwardingClient(cfg: Config, s: System, id: Id, chunk: seq<byte>, newKey: Key, random: seq<byte>)
    requires Forwarding(cfg, s, id, chunk, newKey, random)
    ensures var n := ReadStep(cfg, s, id, chunk, newKey, random);
      ClientEffect(cfg, s, OnClient(id, Read(chunk, newKey, random)), n, id)
  {
  }

  lemma ForwardingEffect(cfg: Config, s: System, id: Id, chunk: seq<byte>, newKey: Key, random: seq<byte>)
    requires Forwarding(cfg, s, id, chunk, newKey, random)
    ensures Effect(cfg, s, OnClient(id, Read(chunk, newKey, random)), ReadStep(cfg, s, id, chunk, newKey, random))
  {
    var k := if id in s.channelMap then s.channelMap[id].ssSession else None;
    ForwardingDelta(cfg, s, id, chunk, newKey, random);
    if k.Some? && k.value in s.upstreams {
      ForwardingSession(cfg, s, id, chunk, newKey, random, k.value);
    }
    ForwardingClient(cfg, s, id, chunk, newKey, random);
    ClientAbout(cfg, s, id, Read(chunk, newKey, random), k);
    DeltaEffect(cfg, s, OnClient(id, Read(chunk, newKey, random)), ReadStep(cfg, s, id, chunk, newKey, random), k,
                Some(id));
  }

  ghost predicate Opening(cfg: Config, s: System, id: Id, chunk: seq<byte>, newKey: Key, random: seq<byte>) {
    && Sane(cfg, s) && Possible(s, OnClient(id, Read(chunk, newKey, random)))
    && Requesting(s, OnClient(id, Read(chunk, newKey, random)))
  }

  lemma RequestSessions(cfg: Config, s: System, id: Id, chunk: seq<byte>, newKey: Key, random: seq<byte>)
    requires Opening(cfg, s, id, chunk, newKey, random)
    ensures var e, n := OnClient(id, Read(chunk, newKey, random)), ReadStep(cfg, s, id, chunk, newKey, random);
      && (forall k | k in s.upstreams :: SessionEffect(s, e, n, k))
      && (forall k | k in n.upstreams && k !in s.upstreams :: NewSession(s, e, n, k))
  {
  }

  lemma RequestPending(cfg: Config, s: System, id: Id, chunk: seq<byte>, newKey: Key, random: seq<byte>, k: Key)
    requires Opening(cfg, s, id, chunk, newKey, random)
    ensures var e, n := OnClient(id, Read(chunk, newKey, random)), ReadStep(cfg, s, id, chunk, newKey, random);
      PendingEffect(s, e, n, k)
  {
  }

  lemma RequestClients(cfg: Config, s: System, id: Id, chunk: seq<byte>, newKey: Key, random: seq<byte>)
    requires Opening(cfg, s, id, chunk, newKey, random)
    ensures var e, n := OnClient(id, Read(chunk, newKey, random)), ReadStep(cfg, s, id, chunk, newKey, random);
      n.clients.Keys == s.clients.Keys && forall j | j in s.clients :: ClientEffect(cfg, s, e, n, j)
  {
  }

  lemma RequestEffect(cfg: Config, s: System, id: Id, chunk: seq<byte>, newKey: Key, random: seq<byte>)
    requires Opening(cfg, s, id, chunk, newKey, random)
    ensures Effect(cfg, s, OnClient(id, Read(chunk, newKey, random)), ReadStep(cfg, s, id, chunk, newKey, random))
  {
    var e, n := OnClient(id, Read(chunk, newKey, random)), ReadStep(cfg, s, id, chunk, newKey, random);
    RequestSessions(cfg, s, id, chunk, newKey, random);
    RequestClients(cfg, s, id, chunk, newKey, random);
    forall k: Key ensures PendingEffect(s, e, n, k) {
      RequestPending(cfg, s, id, chunk, newKey, random, k);
    }
  }

  lemma ClientStepEffect(cfg: Config, s: System, id: Id, c: ClientEvent)
    requires Keyed(cfg, s) && Possible(s, OnClient(id, c))
    ensures Effect(cfg, s, OnClient(id, c), ClientStep(cfg, s, id, c))
  {
    var cl := s.clients[id];
    match c {
      case Read(chunk, newKey, random) =>
        if Requesting(s, OnClient(id, c)) {
          RequestEffect(cfg, s, id, chunk, newKey, random);
        } else if S.OnRead(cl.session, chunk).1.Data? {
          ForwardingEffect(cfg, s, id, chunk, newKey, random);
        } else {
          AnsweringEffect(cfg, s, id, chunk, newKey, random);
        }
      case TcpClosed => ClientUpdateEffect(cfg, s, id, c, cl.(tcpClosed := true));
      case CloseCallback(sync) =>
        var told := cl.(session := cl.session.(status := S.Disconnected), notified := true);
        ClosingEffect(cfg, s, id, c, told, sync);
      case Timer(sync) => ClosingEffect(cfg, s, id, c, cl.(timers := cl.timers - 1), sync);
    }
  }

  // Events of an upstream session.

  /** An event of the session at `k` that runs no callback. */
  lemma OwnUpdateEffect(cfg: Config, s: System, k: Key, e: UpstreamEvent, u: Upstream)
    requires Possible(s, OnUpstream(k, e)) && !CompletesKey(s, OnUpstream(k, e), k) && !e.UpstreamRead?
    requires SessionEffect(s, OnUpstream(k, e), WithUpstream(s, k, u), k)
    ensures Effect(cfg, s, OnUpstream(k, e), WithUpstream(s, k, u))
  {
    DeltaEffect(cfg, s, OnUpstream(k, e), WithUpstream(s, k, u), Some(k), None);
  }

  lemma UpstreamClosedEffect(cfg: Config, s: System, k: Key)
    requires Possible(s, OnUpstream(k, UpstreamClosed)) && Sane(cfg, s)
    ensures Effect(cfg, s, OnUpstream(k, UpstreamClosed), UpstreamStep(cfg, s, k, UpstreamClosed))
  {
    var u := s.upstreams[k];
    OwnUpdateEffect(cfg, s, k, UpstreamClosed, u.(relay := R.OnClosed(u.relay), notice := Owed));
  }

  lemma ConnectsEffect(cfg: Config, s: System, k: Key)
    requires Possible(s, OnUpstream(k, Connected(true))) && Sane(cfg, s)
    ensures Effect(cfg, s, OnUpstream(k, Connected(true)), UpstreamStep(cfg, s, k, Connected(true)))
  {
    assert SessionSane(cfg, s, k);
    var u := s.upstreams[k];
    OwnUpdateEffect(cfg, s, k, Connected(true), u.(relay := R.OnConnect(cfg.cipher, u.relay, true)));
  }

  lemma CountsEffect(cfg: Config, s: System, k: Key, ok: bool)
    requires Possible(s, OnUpstream(k, WriteDone(ok))) && Sane(cfg, s)
    requires s.upstreams[k].relay.state != R.Authorizing
    ensures Effect(cfg, s, OnUpstream(k, WriteDone(ok)), UpstreamStep(cfg, s, k, WriteDone(ok)))
  {
    var u := s.upstreams[k];
    OwnUpdateEffect(cfg, s, k, WriteDone(ok), u.(relay := R.OnWriteComplete(u.relay, ok).0));
  }

  /** An event of the session at `k` that neither completes its request nor reads is about that session alone. */
  lemma OwnAbout(cfg: Config, s: System, k: Key, e: UpstreamEvent)
    requires Possible(s, OnUpstream(k, e)) && !CompletesKey(s, OnUpstream(k, e), k) && !e.UpstreamRead?
    ensures About(cfg, s, OnUpstream(k, e), Some(k), None)
  {
  }

  lemma ToldEffect(cfg: Config, s: System, k: Key, sync: bool)
    requires Possible(s, OnUpstream(k, UpstreamCloseCallback(sync))) && Sane(cfg, s)
    ensures var e := UpstreamCloseCallback(sync); Effect(cfg, s, OnUpstream(k, e), UpstreamStep(cfg, s, k, e))
  {
    var e, u := UpstreamCloseCallback(sync), s.upstreams[k].(notice := Given);
    var n := UpstreamStep(cfg, s, k, e);
    ToldSimilar(cfg, s, k, sync);
    var s2 := n.(sessionMap := s.sessionMap);
    ToldDelta(s, k, u, s2);
    assert Delta(s, n, Some(k), None);
    OwnAbout(cfg, s, k, e);
    DeltaEffect(cfg, s, OnUpstream(k, e), n, Some(k), None);
  }

  lemma ToldSimilar(cfg: Config, s: System, k: Key, sync: bool)
    requires Possible(s, OnUpstream(k, UpstreamCloseCallback(sync))) && Sane(cfg, s)
    ensures var n, u := UpstreamStep(cfg, s, k, UpstreamCloseCallback(sync)), s.upstreams[k];
      && Similar(WithUpstream(s, k, u.(notice := Given)), n.(sessionMap := s.sessionMap))
      && n.sessionMap == if u.relay.hasTcp then s.sessionMap - {k} else s.sessionMap
  {
    var u := s.upstreams[k];
    assert SessionSane(cfg, s, k);
    var s1 := WithUpstream(s, k, u.(notice := Given));
    if u.bound.Some? {
      CloseSimilar(s1, u.bound.value, sync);
    }
    var s2 := if u.bound.Some? then CloseChannel(s1, u.bound.value, sync) else s1;
    assert s2 == s2.(sessionMap := s.sessionMap);
  }

  lemma ToldDelta(s: System, k: Key, u: Upstream, n: System)
    requires k in s.upstreams && Similar(WithUpstream(s, k, u), n)
    ensures Delta(s, n, Some(k), None) && n.paddingRequestMap == s.paddingRequestMap
    ensures UpstreamSimilar(u, n.upstreams[k])
  {
    var s1 := WithUpstream(s, k, u);
    forall id | id in s.clients ensures ClientSimilar(s.clients[id], n.clients[id]) {
      assert ClientSimilar(s1.clients[id], n.clients[id]);
    }
    forall j | j in s.upstreams && j != k ensures UpstreamSimilar(s.upstreams[j], n.upstreams[j]) {
      assert UpstreamSimilar(s1.upstreams[j], n.upstreams[j]);
    }
    assert UpstreamSimilar(s1.upstreams[k], n.upstreams[k]);
  }

  /** A session and a client updated, in either order, is such a change. */
  lemma BothDelta(s: System, k: Key, u: Upstream, id: Id, cl: Client)
    requires k in s.upstreams && id in s.clients
    ensures Delta(s, WithUpstream(s, k, u), Some(k), Some(id)) && Delta(s, WithClient(s, id, cl), Some(k), Some(id))
    ensures Delta(s, WithClient(WithUpstream(s, k, u), id, cl), Some(k), Some(id))
  {
  }

  /** What a read of the session at `k` does: the session goes on, and one client may be sent something. */
  lemma PassesDelta(cfg: Config, s: System, k: Key, chunk: seq<byte>, id: Id)
    requires Possible(s, OnUpstream(k, UpstreamRead(chunk))) && Sane(cfg, s)
    requires var u := s.upstreams[k]; id == if ReadDefined(cfg, u, chunk) then u.bound.value else u.owner
    ensures var n := UpstreamStep(cfg, s, k, UpstreamRead(chunk));
      Delta(s, n, Some(k), Some(id)) && n.paddingRequestMap == s.paddingRequestMap
  {
    assert SessionSane(cfg, s, k);
    var u, cl := s.upstreams[k], s.clients[id];
    var r := R.OnReadComplete(cfg.cipher, u.relay, chunk);
    if r.None? {
      BothDelta(s, k, u, id, cl.(fault := ShortIv));
    } else {
      BothDelta(s, k, u.(relay := r.value.0), id, Answered(cl, Payload(r.value.1), true));
    }
  }

  lemma PassesSession(cfg: Config, s: System, k: Key, chunk: seq<byte>)
    requires Possible(s, OnUpstream(k, UpstreamRead(chunk))) && Sane(cfg, s)
    ensures var e := OnUpstream(k, UpstreamRead(chunk)); SessionEffect(s, e, UpstreamStep(cfg, s, k, e.u), k)
  {
    assert SessionSane(cfg, s, k);
  }

  lemma PassesClient(cfg: Config, s: System, k: Key, chunk: seq<byte>, id: Id)
    requires Possible(s, OnUpstream(k, UpstreamRead(chunk))) && Sane(cfg, s)
    requires var u := s.upstreams[k]; id == if ReadDefined(cfg, u, chunk) then u.bound.value else u.owner
    ensures id in s.clients
    ensures var e := OnUpstream(k, UpstreamRead(chunk)); ClientEffect(cfg, s, e, UpstreamStep(cfg, s, k, e.u), id)
  {
    assert SessionSane(cfg, s, k);
  }

  lemma PassesAbout(cfg: Config, s: System, k: Key, chunk: seq<byte>, id: Id)
    requires Possible(s, OnUpstream(k, UpstreamRead(chunk)))
    requires var u := s.upstreams[k]; id == if ReadDefined(cfg, u, chunk) then u.bound.value else u.owner
    ensures About(cfg, s, OnUpstream(k, UpstreamRead(chunk)), Some(k), Some(id))
  {
  }

  lemma PassesEffect(cfg: Config, s: System, k: Key, chunk: seq<byte>)
    requires Possible(s, OnUpstream(k, UpstreamRead(chunk))) && Sane(cfg, s)
    ensures var e := UpstreamRead(chunk); Effect(cfg, s, OnUpstream(k, e), UpstreamStep(cfg, s, k, e))
  {
    var e, u := UpstreamRead(chunk), s.upstreams[k];
    var id := if ReadDefined(cfg, u, chunk) then u.bound.value else u.owner;
    PassesDelta(cfg, s, k, chunk, id);
    PassesSession(cfg, s, k, chunk);
    PassesClient(cfg, s, k, chunk, id);
    PassesAbout(cfg, s, k, chunk, id);
    DeltaEffect(cfg, s, OnUpstream(k, e), UpstreamStep(cfg, s, k, e), Some(k), Some(id));
  }

  /** The session's own update `u`, on the way to the completion of its request. */
  ghost predicate Completing(cfg: Config, s: System, k: Key, e: UpstreamEvent, u: Upstream) {
    && Sane(cfg, s) && Possible(s, OnUpstream(k, e)) && CompletesKey(s, OnUpstream(k, e), k)
    && k in s.paddingRequestMap && k in s.sessionMap && k in s.upstreams
    && s.upstreams[k].bound.None? && !s.upstreams[k].relay.IsClosed()
    && u.owner == s.upstreams[k].owner && u.bound == s.upstreams[k].bound
    && (u.relay.IsClosed() <==> ClosesKey(OnUpstream(k, e), k)) && u.relay.hasTcp == s.upstreams[k].relay.hasTcp
  }

  lemma CompletesDelta(cfg: Config, s: System, k: Key, e: UpstreamEvent, u: Upstream, ok: bool)
    requires Completing(cfg, s, k, e, u)
    ensures u.owner in s.clients && s.paddingRequestMap[k] in s.clients
    ensures var n := Complete(WithUpstream(s, k, u), k, ok);
      && Delta(s, n, Some(k), Some(s.paddingRequestMap[k])) && n.paddingRequestMap == s.paddingRequestMap - {k}
  {
    assert SessionSane(cfg, s, k);
  }

  lemma CompletesSession(cfg: Config, s: System, k: Key, e: UpstreamEvent, u: Upstream, ok: bool)
    requires Completing(cfg, s, k, e, u)
    ensures u.owner in s.clients && s.paddingRequestMap[k] in s.clients
    ensures SessionEffect(s, OnUpstream(k, e), Complete(WithUpstream(s, k, u), k, ok), k)
  {
    assert SessionSane(cfg, s, k);
  }

  lemma CompletesClient(cfg: Config, s: System, k: Key, e: UpstreamEvent, u: Upstream, ok: bool)
    requires Completing(cfg, s, k, e, u)
    ensures u.owner in s.clients && s.paddingRequestMap[k] in s.clients
    ensures ClientEffect(cfg, s, OnUpstream(k, e), Complete(WithUpstream(s, k, u), k, ok), s.paddingRequestMap[k])
  {
    assert SessionSane(cfg, s, k);
  }

  lemma CompletesAbout(cfg: Config, s: System, k: Key, e: UpstreamEvent, u: Upstream)
    requires Completing(cfg, s, k, e, u)
    ensures About(cfg, s, OnUpstream(k, e), Some(k), Some(s.paddingRequestMap[k]))
  {
  }

  lemma CompletesEffect(cfg: Config, s: System, k: Key, e: UpstreamEvent, u: Upstream, ok: bool)
    requires Completing(cfg, s, k, e, u)
    ensures u.owner in s.clients && s.paddingRequestMap[k] in s.clients
    ensures Effect(cfg, s, OnUpstream(k, e), Complete(WithUpstream(s, k, u), k, ok))
  {
    CompletesDelta(cfg, s, k, e, u, ok);
    CompletesSession(cfg, s, k, e, u, ok);
    CompletesClient(cfg, s, k, e, u, ok);
    CompletesAbout(cfg, s, k, e, u);
    DeltaEffect(cfg, s, OnUpstream(k, e), Complete(WithUpstream(s, k, u), k, ok), Some(k),
                Some(s.paddingRequestMap[k]));
  }

  lemma UpstreamStepEffect(cfg: Config, s: System, k: Key, e: UpstreamEvent)
    requires Keyed(cfg, s) && Possible(s, OnUpstream(k, e))
    ensures Effect(cfg, s, OnUpstream(k, e), UpstreamStep(cfg, s, k, e))
  {
    assert SessionKeyed(s, k) && SessionSane(cfg, s, k);
    var u := s.upstreams[k];
    match e {
      case Connected(ok) =>
        if ok {
          ConnectsEffect(cfg, s, k);
        } else {
          CompletesEffect(cfg, s, k, e, u.(relay := R.OnConnect(cfg.cipher, u.relay, ok), notice := Owed), false);
        }
      case WriteDone(ok) =>
        if u.relay.state == R.Authorizing {
          CompletesEffect(cfg, s, k, e, u.(relay := R.OnWriteComplete(u.relay, ok).0), ok);
        } else {
          CountsEffect(cfg, s, k, ok);
        }
      case UpstreamRead(chunk) => PassesEffect(cfg, s, k, chunk);
      case UpstreamClosed => UpstreamClosedEffect(cfg, s, k);
      case UpstreamCloseCallback(sync) => ToldEffect(cfg, s, k, sync);
    }
  }

  lemma ArriveEffect(cfg: Config, s: System)
    requires Sane(cfg, s)
    ensures Effect(cfg, s, Arrive, Arrival(s))
  {
  }

  lemma FreeEffect(cfg: Config, s: System, k: Key)
    requires Sane(cfg, s) && Possible(s, Free(k))
    ensures Effect(cfg, s, Free(k), Step(cfg, s, Free(k)))
  {
  }

  /** What any event does: to each session, to each pending entry, and to what each client is sent. */
  lemma StepEffect(cfg: Config, s: System, e: Event)
    requires Keyed(cfg, s) && Possible(s, e)
    ensures Effect(cfg, s, e, Step(cfg, s, e))
  {
    match e {
      case Arrive => ArriveEffect(cfg, s);
      case OnClient(id, c) => ClientStepEffect(cfg, s, id, c);
      case OnUpstream(k, u) => UpstreamStepEffect(cfg, s, k, u);
      case Free(k) => FreeEffect(cfg, s, k);
    }
  }
}
