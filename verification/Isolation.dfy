/** Each event of the multiplexer is a step of one channel and leaves every other channel as it was. */
module Isolation {
  import opened Bytes
  import opened Socks5
  import opened Channels
  import opened Multiplexer
  import S = Socks5Sessions
  import R = RelaySessions

  lemma ViewFits(cfg: Config, s: System, id: Id)
    requires Linked(cfg, s)
    ensures View(s, id).Fits(cfg)
  {
  }

  lemma LocalReady(cfg: Config, s: System, e: Event)
    requires Linked(cfg, s) && Possible(s, e)
    ensures Ready(View(s, Concerns(s, e)), Local(e))
  {
    match e {
      case Arrive =>
      case OnClient(id, _) =>
      case OnUpstream(k, _) => assert UpstreamLinked(cfg, s, k);
      case Free(k) => assert UpstreamLinked(cfg, s, k) && ClientLinked(s, s.upstreams[k].owner);
    }
  }

  /** `s1` and `s2` agree on every channel but `id`. */
  ghost predicate OthersSame(s1: System, s2: System, id: Id) {
    forall j | j != id :: View(s1, j) == View(s2, j)
  }

  /** From `s` to `n` only channel `id` moved, to `cell`. */
  ghost predicate Moves(cfg: Config, s: System, n: System, id: Id, cell: Cell) {
    Linked(cfg, n) && OthersSame(s, n, id) && View(n, id) == cell
  }

  lemma MovesOn(cfg: Config, s: System, m: System, n: System, id: Id, between: Cell, cell: Cell)
    requires Moves(cfg, s, m, id, between) && Moves(cfg, m, n, id, cell)
    ensures Moves(cfg, s, n, id, cell)
  {
    forall j | j != id ensures View(s, j) == View(n, j) {
      assert View(s, j) == View(m, j);
    }
  }

  /** Updates that keep every key and owner keep the tables linked. */
  lemma Relinked(cfg: Config, s: System, n: System)
    requires Linked(cfg, s) && n.nextChannelID == s.nextChannelID
    requires n.clients.Keys == s.clients.Keys && n.upstreams.Keys == s.upstreams.Keys
    requires n.channelMap.Keys <= s.clients.Keys && n.sessionMap <= s.sessionMap
    requires n.paddingRequestMap.Keys <= s.paddingRequestMap.Keys
    requires forall id | id in s.clients ::
      && n.clients[id].key == s.clients[id].key
      && (n.clients[id].key.Some? ==> S.Progress(n.clients[id].session.status) >= 2)
      && (id in n.channelMap ==> HoldsOwn(s, id, n.channelMap[id].ssSession))
    requires forall k | k in s.upstreams ::
      var u := n.upstreams[k];
      && u.owner == s.upstreams[k].owner && u.relay.Fits(cfg.cipher)
      && (u.bound.Some? ==> u.bound.value == u.owner)
    requires forall k | k in n.paddingRequestMap :: n.paddingRequestMap[k] == s.paddingRequestMap[k]
    ensures Linked(cfg, n)
  {
    forall id | id in n.clients ensures ClientLinked(n, id) {
      assert ClientLinked(s, id);
    }
    forall k | k in n.upstreams ensures UpstreamLinked(cfg, n, k) {
      assert UpstreamLinked(cfg, s, k);
    }
    forall k | k in n.paddingRequestMap ensures PendingLinked(n, k) {
      assert PendingLinked(s, k);
    }
    RelatedIsSane(cfg, n);
  }

  /** A channel's entry may hold the session opened for its client's request. */
  ghost predicate HoldsOwn(s: System, id: Id, session: Option<Key>)
    requires id in s.clients
  {
    session.Some? ==> session == s.clients[id].key && Owns(s, id, session.value)
  }

  lemma LinksOf(cfg: Config, s: System)
    requires Linked(cfg, s)
    ensures forall id | id in s.clients :: s.clients[id].key.Some? ==> S.Progress(s.clients[id].session.status) >= 2
    ensures forall id | id in s.channelMap :: HoldsOwn(s, id, s.channelMap[id].ssSession)
    ensures forall k | k in s.upstreams :: s.upstreams[k].relay.Fits(cfg.cipher)
    ensures forall k | k in s.upstreams ::
      s.upstreams[k].bound.Some? ==> s.upstreams[k].bound.value == s.upstreams[k].owner
  {
    forall id | id in s.clients
      ensures s.clients[id].key.Some? ==> S.Progress(s.clients[id].session.status) >= 2
      ensures id in s.channelMap ==> HoldsOwn(s, id, s.channelMap[id].ssSession)
    {
      assert ClientLinked(s, id);
    }
    forall k | k in s.upstreams
      ensures s.upstreams[k].relay.Fits(cfg.cipher)
      ensures s.upstreams[k].bound.Some? ==> s.upstreams[k].bound.value == s.upstreams[k].owner
    {
      assert UpstreamLinked(cfg, s, k);
    }
  }

  /** A session is seen by its owner alone. */
  lemma KeyIsOwn(cfg: Config, s: System, k: Key)
    requires Linked(cfg, s) && k in s.upstreams
    ensures var id := s.upstreams[k].owner;
      && id in s.clients && s.clients[id].key == Some(k)
      && (k in s.paddingRequestMap ==> s.paddingRequestMap[k] == id)
  {
    assert UpstreamLinked(cfg, s, k);
  }

  /** A session's owner sees all that the tables hold for it. */
  lemma OwnView(cfg: Config, s: System, k: Key)
    requires Linked(cfg, s) && k in s.upstreams
    ensures var c := View(s, s.upstreams[k].owner);
      && c.client.Some? && c.client.value.key == Some(k) && c.upstream == Some(s.upstreams[k])
      && (c.pending <==> k in s.paddingRequestMap) && (c.listed <==> k in s.sessionMap)
  {
    assert UpstreamLinked(cfg, s, k);
  }

  lemma ClientLinks(cfg: Config, s: System, id: Id, cl: Client)
    requires Linked(cfg, s) && id in s.clients && cl.key == s.clients[id].key
    requires cl.key.Some? ==> S.Progress(cl.session.status) >= 2
    ensures Linked(cfg, WithClient(s, id, cl))
  {
    LinksOf(cfg, s);
    Relinked(cfg, s, WithClient(s, id, cl));
  }

  lemma ClientIsolated(cfg: Config, s: System, id: Id, cl: Client)
    requires Linked(cfg, s) && id in s.clients && cl.key == s.clients[id].key
    requires cl.key.Some? ==> S.Progress(cl.session.status) >= 2
    ensures Moves(cfg, s, WithClient(s, id, cl), id, View(s, id).(client := Some(cl)))
  {
    ClientLinks(cfg, s, id, cl);
    ClientView(s, id, cl);
  }

  lemma ClientView(s: System, id: Id, cl: Client)
    requires id in s.clients && cl.key == s.clients[id].key
    ensures var n := WithClient(s, id, cl);
      OthersSame(s, n, id) && View(n, id) == View(s, id).(client := Some(cl))
  {
  }

  lemma UpstreamView(s: System, k: Key, u: Upstream, id: Id)
    requires Owns(s, id, k) && u.owner == id && id in s.clients && s.clients[id].key == Some(k)
    ensures var n := WithUpstream(s, k, u);
      OthersSame(s, n, id) && View(n, id) == View(s, id).(upstream := Some(u))
  {
  }

  lemma UpstreamLinks(cfg: Config, s: System, k: Key, u: Upstream)
    requires Linked(cfg, s) && k in s.upstreams && u.owner == s.upstreams[k].owner && u.relay.Fits(cfg.cipher)
    requires u.bound.Some? ==> u.bound.value == u.owner
    ensures Linked(cfg, WithUpstream(s, k, u))
  {
    LinksOf(cfg, s);
    Relinked(cfg, s, WithUpstream(s, k, u));
  }

  lemma UpstreamIsolated(cfg: Config, s: System, k: Key, u: Upstream)
    requires Linked(cfg, s) && k in s.upstreams && u.owner == s.upstreams[k].owner && u.relay.Fits(cfg.cipher)
    requires u.bound.Some? ==> u.bound.value == u.owner
    ensures Moves(cfg, s, WithUpstream(s, k, u), u.owner, View(s, u.owner).(upstream := Some(u)))
  {
    UpstreamLinks(cfg, s, k, u);
    KeyIsOwn(cfg, s, k);
    UpstreamView(s, k, u, u.owner);
  }

  lemma ChannelLinks(cfg: Config, s: System, id: Id, ch: Option<Channel>)
    requires Linked(cfg, s) && id in s.clients && (ch.Some? ==> HoldsOwn(s, id, ch.value.ssSession))
    ensures Linked(cfg, WithChannel(s, id, ch))
  {
    LinksOf(cfg, s);
    Relinked(cfg, s, WithChannel(s, id, ch));
  }

  lemma ChannelIsolated(cfg: Config, s: System, id: Id, ch: Option<Channel>)
    requires Linked(cfg, s) && id in s.clients && (ch.Some? ==> HoldsOwn(s, id, ch.value.ssSession))
    ensures Moves(cfg, s, WithChannel(s, id, ch), id, View(s, id).(channel := ch))
  {
    ChannelLinks(cfg, s, id, ch);
    ChannelView(s, id, ch);
  }

  lemma ChannelView(s: System, id: Id, ch: Option<Channel>)
    ensures var n := WithChannel(s, id, ch);
      OthersSame(s, n, id) && View(n, id) == View(s, id).(channel := ch)
  {
  }

  lemma PendingIsolated(cfg: Config, s: System, k: Key)
    requires Linked(cfg, s) && k in s.upstreams
    ensures var id := s.upstreams[k].owner;
      Moves(cfg, s, WithoutPending(s, k), id, View(s, id).(pending := false))
  {
    PendingLinks(cfg, s, k);
    KeyIsOwn(cfg, s, k);
    PendingView(s, k, s.upstreams[k].owner);
  }

  lemma PendingLinks(cfg: Config, s: System, k: Key)
    requires Linked(cfg, s)
    ensures Linked(cfg, WithoutPending(s, k))
  {
    LinksOf(cfg, s);
    Relinked(cfg, s, WithoutPending(s, k));
  }

  lemma PendingView(s: System, k: Key, id: Id)
    requires id in s.clients && s.clients[id].key == Some(k)
    requires k in s.paddingRequestMap ==> s.paddingRequestMap[k] == id
    ensures var n := WithoutPending(s, k);
      OthersSame(s, n, id) && View(n, id) == View(s, id).(pending := false)
  {
  }

  lemma SessionIsolated(cfg: Config, s: System, k: Key)
    requires Linked(cfg, s) && k in s.upstreams
    ensures var id := s.upstreams[k].owner;
      Moves(cfg, s, WithoutSession(s, k), id, View(s, id).(listed := false))
  {
    SessionLinks(cfg, s, k);
    KeyIsOwn(cfg, s, k);
    SessionView(s, k, s.upstreams[k].owner);
  }

  lemma SessionLinks(cfg: Config, s: System, k: Key)
    requires Linked(cfg, s)
    ensures Linked(cfg, WithoutSession(s, k))
  {
    LinksOf(cfg, s);
    Relinked(cfg, s, WithoutSession(s, k));
  }

  lemma SessionView(s: System, k: Key, id: Id)
    requires Owns(s, id, k) && id in s.clients && s.clients[id].key == Some(k)
    ensures var n := WithoutSession(s, k);
      OthersSame(s, n, id) && View(n, id) == View(s, id).(listed := false)
  {
  }

  lemma ArrivalIsolated(cfg: Config, s: System)
    requires Linked(cfg, s)
    ensures var id := s.nextChannelID;
      Moves(cfg, s, Arrival(s), id, CellStep(cfg, View(s, id), Accept))
  {
    ArrivalLinks(cfg, s);
    ArrivalView(s);
  }

  lemma ArrivalLinks(cfg: Config, s: System)
    requires Linked(cfg, s)
    ensures Linked(cfg, Arrival(s))
  {
    var n, id := Arrival(s), s.nextChannelID;
    forall j | j in n.clients ensures ClientLinked(n, j) {
      assert j != id ==> ClientLinked(s, j);
    }
    forall k | k in n.upstreams ensures UpstreamLinked(cfg, n, k) {
      assert UpstreamLinked(cfg, s, k);
    }
  }

  lemma ArrivalView(s: System)
    requires s.nextChannelID !in s.clients
    ensures var n, id := Arrival(s), s.nextChannelID;
      && OthersSame(s, n, id)
      && View(n, id) == View(s, id).(client := Some(NEW_CLIENT), channel := Some(Channel(Inited, None)))
  {
  }

  lemma CloseUpstreamIsolated(cfg: Config, s: System, id: Id, k: Option<Key>)
    requires Linked(cfg, s) && id in s.clients && HoldsOwn(s, id, k)
    ensures var c := View(s, id);
      Moves(cfg, s, CloseUpstream(s, k), id,
            if k.None? || c.upstream.None? then c
            else c.(upstream := Some(c.upstream.value.(relay := R.Close(c.upstream.value.relay)))))
  {
    assert ClientLinked(s, id);
    if k.Some? && k.value in s.upstreams {
      var u := s.upstreams[k.value];
      assert UpstreamLinked(cfg, s, k.value);
      UpstreamIsolated(cfg, s, k.value, u.(relay := R.Close(u.relay)));
    }
  }

  lemma RearrangeIsolated(cfg: Config, s: System, id: Id, closeClient: bool, sync: bool, close: Option<Key>,
                          ch: Option<Channel>)
    requires Linked(cfg, s) && id in s.clients && HoldsOwn(s, id, close)
    requires ch.Some? ==> HoldsOwn(s, id, ch.value.ssSession)
    ensures Moves(cfg, s, Rearrange(s, id, closeClient, sync, close, ch), id,
                  Rearranged(View(s, id), closeClient, sync, close.Some?, ch))
  {
    EndsIsolated(cfg, s, id, closeClient, sync, close);
    EndsKeep(s, id, closeClient, sync, close);
    var ends := Ends(s, id, closeClient, sync, close);
    ChannelIsolated(cfg, ends, id, ch);
    MovesOn(cfg, s, ends, WithChannel(ends, id, ch), id, View(ends, id), View(ends, id).(channel := ch));
  }

  /** The client of channel `id` asked to close, if at all, and then its session. */
  function Ends(s: System, id: Id, closeClient: bool, sync: bool, close: Option<Key>): System
    requires id in s.clients
  {
    CloseUpstream(if closeClient then WithClient(s, id, AskedToClose(s.clients[id], sync)) else s, close)
  }

  lemma EndsIsolated(cfg: Config, s: System, id: Id, closeClient: bool, sync: bool, close: Option<Key>)
    requires Linked(cfg, s) && id in s.clients && HoldsOwn(s, id, close)
    ensures Moves(cfg, s, Ends(s, id, closeClient, sync, close), id,
                  Rearranged(View(s, id), closeClient, sync, close.Some?, View(s, id).channel))
  {
    if closeClient {
      var cl := AskedToClose(s.clients[id], sync);
      var s1 := WithClient(s, id, cl);
      assert ClientLinked(s, id);
      ClientIsolated(cfg, s, id, cl);
      CloseUpstreamIsolated(cfg, s1, id, close);
      MovesOn(cfg, s, s1, CloseUpstream(s1, close), id, View(s1, id), View(CloseUpstream(s1, close), id));
    } else {
      CloseUpstreamIsolated(cfg, s, id, close);
    }
  }

  lemma EndsKeep(s: System, id: Id, closeClient: bool, sync: bool, close: Option<Key>)
    requires id in s.clients
    ensures var n := Ends(s, id, closeClient, sync, close);
      && id in n.clients && n.clients[id].key == s.clients[id].key && n.channelMap == s.channelMap
      && (forall k :: Owns(n, id, k) <==> Owns(s, id, k))
  {
  }

  lemma CloseChannelIsolated(cfg: Config, s: System, id: Id, sync: bool)
    requires Linked(cfg, s) && id in s.clients
    ensures Moves(cfg, s, CloseChannel(s, id, sync), id, CellClose(View(s, id), sync))
  {
    if id in s.channelMap {
      assert ClientLinked(s, id);
      var cl, ch := s.clients[id], s.channelMap[id];
      var v := CloseVerdict(ch.status, cl.tcpClosed, sync, SessionState(s, id));
      assert SessionState(s, id) == UpstreamState(View(s, id));
      if v.Null? {
        ClientIsolated(cfg, s, id, cl.(fault := NullSession));
      } else {
        assert v.closeUpstream ==> ch.ssSession.Some?;
        RearrangeIsolated(cfg, s, id, v.closeClient, sync, if v.closeUpstream then ch.ssSession else None,
                          if v.status == Closed then None else Some(ch.(status := v.status)));
      }
    }
  }

  lemma RequestView(cfg: Config, s: System, id: Id, request: Socks5.Request, newKey: Key, random: seq<byte>)
    requires cfg.Valid() && id in s.clients && |random| == 16
    requires newKey !in s.upstreams && newKey !in s.paddingRequestMap
    requires id in s.channelMap && request.cmd == CMD_CONNECT
    ensures var c, n := View(s, id), OpenRequest(cfg, s, id, request, newKey, random);
      && OthersSame(s, n, id)
      && View(n, id) ==
           c.(client := Some(c.client.value.(key := Some(newKey))),
              channel := Some(c.channel.value.(status := WaitingSession)),
              upstream := Some(NewUpstream(cfg, request, random, id)),
              pending := true, listed := true)
  {
  }

  lemma RequestIsolated(cfg: Config, s: System, id: Id, request: Socks5.Request, newKey: Key, random: seq<byte>)
    requires Linked(cfg, s) && id in s.clients && |random| == 16
    requires newKey !in s.upstreams && newKey !in s.paddingRequestMap
    requires s.clients[id].key.None? && S.Progress(s.clients[id].session.status) >= 2
    requires id in s.channelMap && request.cmd == CMD_CONNECT
    ensures var c := View(s, id);
      Moves(cfg, s, OpenRequest(cfg, s, id, request, newKey, random), id,
            c.(client := Some(c.client.value.(key := Some(newKey))),
               channel := Some(c.channel.value.(status := WaitingSession)),
               upstream := Some(NewUpstream(cfg, request, random, id)),
               pending := true, listed := true))
  {
    var n := OpenRequest(cfg, s, id, request, newKey, random);
    RequestLinksClients(cfg, s, n, id, request, newKey, random);
    RequestLinksSessions(cfg, s, n, id, request, newKey, random);
    RequestView(cfg, s, id, request, newKey, random);
  }

  /** A request that can be entered, and the tables it leaves. */
  ghost predicate Opens(cfg: Config, s: System, n: System, id: Id, request: Socks5.Request, newKey: Key,
                        random: seq<byte>)
  {
    && Linked(cfg, s) && id in s.clients && |random| == 16
    && newKey !in s.upstreams && newKey !in s.paddingRequestMap
    && s.clients[id].key.None? && S.Progress(s.clients[id].session.status) >= 2
    && id in s.channelMap && request.cmd == CMD_CONNECT
    && n == OpenRequest(cfg, s, id, request, newKey, random)
  }

  lemma RequestLinksClients(cfg: Config, s: System, n: System, id: Id, request: Socks5.Request, newKey: Key,
                            random: seq<byte>)
    requires Opens(cfg, s, n, id, request, newKey, random)
    ensures forall j | j in n.clients :: ClientLinked(n, j)
  {
    forall j | j in n.clients ensures ClientLinked(n, j) {
      assert ClientLinked(s, j);
    }
  }

  lemma RequestLinksSessions(cfg: Config, s: System, n: System, id: Id, request: Socks5.Request, newKey: Key,
                             random: seq<byte>)
    requires Opens(cfg, s, n, id, request, newKey, random)
    ensures forall k | k in n.upstreams :: UpstreamLinked(cfg, n, k)
    ensures forall k | k in n.paddingRequestMap :: PendingLinked(n, k)
  {
    forall k | k in n.upstreams ensures UpstreamLinked(cfg, n, k) {
      assert k != newKey ==> UpstreamLinked(cfg, s, k);
    }
    forall k | k in n.paddingRequestMap ensures PendingLinked(n, k) {
      assert k != newKey ==> PendingLinked(s, k);
    }
  }

  lemma ForwardIsolated(cfg: Config, s: System, id: Id, data: seq<byte>)
    requires Linked(cfg, s) && id in s.clients
    ensures var c := View(s, id);
      Moves(cfg, s, Forward(cfg, s, id, data), id,
            if c.channel.None? then c
            else if UpstreamState(c).None? then Faulted(c, NullSession)
            else c.(upstream := Some(c.upstream.value.(
                      relay := R.SendPacket(cfg.cipher, c.upstream.value.relay, data)))))
  {
    assert ClientLinked(s, id);
    if id in s.channelMap {
      assert SessionState(s, id) == UpstreamState(View(s, id));
      if SessionState(s, id).None? {
        ClientIsolated(cfg, s, id, s.clients[id].(fault := NullSession));
      } else {
        var k := s.channelMap[id].ssSession.value;
        assert UpstreamLinked(cfg, s, k);
        var u := s.upstreams[k];
        UpstreamIsolated(cfg, s, k, u.(relay := R.SendPacket(cfg.cipher, u.relay, data)));
      }
    }
  }

  lemma AnswerIsolated(cfg: Config, s: System, id: Id, m: Message, good: bool)
    requires Linked(cfg, s) && id in s.clients
    ensures Moves(cfg, s, Answer(s, id, m, good), id,
                  View(s, id).(client := Some(Answered(s.clients[id], m, good))))
  {
    assert ClientLinked(s, id);
    ClientIsolated(cfg, s, id, Answered(s.clients[id], m, good));
  }

  /** The session a completion found has its callbacks installed, and its request is no longer pending. */
  lemma BoundIsolated(cfg: Config, s: System, k: Key, u: Upstream)
    requires Linked(cfg, s) && k in s.upstreams && u.owner == s.upstreams[k].owner && u.relay.Fits(cfg.cipher)
    requires u.bound == Some(u.owner)
    ensures var id := u.owner;
      Moves(cfg, s, WithUpstream(WithoutPending(s, k), k, u), id,
            View(s, id).(pending := false, upstream := Some(u)))
  {
    var id, m := u.owner, WithoutPending(s, k);
    PendingIsolated(cfg, s, k);
    UpstreamIsolated(cfg, m, k, u);
    MovesOn(cfg, s, m, WithUpstream(m, k, u), id, View(m, id), View(m, id).(upstream := Some(u)));
  }

  lemma CompleteIsolated(cfg: Config, s: System, k: Key, ok: bool)
    requires Linked(cfg, s) && k in s.upstreams
    ensures var id := s.upstreams[k].owner;
      && id in s.clients && s.clients[id].key == Some(k)
      && (k in s.paddingRequestMap ==> s.paddingRequestMap[k] == id)
      && Moves(cfg, s, Complete(s, k, ok), id, CellComplete(View(s, id), ok))
  {
    var id := s.upstreams[k].owner;
    assert UpstreamLinked(cfg, s, k);
    assert ClientLinked(s, id);
    if k in s.sessionMap {
      if k !in s.paddingRequestMap {
        ClientIsolated(cfg, s, id, s.clients[id].(fault := NoPendingRequest));
      } else {
        var u := s.upstreams[k].(bound := Some(id));
        if id !in s.channelMap {
          BoundIsolated(cfg, s, k, u.(relay := R.Close(u.relay)));
        } else {
          CompletedIsolated(cfg, s, k, u, ok);
        }
      }
    }
  }

  lemma CompletedIsolated(cfg: Config, s: System, k: Key, u: Upstream, ok: bool)
    requires Linked(cfg, s) && k in s.upstreams && u == s.upstreams[k].(bound := Some(s.upstreams[k].owner))
    requires u.owner in s.channelMap && s.clients[u.owner].key == Some(k) && u.relay.Fits(cfg.cipher)
    ensures var id, entry := u.owner, Some(Channel(Established, Some(k)));
      Moves(cfg, s,
            Answer(WithChannel(WithUpstream(WithoutPending(s, k), k, u), id, entry), id, ReplyFor(ok), ok), id,
            View(s, id).(pending := false, upstream := Some(u), channel := entry,
                         client := Some(Answered(s.clients[id], ReplyFor(ok), ok))))
  {
    var id, entry := u.owner, Some(Channel(Established, Some(k)));
    BoundIsolated(cfg, s, k, u);
    var s1 := WithUpstream(WithoutPending(s, k), k, u);
    ChannelIsolated(cfg, s1, id, entry);
    var s2 := WithChannel(s1, id, entry);
    MovesOn(cfg, s, s1, s2, id, View(s1, id), View(s2, id));
    AnswerIsolated(cfg, s2, id, ReplyFor(ok), ok);
    var s3 := Answer(s2, id, ReplyFor(ok), ok);
    MovesOn(cfg, s, s2, s3, id, View(s2, id), View(s3, id));
  }

  lemma NegotiationIsolated(cfg: Config, s: System, id: Id, methods: seq<byte>)
    requires Linked(cfg, s) && id in s.clients
    ensures var c := View(s, id);
      Moves(cfg, s, Negotiation(s, id, methods), id,
            if c.channel.None? then c
            else c.(client := Some(Answered(s.clients[id], Method(ChooseMethod(methods)), METHOD_NO_AUTH in methods))))
  {
    if id in s.channelMap {
      AnswerIsolated(cfg, s, id, Method(ChooseMethod(methods)), METHOD_NO_AUTH in methods);
    }
  }

  lemma OpeningIsolated(cfg: Config, s: System, id: Id, request: Socks5.Request, newKey: Key, random: seq<byte>)
    requires Linked(cfg, s) && id in s.clients && |random| == 16 && newKey !in s.upstreams
    requires s.clients[id].key.None? && S.Progress(s.clients[id].session.status) >= 2
    requires id in s.channelMap && request.cmd == CMD_CONNECT ==> newKey !in s.paddingRequestMap
    ensures var c, cl := View(s, id), s.clients[id];
      Moves(cfg, s, OpenRequest(cfg, s, id, request, newKey, random), id,
            if c.channel.None? then c
            else if request.cmd != CMD_CONNECT then
              c.(client := Some(Answered(cl, Reply(STATUS_CMD_NOT_SUPPORTED), false)))
            else
              c.(client := Some(cl.(key := Some(newKey))),
                 channel := Some(c.channel.value.(status := WaitingSession)),
                 upstream := Some(NewUpstream(cfg, request, random, id)),
                 pending := true, listed := true))
  {
    if id in s.channelMap {
      if request.cmd != CMD_CONNECT {
        AnswerIsolated(cfg, s, id, Reply(STATUS_CMD_NOT_SUPPORTED), false);
      } else {
        RequestIsolated(cfg, s, id, request, newKey, random);
      }
    }
  }

  /** The record of a read, before its callback runs. */
  lemma RecordedIsolated(cfg: Config, s: System, id: Id, chunk: seq<byte>)
    requires Linked(cfg, s) && id in s.clients
    ensures var (session, event) := S.OnRead(s.clients[id].session, chunk);
      var cl := Recorded(s.clients[id], session, chunk, event);
      && Moves(cfg, s, WithClient(s, id, cl), id, View(s, id).(client := Some(cl)))
      && (event.Ask? ==> cl.key.None? && S.Progress(cl.session.status) >= 2)
  {
    assert ClientLinked(s, id);
    var (session, event) := S.OnRead(s.clients[id].session, chunk);
    ClientIsolated(cfg, s, id, Recorded(s.clients[id], session, chunk, event));
  }

  lemma GarbledIsolated(cfg: Config, s: System, id: Id)
    requires Linked(cfg, s) && id in s.clients
    ensures Moves(cfg, s, Faults(s, id, DecoderOverrun), id, Faulted(View(s, id), DecoderOverrun))
  {
    assert ClientLinked(s, id);
    ClientIsolated(cfg, s, id, s.clients[id].(fault := DecoderOverrun));
  }

  lemma ReadIsolated(cfg: Config, s: System, id: Id, chunk: seq<byte>, newKey: Key, random: seq<byte>)
    requires Linked(cfg, s) && Possible(s, OnClient(id, Read(chunk, newKey, random)))
    requires !Stale(s, OnClient(id, Read(chunk, newKey, random)))
    ensures Moves(cfg, s, ReadStep(cfg, s, id, chunk, newKey, random), id,
                  CellRead(cfg, View(s, id), chunk, newKey, random))
  {
    var (session, event) := S.OnRead(s.clients[id].session, chunk);
    var s1 := WithClient(s, id, Recorded(s.clients[id], session, chunk, event));
    var n := ReadStep(cfg, s, id, chunk, newKey, random);
    RecordedIsolated(cfg, s, id, chunk);
    match event {
      case Garbled(_) => GarbledIsolated(cfg, s, id);
      case Negotiate(_, methods) =>
        NegotiationIsolated(cfg, s1, id, methods);
        MovesOn(cfg, s, s1, n, id, View(s1, id), View(n, id));
      case Ask(_, request) =>
        OpeningIsolated(cfg, s1, id, request, newKey, random);
        MovesOn(cfg, s, s1, n, id, View(s1, id), View(n, id));
      case Data(data) =>
        ForwardIsolated(cfg, s1, id, data);
        MovesOn(cfg, s, s1, n, id, View(s1, id), View(n, id));
      case _ =>
    }
  }

  lemma ClientStepIsolated(cfg: Config, s: System, id: Id, c: ClientEvent)
    requires Linked(cfg, s) && Possible(s, OnClient(id, c)) && !Stale(s, OnClient(id, c))
    ensures Moves(cfg, s, ClientStep(cfg, s, id, c), id, CellClient(cfg, View(s, id), c))
  {
    assert ClientLinked(s, id);
    var cl, n := s.clients[id], ClientStep(cfg, s, id, c);
    match c {
      case Read(chunk, newKey, random) => ReadIsolated(cfg, s, id, chunk, newKey, random);
      case TcpClosed => ClientIsolated(cfg, s, id, cl.(tcpClosed := true));
      case CloseCallback(sync) =>
        var told := cl.(session := cl.session.(status := S.Disconnected), notified := true);
        ClientIsolated(cfg, s, id, told);
        var s1 := WithClient(s, id, told);
        CloseChannelIsolated(cfg, s1, id, sync);
        MovesOn(cfg, s, s1, n, id, View(s1, id), View(n, id));
      case Timer(sync) =>
        var ticked := cl.(timers := cl.timers - 1);
        ClientIsolated(cfg, s, id, ticked);
        var s1 := WithClient(s, id, ticked);
        CloseChannelIsolated(cfg, s1, id, sync);
        MovesOn(cfg, s, s1, n, id, View(s1, id), View(n, id));
    }
  }

  /** An upstream session's own update, then a completion. */
  lemma UpdateThenComplete(cfg: Config, s: System, k: Key, u: Upstream, ok: bool)
    requires Linked(cfg, s) && k in s.upstreams && u.owner == s.upstreams[k].owner && u.relay.Fits(cfg.cipher)
    requires u.bound.Some? ==> u.bound.value == u.owner
    ensures var id, s1 := u.owner, WithUpstream(s, k, u);
      && id in s.clients && (k in s.paddingRequestMap ==> s.paddingRequestMap[k] == id)
      && Moves(cfg, s, Complete(s1, k, ok), id, CellComplete(View(s, id).(upstream := Some(u)), ok))
  {
    var id, s1 := u.owner, WithUpstream(s, k, u);
    UpstreamIsolated(cfg, s, k, u);
    CompleteIsolated(cfg, s1, k, ok);
    var n := Complete(s1, k, ok);
    MovesOn(cfg, s, s1, n, id, View(s1, id), View(n, id));
  }

  lemma ConnectedIsolated(cfg: Config, s: System, k: Key, ok: bool)
    requires Linked(cfg, s) && Possible(s, OnUpstream(k, Connected(ok)))
    ensures var id := s.upstreams[k].owner;
      Moves(cfg, s, UpstreamStep(cfg, s, k, Connected(ok)), id, CellUpstream(cfg, View(s, id), Connected(ok)))
  {
    assert UpstreamLinked(cfg, s, k);
    var u := s.upstreams[k];
    var relay := R.OnConnect(cfg.cipher, u.relay, ok);
    if ok {
      UpstreamIsolated(cfg, s, k, u.(relay := relay));
    } else {
      UpdateThenComplete(cfg, s, k, u.(relay := relay, notice := Owed), false);
    }
  }

  lemma WriteDoneIsolated(cfg: Config, s: System, k: Key, ok: bool)
    requires Linked(cfg, s) && Possible(s, OnUpstream(k, WriteDone(ok)))
    ensures var id := s.upstreams[k].owner;
      Moves(cfg, s, UpstreamStep(cfg, s, k, WriteDone(ok)), id, CellUpstream(cfg, View(s, id), WriteDone(ok)))
  {
    assert UpstreamLinked(cfg, s, k);
    var u := s.upstreams[k];
    var (relay, completion) := R.OnWriteComplete(u.relay, ok);
    if completion.Some? {
      UpdateThenComplete(cfg, s, k, u.(relay := relay), completion.value);
    } else {
      UpstreamIsolated(cfg, s, k, u.(relay := relay));
    }
  }

  lemma UpstreamReadIsolated(cfg: Config, s: System, k: Key, chunk: seq<byte>)
    requires Linked(cfg, s) && Possible(s, OnUpstream(k, UpstreamRead(chunk)))
    ensures var id := s.upstreams[k].owner;
      Moves(cfg, s, UpstreamStep(cfg, s, k, UpstreamRead(chunk)), id,
            CellUpstream(cfg, View(s, id), UpstreamRead(chunk)))
  {
    assert UpstreamLinked(cfg, s, k);
    var u := s.upstreams[k];
    var id, n := u.owner, UpstreamStep(cfg, s, k, UpstreamRead(chunk));
    var r := R.OnReadComplete(cfg.cipher, u.relay, chunk);
    assert ClientLinked(s, id);
    if r.None? {
      ClientIsolated(cfg, s, id, s.clients[id].(fault := ShortIv));
    } else {
      var (relay, plain) := r.value;
      UpstreamIsolated(cfg, s, k, u.(relay := relay));
      var s1 := WithUpstream(s, k, u.(relay := relay));
      if id in s.channelMap {
        AnswerIsolated(cfg, s1, id, Payload(plain), true);
        MovesOn(cfg, s, s1, n, id, View(s1, id), View(n, id));
      }
    }
  }

  lemma UpstreamClosedIsolated(cfg: Config, s: System, k: Key)
    requires Linked(cfg, s) && Possible(s, OnUpstream(k, UpstreamClosed))
    ensures var id := s.upstreams[k].owner;
      Moves(cfg, s, UpstreamStep(cfg, s, k, UpstreamClosed), id, CellUpstream(cfg, View(s, id), UpstreamClosed))
  {
    assert UpstreamLinked(cfg, s, k);
    var u := s.upstreams[k];
    UpstreamIsolated(cfg, s, k, u.(relay := R.OnClosed(u.relay), notice := Owed));
  }

  lemma UpstreamToldIsolated(cfg: Config, s: System, k: Key, sync: bool)
    requires Linked(cfg, s) && Possible(s, OnUpstream(k, UpstreamCloseCallback(sync)))
    ensures var id := s.upstreams[k].owner;
      Moves(cfg, s, UpstreamStep(cfg, s, k, UpstreamCloseCallback(sync)), id,
            CellUpstream(cfg, View(s, id), UpstreamCloseCallback(sync)))
  {
    assert UpstreamLinked(cfg, s, k);
    var u := s.upstreams[k];
    var id, s1 := u.owner, WithUpstream(s, k, u.(notice := Given));
    UpstreamIsolated(cfg, s, k, u.(notice := Given));
    var s2 := if u.bound.Some? then CloseChannel(s1, id, sync) else s1;
    if u.bound.Some? {
      CloseChannelIsolated(cfg, s1, id, sync);
      MovesOn(cfg, s, s1, s2, id, View(s1, id), View(s2, id));
    }
    if u.relay.hasTcp {
      assert k in s2.upstreams && s2.upstreams[k].owner == id by {
        KeyKept(s1, id, k, sync);
      }
      SessionIsolated(cfg, s2, k);
      var s3 := WithoutSession(s2, k);
      MovesOn(cfg, s, s2, s3, id, View(s2, id), View(s3, id));
    }
  }

  lemma KeyKept(s: System, id: Id, k: Key, sync: bool)
    requires k in s.upstreams && id in s.clients
    ensures var n := CloseChannel(s, id, sync);
      k in n.upstreams && n.upstreams[k].owner == s.upstreams[k].owner
  {
  }

  lemma FreeIsolated(cfg: Config, s: System, k: Key)
    requires Linked(cfg, s) && Possible(s, Free(k))
    ensures var id := s.upstreams[k].owner;
      Moves(cfg, s, Step(cfg, s, Free(k)), id, View(s, id).(upstream := None))
  {
    KeyIsOwn(cfg, s, k);
    FreeLinks(cfg, s, k);
    FreeView(s, k, s.upstreams[k].owner);
  }

  /** A session that is freed is in no channel. */
  lemma FreeClient(s: System, k: Key, id: Id)
    requires Possible(s, Free(k)) && id in s.clients && ClientLinked(s, id)
    ensures ClientLinked(s.(upstreams := s.upstreams - {k}), id)
  {
  }

  lemma FreeLinks(cfg: Config, s: System, k: Key)
    requires Linked(cfg, s) && Possible(s, Free(k))
    ensures Linked(cfg, Step(cfg, s, Free(k)))
  {
    var n := Step(cfg, s, Free(k));
    forall id | id in n.clients ensures ClientLinked(n, id) {
      FreeClient(s, k, id);
    }
    forall j | j in n.upstreams ensures UpstreamLinked(cfg, n, j) {
      assert UpstreamLinked(cfg, s, j);
    }
    forall j | j in n.paddingRequestMap ensures PendingLinked(n, j) {
      assert PendingLinked(s, j);
    }
    RelatedIsSane(cfg, n);
  }

  lemma FreeView(s: System, k: Key, id: Id)
    requires Owns(s, id, k) && k !in s.sessionMap && id in s.clients && s.clients[id].key == Some(k)
    ensures var n := s.(upstreams := s.upstreams - {k});
      OthersSame(s, n, id) && View(n, id) == View(s, id).(upstream := None)
  {
  }

  /**
   * Channel isolation, one step: every event is a step of the one-channel machine for the channel it concerns,
   * and leaves all that every other channel has, sent bytes, replies, closes and timers included, as it was. The
   * one exception is a request at the address of an old one that is still pending.
   */
  lemma StepIsolated(cfg: Config, s: System, e: Event)
    requires Linked(cfg, s) && Proper(s, e)
    ensures var id, n := Concerns(s, e), Step(cfg, s, e);
      && Linked(cfg, n)
      && View(s, id).Fits(cfg) && Ready(View(s, id), Local(e))
      && View(n, id) == CellStep(cfg, View(s, id), Local(e))
      && forall j | j != id :: View(n, j) == View(s, j)
  {
    ViewFits(cfg, s, Concerns(s, e));
    LocalReady(cfg, s, e);
    match e {
      case Arrive => ArrivalIsolated(cfg, s);
      case OnClient(id, c) => ClientStepIsolated(cfg, s, id, c);
      case OnUpstream(k, Connected(ok)) => ConnectedIsolated(cfg, s, k, ok);
      case OnUpstream(k, WriteDone(ok)) => WriteDoneIsolated(cfg, s, k, ok);
      case OnUpstream(k, UpstreamRead(chunk)) => UpstreamReadIsolated(cfg, s, k, chunk);
      case OnUpstream(k, UpstreamClosed) => UpstreamClosedIsolated(cfg, s, k);
      case OnUpstream(k, UpstreamCloseCallback(sync)) => UpstreamToldIsolated(cfg, s, k, sync);
      case Free(k) => FreeIsolated(cfg, s, k);
    }
  }

  /** A request at the address of an old pending one is not entered: its own channel is not the one it waits for. */
  lemma StaleMisdirects(cfg: Config, s: System, e: Event)
    requires Linked(cfg, s) && Possible(s, e) && Stale(s, e)
    ensures var n, k := Step(cfg, s, e), e.c.newKey;
      && k in n.upstreams && n.upstreams[k].owner == e.id
      && k in n.paddingRequestMap && n.paddingRequestMap[k] == s.paddingRequestMap[k] != e.id
  {
    assert ClientLinked(s, e.id);
    assert PendingLinked(s, e.c.newKey);
  }

  /** An event steps the channel it concerns, and only that one, exactly when it is not such a request. */
  lemma IsolationExactly(cfg: Config, s: System, e: Event)
    requires Linked(cfg, s) && Possible(s, e)
    ensures var id, n := Concerns(s, e), Step(cfg, s, e);
      && View(s, id).Fits(cfg) && Ready(View(s, id), Local(e))
      && (Proper(s, e) <==>
            View(n, id) == CellStep(cfg, View(s, id), Local(e)) && forall j | j != id :: View(n, j) == View(s, j))
  {
    ViewFits(cfg, s, Concerns(s, e));
    LocalReady(cfg, s, e);
    if Stale(s, e) {
      StaleMisdirects(cfg, s, e);
    } else {
      StepIsolated(cfg, s, e);
    }
  }
}
