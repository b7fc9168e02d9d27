/** The multiplexer's own code: the tables it keeps, and what each callback does to them. */
module Socks2SSServer {
  import opened Bytes
  import opened Cipher
  import opened Socks5
  import opened RelayHeader
  import opened Channels
  import opened Multiplexer
  import opened Runs
  import R = RelaySessions
  import S = Socks5Sessions

  /** The upstream client's table of sessions it still holds. */
  class SSClient {
    const cipher: Cipher
    var sessionMap: set<Key>

    constructor (cipher: Cipher)
      ensures this.cipher == cipher && sessionMap == {}
    {
      this.cipher := cipher;
      sessionMap := {};
    }

    /** Lists the request's new session, which has its own cipher contexts and is on its way to connect. */
    method SendTCPRelayRequest(key: Key, request: SSTCPRelayRequest, random: seq<byte>)
      returns (session: R.SSTCPRelaySession)
      requires cipher.Valid() && |random| == 16 && request.Invariant() && request.valid
      modifies this
      ensures sessionMap == old(sessionMap) + {key}
      ensures fresh(session) && fresh(session.crypto) && session.request == request && session.Valid()
      ensures session.crypto.cipher == cipher
      ensures session.Abs() == R.Fresh(cipher, request.Value().Bytes(), random[..cipher.IvLength()])
    {
      var crypto := new Crypto(cipher, random);
      session := new R.SSTCPRelaySession(crypto, request);
      sessionMap := sessionMap + {key};
    }

    method OnDefaultClose(request: Key)
      modifies this
      ensures sessionMap == old(sessionMap) - {request}
    {
      sessionMap := sessionMap - {request};
    }
  }

  class Socks2SS {
    const cfg: Config
    const ssClient: SSClient
    var channelMap: map<Id, Channel>
    var paddingRequestMap: map<Key, Id>
    var nextChannelID: Id
    // The session objects the callbacks reach through captured pointers.
    var clients: map<Id, Client>
    var upstreams: map<Key, Upstream>

    /** The client of upstream sessions uses the cipher it was made for. */
    ghost predicate Valid() {
      ssClient.cipher == cfg.cipher
    }

    ghost function Abs(): System
      reads this, ssClient
    {
      System(channelMap, paddingRequestMap, nextChannelID, ssClient.sessionMap, clients, upstreams)
    }

    constructor (cfg: Config)
      ensures fresh(ssClient) && this.cfg == cfg && Valid() && Abs() == EMPTY
    {
      this.cfg := cfg;
      ssClient := new SSClient(cfg.cipher);
      channelMap, paddingRequestMap, nextChannelID := map[], map[], 0;
      clients, upstreams := map[], map[];
    }

    method CreateChannel() returns (id: Id)
      modifies this
      ensures id == old(nextChannelID) && Abs() == Arrival(old(Abs()))
    {
      id := nextChannelID;
      channelMap := channelMap[id := Channel(Inited, None)];
      clients := clients[id := NEW_CLIENT];
      nextChannelID := nextChannelID + 1;
    }

    /** The first acceptable method of those offered. */
    method GenMethodSelectionResponse(methods: seq<byte>) returns (m: byte)
      ensures m == ChooseMethod(methods)
    {
      for i := 0 to |methods|
        invariant METHOD_NO_AUTH !in methods[..i]
      {
        if methods[i] == METHOD_NO_AUTH {
          return METHOD_NO_AUTH;
        }
      }
      return METHOD_NOT_ACCEPT;
    }

    method OnNegotiate(id: Id, methods: seq<byte>)
      requires id in clients
      modifies this
      ensures Abs() == Negotiation(old(Abs()), id, methods)
    {
      if id in channelMap {
        var m := GenMethodSelectionResponse(methods);
        var cl := clients[id];
        cl := cl.(sent := cl.sent + [Method(m)]);
        if m != METHOD_NO_AUTH {
          cl := cl.(timers := cl.timers + 1);
        }
        clients := clients[id := cl];
      }
    }

    method OnRequest(id: Id, request: Socks5.Request, newKey: Key, random: seq<byte>)
      requires Valid() && cfg.Valid() && |random| == 16 && id in clients && request.Valid()
      modifies this, ssClient
      ensures Abs() == OpenRequest(cfg, old(Abs()), id, request, newKey, random)
    {
      if request.cmd != CMD_CONNECT {
        if id in channelMap {
          var cl := clients[id];
          clients := clients[id := cl.(sent := cl.sent + [Reply(STATUS_CMD_NOT_SUPPORTED)], timers := cl.timers + 1)];
        }
      } else if id in channelMap {
        channelMap := channelMap[id := channelMap[id].(status := WaitingSession)];
        if newKey !in paddingRequestMap {
          paddingRequestMap := paddingRequestMap[newKey := id];
        }
        clients := clients[id := clients[id].(key := Some(newKey))];
        upstreams := upstreams[newKey := NewUpstream(cfg, request, random, id)];
        var relayRequest := RelayRequest(request);
        var session := ssClient.SendTCPRelayRequest(newKey, relayRequest, random);
        assert upstreams[newKey].relay == session.Abs();
      }
    }

    /** The upstream request for a client's request. */
    method RelayRequest(request: Socks5.Request) returns (r: SSTCPRelayRequest)
      requires cfg.Valid() && request.Valid()
      ensures fresh(r) && r.valid && r.Invariant() && r.Value() == Translate(request, cfg.blank)
    {
      if request.address.HostName? {
        r := new SSTCPRelayRequest.ToHost(request.address.name, request.address.number);
      } else {
        r := new SSTCPRelayRequest.ToAddress(if request.address.Unknown? then cfg.blank else request.address);
      }
    }

    method OnRead(id: Id, data: seq<byte>)
      requires Sane(cfg, Abs()) && id in clients
      modifies this
      ensures Abs() == Forward(cfg, old(Abs()), id, data)
    {
      if id in channelMap {
        assert HeldIsThere(Abs(), id);
        var k := channelMap[id].ssSession;
        if k.None? {
          clients := clients[id := clients[id].(fault := NullSession)];
        } else {
          assert SessionSane(cfg, Abs(), k.value);
          var u := upstreams[k.value];
          upstreams := upstreams[k.value := u.(relay := R.SendPacket(cfg.cipher, u.relay, data))];
        }
      }
    }

    /** `sync` tells whether the client's TCP session is closed as soon as it is asked to close. */
    method CloseChannel(id: Id, sync: bool)
      requires Sane(cfg, Abs()) && (id in channelMap ==> id in clients)
      modifies this
      ensures Abs() == Multiplexer.CloseChannel(old(Abs()), id, sync)
    {
      if id !in channelMap {
        return;
      }
      assert HeldIsThere(Abs(), id);
      var ch := channelMap[id];
      var status := ch.status;
      ghost var verdict := CloseVerdict(status, clients[id].tcpClosed, sync, SessionState(Abs(), id));
      match status {
        case Inited =>
          status := CloseClient(id, sync);
        case WaitingSession =>
          status := CloseClient(id, sync);
        case Established =>
          if ch.ssSession.None? {
            clients := clients[id := clients[id].(fault := NullSession)];
            return;
          }
          var _ := CloseClient(id, sync);
          var u := upstreams[ch.ssSession.value];
          if !u.relay.IsClosed() {
            upstreams := upstreams[ch.ssSession.value := u.(relay := R.Close(u.relay))];
          }
          status := Closing;
          if clients[id].tcpClosed && u.relay.IsClosed() {
            status := Closed;
          }
        case Closing =>
          if clients[id].tcpClosed {
            if ch.ssSession.None? {
              clients := clients[id := clients[id].(fault := NullSession)];
              return;
            }
            if upstreams[ch.ssSession.value].relay.IsClosed() {
              status := Closed;
            }
          }
        case Closed =>
      }
      assert verdict.Verdict? && status == verdict.status;
      if status == Closed {
        channelMap := channelMap - {id};
      } else {
        channelMap := channelMap[id := ch.(status := status)];
      }
    }

    /** Asks a client that is not closed to close. */
    method CloseClient(id: Id, sync: bool) returns (status: ChannelStatus)
      requires id in clients
      modifies this`clients
      ensures status == (if old(clients)[id].tcpClosed then Closed else Closing)
      ensures clients == if old(clients)[id].tcpClosed then old(clients)
                         else old(clients)[id := AskedToClose(old(clients)[id], sync)]
    {
      if clients[id].tcpClosed {
        return Closed;
      }
      clients := clients[id := AskedToClose(clients[id], sync)];
      return Closing;
    }

    /** The request callback of the upstream client. */
    method OnRequestDone(k: Key, ok: bool)
      requires k in upstreams && upstreams[k].owner in clients
      requires k in paddingRequestMap ==> paddingRequestMap[k] in clients
      modifies this
      ensures Abs() == Complete(old(Abs()), k, ok)
      ensures k in ssClient.sessionMap && k !in old(paddingRequestMap) ==>
        var owner := old(upstreams[k].owner);
        Abs() == old(Abs()).(clients := old(clients)[owner := old(clients[owner]).(fault := NoPendingRequest)])
    {
      if k in ssClient.sessionMap {
        if k in paddingRequestMap {
          var id := paddingRequestMap[k];
          var u := upstreams[k].(bound := Some(id));
          if id in channelMap {
            channelMap := channelMap[id := Channel(Established, Some(k))];
            var cl := clients[id];
            cl := cl.(sent := cl.sent + [ReplyFor(ok)]);
            if !ok {
              cl := cl.(timers := cl.timers + 1);
            }
            clients := clients[id := cl];
          } else {
            u := u.(relay := R.Close(u.relay));
          }
          upstreams := upstreams[k := u];
          paddingRequestMap := paddingRequestMap - {k};
        } else {
          clients := clients[upstreams[k].owner := clients[upstreams[k].owner].(fault := NoPendingRequest)];
        }
      }
    }

    /** The read callback installed on an upstream session for channel `id`. */
    method OnUpstreamRead(id: Id, plain: seq<byte>)
      requires id in channelMap ==> id in clients
      modifies this
      ensures Abs() == Deliver(old(Abs()), id, plain)
    {
      if id in channelMap {
        var cl := clients[id];
        clients := clients[id := cl.(sent := cl.sent + [Payload(plain)])];
      }
    }

    // The callbacks as they run, from the TCP event to its end.

    /** A read by a client session. */
    method HandleRead(id: Id, chunk: seq<byte>, newKey: Key, random: seq<byte>)
      requires Valid() && Sane(cfg, Abs()) && Possible(Abs(), OnClient(id, Read(chunk, newKey, random)))
      modifies this, ssClient
      ensures Abs() == ReadStep(cfg, old(Abs()), id, chunk, newKey, random)
    {
      var (session, event) := S.OnRead(clients[id].session, chunk);
      ClientSane(cfg, Abs(), id, Recorded(clients[id], session, chunk, event));
      if event.Garbled? {
        clients := clients[id := clients[id].(fault := DecoderOverrun)];
      } else {
        clients := clients[id := Recorded(clients[id], session, chunk, event)];
        match event {
          case Negotiate(_, methods) => OnNegotiate(id, methods);
          case Ask(_, request) => OnRequest(id, request, newKey, random);
          case Data(data) => OnRead(id, data);
          case _ =>
        }
      }
    }

    method HandleClient(id: Id, c: ClientEvent)
      requires Valid() && Sane(cfg, Abs()) && Possible(Abs(), OnClient(id, c))
      modifies this, ssClient
      ensures Abs() == ClientStep(cfg, old(Abs()), id, c)
    {
      var cl := clients[id];
      match c {
        case Read(chunk, newKey, random) => HandleRead(id, chunk, newKey, random);
        case TcpClosed => clients := clients[id := cl.(tcpClosed := true)];
        case CloseCallback(sync) =>
          var told := cl.(session := cl.session.(status := S.Disconnected), notified := true);
          ClientSane(cfg, Abs(), id, told);
          clients := clients[id := told];
          CloseChannel(id, sync);
        case Timer(sync) =>
          ClientSane(cfg, Abs(), id, cl.(timers := cl.timers - 1));
          clients := clients[id := cl.(timers := cl.timers - 1)];
          CloseChannel(id, sync);
      }
    }

    /** The connect callback of the session of request `k`. */
    method HandleConnected(k: Key, ok: bool)
      requires Sane(cfg, Abs()) && Possible(Abs(), OnUpstream(k, Connected(ok)))
      modifies this
      ensures Abs() == UpstreamStep(cfg, old(Abs()), k, Connected(ok))
    {
      assert SessionSane(cfg, Abs(), k);
      var u := upstreams[k];
      var relay := R.OnConnect(cfg.cipher, u.relay, ok);
      if ok {
        upstreams := upstreams[k := u.(relay := relay)];
      } else {
        upstreams := upstreams[k := u.(relay := relay, notice := Owed)];
        OnRequestDone(k, false);
      }
    }

    method HandleWriteDone(k: Key, ok: bool)
      requires Sane(cfg, Abs()) && Possible(Abs(), OnUpstream(k, WriteDone(ok)))
      modifies this
      ensures Abs() == UpstreamStep(cfg, old(Abs()), k, WriteDone(ok))
    {
      assert SessionSane(cfg, Abs(), k);
      var (relay, completion) := R.OnWriteComplete(upstreams[k].relay, ok);
      upstreams := upstreams[k := upstreams[k].(relay := relay)];
      if completion.Some? {
        OnRequestDone(k, completion.value);
      }
    }

    method HandleUpstreamRead(k: Key, chunk: seq<byte>)
      requires Sane(cfg, Abs()) && Possible(Abs(), OnUpstream(k, UpstreamRead(chunk)))
      modifies this
      ensures Abs() == UpstreamStep(cfg, old(Abs()), k, UpstreamRead(chunk))
    {
      assert SessionSane(cfg, Abs(), k);
      var u := upstreams[k];
      var r := R.OnReadComplete(cfg.cipher, u.relay, chunk);
      if r.None? {
        clients := clients[u.owner := clients[u.owner].(fault := ShortIv)];
      } else {
        upstreams := upstreams[k := u.(relay := r.value.0)];
        OnUpstreamRead(u.bound.value, r.value.1);
      }
    }

    /** The close callbacks of the session of request `k`: the one installed for its channel, then the client's. */
    method HandleUpstreamClosed(k: Key, sync: bool)
      requires Sane(cfg, Abs()) && Possible(Abs(), OnUpstream(k, UpstreamCloseCallback(sync)))
      modifies this, ssClient
      ensures Abs() == UpstreamStep(cfg, old(Abs()), k, UpstreamCloseCallback(sync))
    {
      assert SessionSane(cfg, Abs(), k);
      var u := upstreams[k];
      UpstreamSane(cfg, Abs(), k, u.(notice := Given));
      upstreams := upstreams[k := u.(notice := Given)];
      if u.bound.Some? {
        CloseChannel(u.bound.value, sync);
      }
      if u.relay.hasTcp {
        ssClient.OnDefaultClose(k);
      }
    }

    method HandleUpstream(k: Key, u: UpstreamEvent)
      requires Sane(cfg, Abs()) && Possible(Abs(), OnUpstream(k, u))
      modifies this, ssClient
      ensures Abs() == UpstreamStep(cfg, old(Abs()), k, u)
    {
      match u {
        case Connected(ok) => HandleConnected(k, ok);
        case WriteDone(ok) => HandleWriteDone(k, ok);
        case UpstreamRead(chunk) => HandleUpstreamRead(k, chunk);
        case UpstreamClosed =>
          var up := upstreams[k];
          upstreams := upstreams[k := up.(relay := R.OnClosed(up.relay), notice := Owed)];
        case UpstreamCloseCallback(sync) => HandleUpstreamClosed(k, sync);
      }
    }

    /** Every event, from its TCP or timer callback to the end of all it runs, is a step of the multiplexer. */
    method Handle(e: Event)
      requires Valid() && Sane(cfg, Abs()) && Possible(Abs(), e)
      modifies this, ssClient
      ensures Abs() == Step(cfg, old(Abs()), e) && Sane(cfg, Abs())
    {
      StepSane(cfg, Abs(), e);
      match e {
        case Arrive => var _ := CreateChannel();
        case OnClient(id, c) => HandleClient(id, c);
        case OnUpstream(k, u) => HandleUpstream(k, u);
        case Free(k) => upstreams := upstreams - {k};
      }
    }
  }
}
