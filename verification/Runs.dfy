/** Runs of the multiplexer: whatever can happen, one event after another. */
module Runs {
  import opened Bytes
  import opened Socks5
  import opened Channels
  import opened Multiplexer
  import S = Socks5Sessions
  import R = RelaySessions

  // Every step leaves the tables sane.

  lemma ClientSane(cfg: Config, s: System, id: Id, cl: Client)
    requires Sane(cfg, s) && id in s.clients
    ensures Sane(cfg, WithClient(s, id, cl))
  {
    var n := WithClient(s, id, cl);
    forall k | k in n.upstreams ensures SessionSane(cfg, n, k) {
      assert SessionSane(cfg, s, k);
    }
    forall j | j in n.channelMap ensures HeldIsThere(n, j) {
      assert HeldIsThere(s, j);
    }
  }

  lemma UpstreamSane(cfg: Config, s: System, k: Key, u: Upstream)
    requires Sane(cfg, s) && u.relay.Fits(cfg.cipher) && u.owner in s.clients
    requires u.bound.Some? ==> u.bound.value in s.clients
    ensures Sane(cfg, WithUpstream(s, k, u))
  {
    var n := WithUpstream(s, k, u);
    forall j | j in n.upstreams ensures SessionSane(cfg, n, j) {
      assert j != k ==> SessionSane(cfg, s, j);
    }
    forall j | j in n.channelMap ensures HeldIsThere(n, j) {
      assert HeldIsThere(s, j);
    }
  }

  lemma ChannelSane(cfg: Config, s: System, id: Id, ch: Option<Channel>)
    requires Sane(cfg, s) && id in s.clients
    requires ch.Some? && ch.value.ssSession.Some? ==> ch.value.ssSession.value in s.upstreams
    ensures Sane(cfg, WithChannel(s, id, ch))
  {
    var n := WithChannel(s, id, ch);
    forall k | k in n.upstreams ensures SessionSane(cfg, n, k) {
      assert SessionSane(cfg, s, k);
    }
    forall j | j in n.channelMap ensures HeldIsThere(n, j) {
      assert j != id ==> HeldIsThere(s, j);
    }
  }

  /** Entries that go from the two other tables leave the rest sane. */
  lemma ErasedSane(cfg: Config, s: System, n: System)
    requires Sane(cfg, s) && n == s.(paddingRequestMap := n.paddingRequestMap, sessionMap := n.sessionMap)
    requires n.sessionMap <= s.sessionMap && n.paddingRequestMap.Keys <= s.paddingRequestMap.Keys
    requires forall k | k in n.paddingRequestMap :: n.paddingRequestMap[k] == s.paddingRequestMap[k]
    ensures Sane(cfg, n)
  {
    forall k | k in n.upstreams ensures SessionSane(cfg, n, k) {
      assert SessionSane(cfg, s, k);
    }
    forall j | j in n.channelMap ensures HeldIsThere(n, j) {
      assert HeldIsThere(s, j);
    }
  }

  lemma ArrivalSane(cfg: Config, s: System)
    requires Sane(cfg, s)
    ensures Sane(cfg, Arrival(s))
  {
    var n := Arrival(s);
    forall k | k in n.upstreams ensures SessionSane(cfg, n, k) {
      assert SessionSane(cfg, s, k);
    }
    forall j | j in n.channelMap ensures HeldIsThere(n, j) {
      assert j != s.nextChannelID ==> HeldIsThere(s, j);
    }
  }

  lemma FreeSane(cfg: Config, s: System, k: Key)
    requires Sane(cfg, s) && Possible(s, Free(k))
    ensures Sane(cfg, Step(cfg, s, Free(k)))
  {
    var n := Step(cfg, s, Free(k));
    forall j | j in n.upstreams ensures SessionSane(cfg, n, j) {
      assert SessionSane(cfg, s, j);
    }
    forall j | j in n.channelMap ensures HeldIsThere(n, j) {
      assert HeldIsThere(s, j);
    }
  }

  lemma CloseUpstreamSane(cfg: Config, s: System, k: Option<Key>)
    requires Sane(cfg, s)
    ensures Sane(cfg, CloseUpstream(s, k)) && CloseUpstream(s, k).upstreams.Keys == s.upstreams.Keys
    ensures CloseUpstream(s, k) == s.(upstreams := CloseUpstream(s, k).upstreams)
  {
    if k.Some? && k.value in s.upstreams {
      var u := s.upstreams[k.value];
      assert SessionSane(cfg, s, k.value);
      UpstreamSane(cfg, s, k.value, u.(relay := R.Close(u.relay)));
    }
  }

  lemma CloseChannelSane(cfg: Config, s: System, id: Id, sync: bool)
    requires Sane(cfg, s)
    ensures Sane(cfg, CloseChannel(s, id, sync))
  {
    if id in s.channelMap {
      assert HeldIsThere(s, id);
      var ch := s.channelMap[id];
      var v := CloseVerdict(ch.status, s.clients[id].tcpClosed, sync, SessionState(s, id));
      if v.Null? {
        ClientSane(cfg, s, id, s.clients[id].(fault := NullSession));
      } else {
        RearrangeSane(cfg, s, id, v.closeClient, sync, if v.closeUpstream then ch.ssSession else None,
                      if v.status == Closed then None else Some(ch.(status := v.status)));
      }
    }
  }

  lemma RearrangeSane(cfg: Config, s: System, id: Id, closeClient: bool, sync: bool, close: Option<Key>,
                      ch: Option<Channel>)
    requires Sane(cfg, s) && id in s.clients
    requires ch.Some? && ch.value.ssSession.Some? ==> ch.value.ssSession.value in s.upstreams
    ensures Sane(cfg, Rearrange(s, id, closeClient, sync, close, ch))
  {
    var cl := AskedToClose(s.clients[id], sync);
    if closeClient {
      ClientSane(cfg, s, id, cl);
    }
    var s1 := if closeClient then WithClient(s, id, cl) else s;
    CloseUpstreamSane(cfg, s1, close);
    ChannelSane(cfg, CloseUpstream(s1, close), id, ch);
  }

  lemma OpenRequestSane(cfg: Config, s: System, id: Id, request: Socks5.Request, newKey: Key, random: seq<byte>)
    requires Sane(cfg, s) && id in s.clients && |random| == 16 && newKey !in s.upstreams
    ensures Sane(cfg, OpenRequest(cfg, s, id, request, newKey, random))
  {
    var n := OpenRequest(cfg, s, id, request, newKey, random);
    forall k | k in n.upstreams ensures SessionSane(cfg, n, k) {
      assert k in s.upstreams ==> SessionSane(cfg, s, k);
    }
    forall j | j in n.channelMap ensures HeldIsThere(n, j) {
      assert HeldIsThere(s, j);
    }
  }

  lemma ForwardSane(cfg: Config, s: System, id: Id, data: seq<byte>)
    requires Sane(cfg, s) && id in s.clients
    requires id in s.channelMap ==> SessionFits(cfg, s, s.channelMap[id].ssSession)
    ensures Sane(cfg, Forward(cfg, s, id, data))
  {
    if id in s.channelMap {
      if SessionState(s, id).None? {
        ClientSane(cfg, s, id, s.clients[id].(fault := NullSession));
      } else {
        var k := s.channelMap[id].ssSession.value;
        var u := s.upstreams[k];
        assert SessionSane(cfg, s, k);
        UpstreamSane(cfg, s, k, u.(relay := R.SendPacket(cfg.cipher, u.relay, data)));
      }
    }
  }

  lemma CompleteSane(cfg: Config, s: System, k: Key, ok: bool)
    requires Sane(cfg, s) && k in s.upstreams && s.upstreams[k].owner in s.clients
    ensures Sane(cfg, Complete(s, k, ok))
  {
    assert SessionSane(cfg, s, k);
    if k in s.sessionMap {
      if k !in s.paddingRequestMap {
        var owner := s.upstreams[k].owner;
        ClientSane(cfg, s, owner, s.clients[owner].(fault := NoPendingRequest));
      } else {
        var id := s.paddingRequestMap[k];
        var u, s1 := s.upstreams[k].(bound := Some(id)), WithoutPending(s, k);
        ErasedSane(cfg, s, s1);
        if id in s.channelMap {
          UpstreamSane(cfg, s1, k, u);
          var s2 := WithUpstream(s1, k, u);
          ChannelSane(cfg, s2, id, Some(Channel(Established, Some(k))));
          var s3 := WithChannel(s2, id, Some(Channel(Established, Some(k))));
          ClientSane(cfg, s3, id, Answered(s3.clients[id], ReplyFor(ok), ok));
        } else {
          UpstreamSane(cfg, s1, k, u.(relay := R.Close(u.relay)));
        }
      }
    }
  }

  lemma ReadSane(cfg: Config, s: System, id: Id, chunk: seq<byte>, newKey: Key, random: seq<byte>)
    requires Sane(cfg, s) && Possible(s, OnClient(id, Read(chunk, newKey, random)))
    ensures Sane(cfg, ReadStep(cfg, s, id, chunk, newKey, random))
  {
    var (session, event) := S.OnRead(s.clients[id].session, chunk);
    var cl := Recorded(s.clients[id], session, chunk, event);
    var s1 := WithClient(s, id, cl);
    ClientSane(cfg, s, id, cl);
    match event {
      case Garbled(_) => ClientSane(cfg, s, id, s.clients[id].(fault := DecoderOverrun));
      case Negotiate(_, methods) =>
        ClientSane(cfg, s1, id, Answered(cl, Method(ChooseMethod(methods)), METHOD_NO_AUTH in methods));
      case Ask(_, request) =>
        ClientSane(cfg, s1, id, Answered(cl, Reply(STATUS_CMD_NOT_SUPPORTED), false));
        OpenRequestSane(cfg, s1, id, request, newKey, random);
      case Data(data) =>
        assert forall k | k in s.upstreams :: SessionSane(cfg, s, k);
        ForwardSane(cfg, s1, id, data);
      case _ =>
    }
  }

  lemma ClientStepSane(cfg: Config, s: System, id: Id, c: ClientEvent)
    requires Sane(cfg, s) && Possible(s, OnClient(id, c))
    ensures Sane(cfg, ClientStep(cfg, s, id, c))
  {
    var cl := s.clients[id];
    match c {
      case Read(chunk, newKey, random) => ReadSane(cfg, s, id, chunk, newKey, random);
      case TcpClosed => ClientSane(cfg, s, id, cl.(tcpClosed := true));
      case CloseCallback(sync) =>
        var told := cl.(session := cl.session.(status := S.Disconnected), notified := true);
        ClientSane(cfg, s, id, told);
        CloseChannelSane(cfg, WithClient(s, id, told), id, sync);
      case Timer(sync) =>
        var ticked := cl.(timers := cl.timers - 1);
        ClientSane(cfg, s, id, ticked);
        CloseChannelSane(cfg, WithClient(s, id, ticked), id, sync);
    }
  }

  /** An upstream session's own update, then a completion. */
  lemma UpdatedSane(cfg: Config, s: System, k: Key, u: Upstream, ok: bool)
    requires Sane(cfg, s) && k in s.upstreams && u.owner == s.upstreams[k].owner && u.bound == s.upstreams[k].bound
    requires u.relay.Fits(cfg.cipher)
    ensures Sane(cfg, WithUpstream(s, k, u)) && u.owner in s.clients
    ensures Sane(cfg, Complete(WithUpstream(s, k, u), k, ok))
  {
    assert SessionSane(cfg, s, k);
    UpstreamSane(cfg, s, k, u);
    CompleteSane(cfg, WithUpstream(s, k, u), k, ok);
  }

  lemma DeliverSane(cfg: Config, s: System, id: Id, plain: seq<byte>)
    requires Sane(cfg, s)
    ensures Sane(cfg, Deliver(s, id, plain))
  {
    if id in s.channelMap {
      ClientSane(cfg, s, id, Answered(s.clients[id], Payload(plain), true));
    }
  }

  lemma UpstreamStepSane(cfg: Config, s: System, k: Key, e: UpstreamEvent)
    requires Sane(cfg, s) && Possible(s, OnUpstream(k, e))
    ensures Sane(cfg, UpstreamStep(cfg, s, k, e))
  {
    var u := s.upstreams[k];
    assert SessionSane(cfg, s, k);
    match e {
      case Connected(ok) =>
        var relay := R.OnConnect(cfg.cipher, u.relay, ok);
        UpdatedSane(cfg, s, k, u.(relay := relay), false);
        UpdatedSane(cfg, s, k, u.(relay := relay, notice := Owed), false);
      case WriteDone(ok) => UpdatedSane(cfg, s, k, u.(relay := R.OnWriteComplete(u.relay, ok).0), ok);
      case UpstreamRead(chunk) =>
        var r := R.OnReadComplete(cfg.cipher, u.relay, chunk);
        if r.None? {
          ClientSane(cfg, s, u.owner, s.clients[u.owner].(fault := ShortIv));
        } else {
          UpdatedSane(cfg, s, k, u.(relay := r.value.0), true);
          DeliverSane(cfg, WithUpstream(s, k, u.(relay := r.value.0)), u.bound.value, r.value.1);
        }
      case UpstreamClosed => UpdatedSane(cfg, s, k, u.(relay := R.OnClosed(u.relay), notice := Owed), true);
      case UpstreamCloseCallback(sync) => ToldSane(cfg, s, k, sync);
    }
  }

  lemma ToldSane(cfg: Config, s: System, k: Key, sync: bool)
    requires Sane(cfg, s) && Possible(s, OnUpstream(k, UpstreamCloseCallback(sync)))
    ensures Sane(cfg, UpstreamStep(cfg, s, k, UpstreamCloseCallback(sync)))
  {
    var u := s.upstreams[k];
    UpdatedSane(cfg, s, k, u.(notice := Given), true);
    var s1 := WithUpstream(s, k, u.(notice := Given));
    if u.bound.Some? {
      CloseChannelSane(cfg, s1, u.bound.value, sync);
    }
    var s2 := if u.bound.Some? then CloseChannel(s1, u.bound.value, sync) else s1;
    ErasedSane(cfg, s2, WithoutSession(s2, k));
  }

  /** Whatever happens, the tables stay sane: no channel holds a destroyed session, no id is used twice. */
  lemma StepSane(cfg: Config, s: System, e: Event)
    requires Sane(cfg, s) && Possible(s, e)
    ensures Sane(cfg, Step(cfg, s, e))
  {
    match e {
      case Arrive => ArrivalSane(cfg, s);
      case OnClient(id, c) => ClientStepSane(cfg, s, id, c);
      case OnUpstream(k, u) => UpstreamStepSane(cfg, s, k, u);
      case Free(k) => FreeSane(cfg, s, k);
    }
  }

  // Runs.

  /** Whatever can happen, one step after another. */
  ghost predicate PossibleRun(cfg: Config, s: System, es: seq<Event>)
    requires Sane(cfg, s)
    decreases |es|
  {
    es == [] ||
    (Possible(s, es[0]) && (StepSane(cfg, s, es[0]); PossibleRun(cfg, Step(cfg, s, es[0]), es[1..])))
  }

  ghost function Run(cfg: Config, s: System, es: seq<Event>): (n: System)
    requires Sane(cfg, s) && PossibleRun(cfg, s, es)
    ensures Sane(cfg, n)
    decreases |es|
  {
    if es == [] then s else
      StepSane(cfg, s, es[0]);
      Run(cfg, Step(cfg, s, es[0]), es[1..])
  }

  // Ids.

  /** From `s` to `n` no client is forgotten and no channel is entered. */
  predicate NoneEntered(s: System, n: System) {
    s.clients.Keys <= n.clients.Keys && n.channelMap.Keys <= s.channelMap.Keys
  }

  lemma CloseEntersNone(s: System, id: Id, sync: bool)
    requires s.channelMap.Keys <= s.clients.Keys
    ensures NoneEntered(s, CloseChannel(s, id, sync))
  {
  }

  lemma CompleteEntersNone(s: System, k: Key, ok: bool)
    requires k in s.upstreams && s.upstreams[k].owner in s.clients
    requires k in s.paddingRequestMap ==> s.paddingRequestMap[k] in s.clients
    ensures NoneEntered(s, Complete(s, k, ok))
  {
  }

  lemma ReadEntersNone(cfg: Config, s: System, id: Id, chunk: seq<byte>, newKey: Key, random: seq<byte>)
    requires Sane(cfg, s) && Possible(s, OnClient(id, Read(chunk, newKey, random)))
    ensures NoneEntered(s, ReadStep(cfg, s, id, chunk, newKey, random))
  {
  }

  lemma ClientEntersNone(cfg: Config, s: System, id: Id, c: ClientEvent)
    requires Sane(cfg, s) && Possible(s, OnClient(id, c))
    ensures NoneEntered(s, ClientStep(cfg, s, id, c))
  {
    var cl := s.clients[id];
    match c {
      case Read(chunk, newKey, random) => ReadEntersNone(cfg, s, id, chunk, newKey, random);
      case TcpClosed =>
      case CloseCallback(sync) =>
        var told := cl.(session := cl.session.(status := S.Disconnected), notified := true);
        CloseEntersNone(WithClient(s, id, told), id, sync);
      case Timer(sync) => CloseEntersNone(WithClient(s, id, cl.(timers := cl.timers - 1)), id, sync);
    }
  }

  lemma UpstreamEntersNone(cfg: Config, s: System, k: Key, e: UpstreamEvent)
    requires Sane(cfg, s) && Possible(s, OnUpstream(k, e))
    ensures NoneEntered(s, UpstreamStep(cfg, s, k, e))
  {
    var u := s.upstreams[k];
    assert SessionSane(cfg, s, k);
    match e {
      case Connected(ok) =>
        var relay := R.OnConnect(cfg.cipher, u.relay, ok);
        CompleteEntersNone(WithUpstream(s, k, u.(relay := relay, notice := Owed)), k, false);
      case WriteDone(ok) =>
        CompleteEntersNone(WithUpstream(s, k, u.(relay := R.OnWriteComplete(u.relay, ok).0)), k, ok);
      case UpstreamCloseCallback(sync) =>
        if u.bound.Some? {
          CloseEntersNone(WithUpstream(s, k, u.(notice := Given)), u.bound.value, sync);
        }
      case _ =>
    }
  }

  /** Only an arrival enters a channel, and under an id no client had. */
  lemma StepEnters(cfg: Config, s: System, e: Event)
    requires Sane(cfg, s) && Possible(s, e)
    ensures var n := Step(cfg, s, e);
      && s.clients.Keys <= n.clients.Keys
      && n.channelMap.Keys <= s.channelMap.Keys + (if e.Arrive? then {s.nextChannelID} else {})
      && s.nextChannelID !in s.clients
  {
    match e {
      case OnClient(id, c) => ClientEntersNone(cfg, s, id, c);
      case OnUpstream(k, u) => UpstreamEntersNone(cfg, s, k, u);
      case _ =>
    }
  }

  /** The id of a channel that left the table never returns, in any run at all. */
  lemma {:induction false} NeverReturns(cfg: Config, s: System, es: seq<Event>, id: Id)
    requires Sane(cfg, s) && PossibleRun(cfg, s, es) && id in s.clients && id !in s.channelMap
    ensures id in Run(cfg, s, es).clients && id !in Run(cfg, s, es).channelMap
    decreases |es|
  {
    if es != [] {
      StepSane(cfg, s, es[0]);
      StepEnters(cfg, s, es[0]);
      NeverReturns(cfg, Step(cfg, s, es[0]), es[1..], id);
    }
  }
}
