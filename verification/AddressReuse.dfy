/**
 * How well-behaved clients can bring about a request at the address of an old one that is still pending, and whom
 * it answers.
 */
module AddressReuse {
  import opened Bytes
  import opened Socks5
  import opened Channels
  import opened ChannelInvariants
  import opened Addresses
  import opened Effects
  import opened Failures
  import opened Guarantees
  import opened Isolation
  import opened Multiplexer
  import opened Runs
  import R = RelaySessions
  import S = Socks5Sessions

  /** One event of a well-behaved client or server, properly carried out. */
  ghost predicate Goes(cfg: Config, s: System, e: Event, n: System) {
    && Linked(cfg, s) && Proper(s, e) && n == Step(cfg, s, e) && Linked(cfg, n)
    && Ready(View(s, Concerns(s, e)), Local(e)) && WellBehaved(cfg, View(s, Concerns(s, e)), Local(e))
  }

  lemma Go(cfg: Config, s: System, e: Event, id: Id, to: Cell) returns (n: System)
    requires Linked(cfg, s) && Proper(s, e) && Concerns(s, e) == id && Leads(cfg, View(s, id), Local(e), to)
    requires WellBehaved(cfg, View(s, id), Local(e))
    ensures Goes(cfg, s, e, n) && View(n, id) == to && forall j | j != id :: View(n, j) == View(s, j)
  {
    StepIsolated(cfg, s, e);
    n := Step(cfg, s, e);
  }

  lemma Follows(cfg: Config, s: System, e: Event, n: System)
    requires Reachable(cfg, s) && Goes(cfg, s, e, n)
    ensures Reachable(cfg, n)
  {
    var es :| WellBehavedRun(cfg, EMPTY, es) && ProperRun(cfg, EMPTY, es) && s == Run(cfg, EMPTY, es);
    Appends(cfg, EMPTY, es, e, n);
    assert n == Run(cfg, EMPTY, es + [e]);
  }

  lemma {:induction false} Appends(cfg: Config, s: System, es: seq<Event>, e: Event, n: System)
    requires Linked(cfg, s) && ProperRun(cfg, s, es) && WellBehavedRun(cfg, s, es)
    requires Goes(cfg, Run(cfg, s, es), e, n)
    ensures ProperRun(cfg, s, es + [e]) && WellBehavedRun(cfg, s, es + [e])
    ensures Run(cfg, s, es + [e]) == n
    decreases |es|
  {
    TailAppend(es, e);
    if es == [] {
      RunsFirst(cfg, s, [e], n);
    } else {
      StepIsolated(cfg, s, es[0]);
      var m := Step(cfg, s, es[0]);
      Appends(cfg, m, es[1..], e, n);
      RunsFirst(cfg, s, es + [e], m);
    }
  }

  lemma TailAppend(es: seq<Event>, e: Event)
    ensures es == [] ==> es + [e] == [e] && [e][1..] == []
    ensures es != [] ==> (es + [e])[1..] == es[1..] + [e] && (es + [e])[0] == es[0]
  {
  }

  /** A run that goes on after its first event. */
  lemma RunsFirst(cfg: Config, s: System, es: seq<Event>, m: System)
    requires es != [] && Linked(cfg, s) && Proper(s, es[0]) && m == Step(cfg, s, es[0]) && Linked(cfg, m)
    requires Ready(View(s, Concerns(s, es[0])), Local(es[0]))
    requires WellBehaved(cfg, View(s, Concerns(s, es[0])), Local(es[0]))
    requires ProperRun(cfg, m, es[1..]) && WellBehavedRun(cfg, m, es[1..])
    ensures ProperRun(cfg, s, es) && WellBehavedRun(cfg, s, es) && Run(cfg, s, es) == Run(cfg, m, es[1..])
  {
  }

  /** No session is there for any client. */
  lemma NoSessions(cfg: Config, s: System)
    requires Linked(cfg, s) && forall j :: View(s, j).upstream.None?
    ensures s.upstreams == map[]
  {
    if k :| k in s.upstreams {
      OwnView(cfg, s, k);
    }
  }

  /** Client `id` is accepted and greets. */
  lemma Arrives(cfg: Config, s: System) returns (n: System)
    requires Reachable(cfg, s) && forall j :: View(s, j).upstream.None?
    requires View(s, s.nextChannelID) == Nothing(s.nextChannelID)
    ensures var id := s.nextChannelID;
      && Reachable(cfg, n) && View(n, id).Fits(cfg)
      && At(View(n, id), S.Session(S.Negotiated, []), Channel(Inited, None))
      && (forall j | j != id :: View(n, j) == View(s, j)) && View(n, id).upstream.None?
      && View(n, id).client.value.sent == [Method(METHOD_NO_AUTH)]
  {
    ReachableIsGood(cfg, s);
    var id := s.nextChannelID;
    var c1 := Accepted(cfg, id);
    var s1 := Go(cfg, s, Arrive, id, c1);
    Follows(cfg, s, Arrive, s1);
    n := Greets(cfg, s1, id);
  }

  /** A whole greeting in one read is one a well-behaved client makes. */
  lemma GreetingIsRead(cfg: Config, c: Cell)
    requires c.Fits(cfg) && At(c, S.FRESH, Channel(Inited, None))
    ensures Ready(c, ReadEvent(GREETING)) && WellBehaved(cfg, c, ReadEvent(GREETING))
  {
    GreetingDecodes(METHOD_NO_AUTH);
    assert [] + GREETING == GREETING;
  }

  lemma Greets(cfg: Config, s: System, id: Id) returns (n: System)
    requires Reachable(cfg, s) && forall j :: View(s, j).upstream.None?
    requires At(View(s, id), S.FRESH, Channel(Inited, None)) && View(s, id).client.value.timers == 0
    requires View(s, id).client.value.sent == []
    ensures Reachable(cfg, n) && View(n, id).Fits(cfg)
    ensures At(View(n, id), S.Session(S.Negotiated, []), Channel(Inited, None)) && View(n, id).upstream.None?
    ensures View(n, id).client.value.sent == [Method(METHOD_NO_AUTH)]
    ensures forall j | j != id :: View(n, j) == View(s, j)
  {
    ReachableIsGood(cfg, s);
    ViewFits(cfg, s, id);
    NoSessions(cfg, s);
    var e := OnClient(id, ReadEvent(GREETING).c);
    var c := Greeted(cfg, View(s, id), METHOD_NO_AUTH);
    GreetingIsRead(cfg, View(s, id));
    n := Go(cfg, s, e, id, c);
    Follows(cfg, s, e, n);
  }

  /** A whole request in one read is one a well-behaved client makes. */
  lemma RequestIsRead(cfg: Config, c: Cell, ch: Channel)
    requires c.Fits(cfg) && At(c, S.Session(S.Negotiated, []), ch)
    ensures Ready(c, ReadEvent(REQUEST)) && WellBehaved(cfg, c, ReadEvent(REQUEST))
    ensures var event := S.OnRead(c.client.value.session, REQUEST).1;
      event.Ask? && event.request.cmd == CMD_CONNECT
  {
    RequestDecodes();
    assert [] + REQUEST == REQUEST;
  }

  /** Client `id` asks, by a request at address 0. */
  lemma Asks(cfg: Config, s: System, id: Id) returns (n: System)
    requires Reachable(cfg, s) && View(s, id).Fits(cfg) && (forall j :: View(s, j).upstream.None?)
    requires At(View(s, id), S.Session(S.Negotiated, []), Channel(Inited, None)) && 0 !in s.paddingRequestMap
    ensures Reachable(cfg, n) && View(n, id).Fits(cfg)
    ensures var c := View(n, id);
      && At(c, S.Session(S.Requested, []), Channel(WaitingSession, None)) && c.client.value.key == Some(0)
      && c.pending && c.listed && c.upstream.Some? && Opened(c.upstream.value)
    ensures forall j | j != id :: View(n, j) == View(s, j)
  {
    ReachableIsGood(cfg, s);
    NoSessions(cfg, s);
    var e := OnClient(id, ReadEvent(REQUEST).c);
    RequestIsRead(cfg, View(s, id), Channel(Inited, None));
    var c := Asked(cfg, View(s, id), Channel(Inited, None));
    n := Go(cfg, s, e, id, c);
    Follows(cfg, s, e, n);
  }

  lemma PossibleAtZero(s: System, id: Id, u: UpstreamEvent)
    requires Ready(View(s, id), FromUpstream(u)) && View(s, id).client.value.key == Some(0)
    ensures var e := OnUpstream(0, u); Proper(s, e) && Concerns(s, e) == id && Local(e) == FromUpstream(u)
  {
    assert Owns(s, id, 0);
  }

  /** One event of the session at address 0, which is client `id`'s. */
  lemma Upstreams(cfg: Config, s: System, id: Id, u: UpstreamEvent, to: Cell) returns (n: System)
    requires Reachable(cfg, s) && !u.UpstreamRead? && Leads(cfg, View(s, id), FromUpstream(u), to)
    requires View(s, id).client.value.key == Some(0)
    ensures Reachable(cfg, n) && View(n, id) == to
    ensures forall j | j != id :: View(n, j) == View(s, j)
  {
    ReachableIsGood(cfg, s);
    PossibleAtZero(s, id, u);
    n := Go(cfg, s, OnUpstream(0, u), id, to);
    Follows(cfg, s, OnUpstream(0, u), n);
  }

  /** The session of a waiting client closes while authorizing, is told so, and is freed. */
  lemma Loses(cfg: Config, s: System, id: Id) returns (n: System)
    requires Reachable(cfg, s) && View(s, id).Fits(cfg) && View(s, id).client.Some?
    requires var c := View(s, id);
      && At(c, S.Session(S.Requested, []), Channel(WaitingSession, None)) && c.client.value.key == Some(0)
      && c.pending && c.listed && c.upstream.Some? && Opened(c.upstream.value)
    ensures Reachable(cfg, n)
    ensures View(n, id).upstream.None? && View(n, id).pending
    ensures View(n, id).client == View(s, id).client && View(n, id).channel == View(s, id).channel
    ensures forall j | j != id :: View(n, j) == View(s, j)
  {
    var c1 := Connects(cfg, View(s, id));
    var s1 := Upstreams(cfg, s, id, Connected(true), c1);
    var c2 := ClosesAuthorizing(cfg, c1);
    var s2 := Upstreams(cfg, s1, id, UpstreamClosed, c2);
    var c3 := Told(cfg, c2);
    var s3 := Upstreams(cfg, s2, id, UpstreamCloseCallback(false), c3);
    n := Frees(cfg, s3, id);
  }

  lemma Told(cfg: Config, c: Cell) returns (n: Cell)
    requires c.Fits(cfg) && c.client.Some? && c.client.value.fault == Fine && c.upstream.Some?
    requires var u := c.upstream.value; u.relay.hasTcp && u.bound.None? && u.notice.Owed?
    ensures Leads(cfg, c, FromUpstream(UpstreamCloseCallback(false)), n)
    ensures n == c.(upstream := n.upstream, listed := false) && n.upstream.Some?
  {
    n := CellStep(cfg, c, FromUpstream(UpstreamCloseCallback(false)));
  }

  lemma FreeComes(cfg: Config, s: System, id: Id)
    requires Linked(cfg, s)
    requires var c := View(s, id);
      && c.Fits(cfg) && c.client.Some? && c.client.value.fault == Fine && c.client.value.key == Some(0)
      && c.upstream.Some? && !c.listed && c.channel == Some(Channel(WaitingSession, None))
    ensures Proper(s, Free(0)) && Concerns(s, Free(0)) == id
    ensures Leads(cfg, View(s, id), Local(Free(0)), View(s, id).(upstream := None))
  {
    forall j | j in s.channelMap ensures s.channelMap[j].ssSession != Some(0) {
      assert ClientLinked(s, j);
    }
  }

  lemma Frees(cfg: Config, s: System, id: Id) returns (n: System)
    requires Reachable(cfg, s)
    requires var c := View(s, id);
      && c.Fits(cfg) && c.client.Some? && c.client.value.fault == Fine && c.client.value.key == Some(0)
      && c.upstream.Some? && !c.listed && c.channel == Some(Channel(WaitingSession, None))
    ensures Reachable(cfg, n) && View(n, id) == View(s, id).(upstream := None)
    ensures forall j | j != id :: View(n, j) == View(s, j)
  {
    ReachableIsGood(cfg, s);
    FreeComes(cfg, s, id);
    n := Go(cfg, s, Free(0), id, View(s, id).(upstream := None));
    Follows(cfg, s, Free(0), n);
  }

  lemma PendingIsSeen(s: System, k: Key)
    requires k in s.paddingRequestMap && PendingLinked(s, k)
    ensures var c := View(s, s.paddingRequestMap[k]);
      c.client.Some? && c.client.value.key == Some(k) && c.pending
  {
  }

  lemma NothingPending(cfg: Config, s: System)
    requires Reachable(cfg, s) && At(View(s, 0), S.Session(S.Negotiated, []), Channel(Inited, None))
    requires forall j | j != 0 :: View(s, j) == Nothing(j)
    ensures 0 !in s.paddingRequestMap
  {
    ReachableIsGood(cfg, s);
    assert Good(cfg, View(s, 0));
    if 0 in s.paddingRequestMap {
      PendingIsSeen(s, 0);
    }
  }

  lemma AsksAgain(cfg: Config, s: System) returns (e: Event)
    requires Reachable(cfg, s) && (forall j :: View(s, j).upstream.None?)
    requires At(View(s, 1), S.Session(S.Negotiated, []), Channel(Inited, None))
    requires var c := View(s, 0); c.client.Some? && c.client.value.key == Some(0) && c.pending && c.channel.Some?
    ensures Linked(cfg, s) && Possible(s, e) && Stale(s, e) && e.id == 1
    ensures Ready(View(s, e.id), Local(e)) && WellBehaved(cfg, View(s, e.id), Local(e))
    ensures s.paddingRequestMap[e.c.newKey] in s.channelMap
  {
    ReachableIsGood(cfg, s);
    NoSessions(cfg, s);
    ViewFits(cfg, s, 1);
    RequestIsRead(cfg, View(s, 1), Channel(Inited, None));
    e := OnClient(1, ReadEvent(REQUEST).c);
  }

  lemma EmptyViews(cfg: Config)
    requires cfg.Valid()
    ensures Reachable(cfg, EMPTY) && forall j :: View(EMPTY, j) == Nothing(j)
  {
    EmptyIsGood(cfg);
    var es: seq<Event> := [];
    assert WellBehavedRun(cfg, EMPTY, es) && ProperRun(cfg, EMPTY, es) && EMPTY == Run(cfg, EMPTY, es);
  }

  /** The first client asks by a request at address 0. */
  lemma FirstAsks(cfg: Config) returns (s: System)
    requires cfg.Valid()
    ensures Reachable(cfg, s) && View(s, 0).Fits(cfg) && forall j | j != 0 :: View(s, j) == Nothing(j)
    ensures var c := View(s, 0);
      && At(c, S.Session(S.Requested, []), Channel(WaitingSession, None)) && c.client.value.key == Some(0)
      && c.pending && c.listed && c.upstream.Some? && Opened(c.upstream.value)
  {
    EmptyViews(cfg);
    var s1 := Arrives(cfg, EMPTY);
    NothingPending(cfg, s1);
    s := Asks(cfg, s1, 0);
  }

  /** A client's request at address 0 is lost and freed, its entry still pending. */
  lemma FirstIsLost(cfg: Config) returns (s: System)
    requires cfg.Valid()
    ensures Reachable(cfg, s) && s.nextChannelID == 1 && forall j :: View(s, j).upstream.None?
    ensures var c := View(s, 0); c.client.Some? && c.client.value.key == Some(0) && c.pending && c.channel.Some?
    ensures forall j | j != 0 :: View(s, j) == Nothing(j)
  {
    var s1 := FirstAsks(cfg);
    s := Loses(cfg, s1, 0);
    ReachableIsGood(cfg, s);
    OneClient(cfg, s);
  }

  lemma OneClient(cfg: Config, s: System)
    requires Linked(cfg, s) && View(s, 0).client.Some? && View(s, 1).client.None?
    ensures s.nextChannelID == 1
  {
    assert ClientLinked(s, 0);
    assert 1 !in s.clients;
  }

  lemma StaleComes(cfg: Config) returns (s: System, e: Event)
    requires cfg.Valid()
    ensures Reachable(cfg, s) && Linked(cfg, s) && Possible(s, e) && Stale(s, e)
    ensures Ready(View(s, e.id), Local(e)) && WellBehaved(cfg, View(s, e.id), Local(e))
    ensures s.paddingRequestMap[e.c.newKey] in s.channelMap && s.clients[e.id].sent == [Method(METHOD_NO_AUTH)]
  {
    var s1 := FirstIsLost(cfg);
    s := Arrives(cfg, s1);
    e := AsksAgain(cfg, s);
  }

  /**
   * Well-behaved clients can come to it: the first one's request is lost and freed, and the second one's request
   * is made at its address.
   */
  lemma StaleHappens(cfg: Config)
    requires cfg.Valid()
    ensures exists s, e ::
      && Reachable(cfg, s) && Linked(cfg, s) && Possible(s, e) && Stale(s, e)
      && Ready(View(s, e.id), Local(e)) && WellBehaved(cfg, View(s, e.id), Local(e))
      && s.paddingRequestMap[e.c.newKey] in s.channelMap
  {
    var s, e := StaleComes(cfg);
  }

  // Whom such a request answers.

  /** The session at `k` belongs to client `id`, and the pending map names client `other` for it. */
  ghost predicate Misdirected(cfg: Config, s: System, k: Key, id: Id, other: Id) {
    && Sane(cfg, s) && id != other && Owns(s, id, k) && k in s.sessionMap
    && k in s.paddingRequestMap && s.paddingRequestMap[k] == other && other in s.channelMap
    && id in s.clients && s.clients[id].fault.Fine? && s.upstreams[k].bound.None?
  }

  lemma StaleOpens(cfg: Config, s: System, e: Event)
    requires Keyed(cfg, s) && Possible(s, e) && Stale(s, e) && s.paddingRequestMap[e.c.newKey] in s.channelMap
    ensures var n, k, other := Step(cfg, s, e), e.c.newKey, s.paddingRequestMap[e.c.newKey];
      && Misdirected(cfg, n, k, e.id, other) && n.upstreams[k].relay.state == R.Connecting
      && other in s.clients && n.clients[other].sent == s.clients[other].sent
      && n.clients[e.id].sent == s.clients[e.id].sent
  {
    StepSane(cfg, s, e);
    assert PendingLinked(s, e.c.newKey) && ClientKeyed(s.clients[e.id]);
  }

  lemma MisdirectedConnects(cfg: Config, s: System, k: Key, id: Id, other: Id)
    requires Misdirected(cfg, s, k, id, other) && s.upstreams[k].relay.state == R.Connecting
    ensures var e := OnUpstream(k, Connected(true));
      && Possible(s, e)
      && var n := Step(cfg, s, e);
         && Misdirected(cfg, n, k, id, other) && n.clients == s.clients
         && n.upstreams[k].relay.state == R.Authorizing && n.upstreams[k].relay.unacked > 0
  {
    assert SessionSane(cfg, s, k);
    StepSane(cfg, s, OnUpstream(k, Connected(true)));
  }

  /** The other client's channel got the session, and the other client the reply. */
  ghost predicate AnsweredElsewhere(s: System, n: System, k: Key, id: Id, other: Id, ok: bool)
    requires id in s.clients && other in s.clients
  {
    && other in n.channelMap && n.channelMap[other] == Channel(Established, Some(k))
    && Owns(n, id, k) && n.upstreams[k].bound == Some(other) && k !in n.paddingRequestMap
    && other in n.clients && n.clients[other].sent == s.clients[other].sent + [ReplyFor(ok)]
    && id in n.clients && n.clients[id].sent == s.clients[id].sent
  }

  lemma MisdirectedCompletes(cfg: Config, s: System, k: Key, id: Id, other: Id, u: Upstream, ok: bool)
    requires Misdirected(cfg, s, k, id, other) && u.owner == id && u.bound.None?
    ensures other in s.clients && AnsweredElsewhere(s, Complete(WithUpstream(s, k, u), k, ok), k, id, other, ok)
  {
    assert SessionSane(cfg, s, k);
  }

  lemma RunsOn(cfg: Config, s: System, e: Event, es: seq<Event>)
    requires Sane(cfg, s) && Possible(s, e)
    ensures Sane(cfg, Step(cfg, s, e))
    ensures PossibleRun(cfg, s, [e] + es) <==> PossibleRun(cfg, Step(cfg, s, e), es)
    ensures PossibleRun(cfg, s, [e] + es) ==> Run(cfg, s, [e] + es) == Run(cfg, Step(cfg, s, e), es)
  {
    StepSane(cfg, s, e);
    assert ([e] + es)[1..] == es;
  }

  lemma RunsOne(cfg: Config, s: System, e: Event)
    requires Sane(cfg, s) && Possible(s, e)
    ensures PossibleRun(cfg, s, [e]) && Run(cfg, s, [e]) == Step(cfg, s, e)
  {
    RunsOn(cfg, s, e, []);
    assert [e] + [] == [e];
  }

  /** What the server does to a new request's session: it takes the header, or does not let the tunnel connect. */
  function Outcome(k: Key, ok: bool): seq<Event> {
    if ok then [OnUpstream(k, Connected(true)), OnUpstream(k, WriteDone(true))] else [OnUpstream(k, Connected(false))]
  }

  lemma OutcomeAnswersElsewhere(cfg: Config, s: System, k: Key, id: Id, other: Id, ok: bool)
    requires Misdirected(cfg, s, k, id, other) && s.upstreams[k].relay.state == R.Connecting
    ensures PossibleRun(cfg, s, Outcome(k, ok)) && other in s.clients
    ensures AnsweredElsewhere(s, Run(cfg, s, Outcome(k, ok)), k, id, other, ok)
  {
    var u := s.upstreams[k];
    if ok {
      var e1, e2 := OnUpstream(k, Connected(true)), OnUpstream(k, WriteDone(true));
      MisdirectedConnects(cfg, s, k, id, other);
      var s1 := Step(cfg, s, e1);
      var v := s1.upstreams[k];
      MisdirectedCompletes(cfg, s1, k, id, other, v.(relay := R.OnWriteComplete(v.relay, true).0), true);
      RunsOne(cfg, s1, e2);
      RunsOn(cfg, s, e1, [e2]);
      assert [e1] + [e2] == Outcome(k, ok);
    } else {
      MisdirectedCompletes(cfg, s, k, id, other, u.(relay := R.OnConnect(cfg.cipher, u.relay, false), notice := Owed),
                           false);
      RunsOne(cfg, s, OnUpstream(k, Connected(false)));
    }
  }

  /**
   * Whatever becomes of a request at the address of an old pending one, its completion answers the old request's
   * client and gives that client's channel the session; the client that asked is not answered.
   */
  lemma StaleAnswersElsewhere(cfg: Config, s: System, e: Event, ok: bool)
    requires Keyed(cfg, s) && Possible(s, e) && Stale(s, e) && s.paddingRequestMap[e.c.newKey] in s.channelMap
    ensures var es, other := [e] + Outcome(e.c.newKey, ok), s.paddingRequestMap[e.c.newKey];
      && other in s.clients && other != e.id
      && PossibleRun(cfg, s, es) && AnsweredElsewhere(s, Run(cfg, s, es), e.c.newKey, e.id, other, ok)
  {
    var n, k, other := Step(cfg, s, e), e.c.newKey, s.paddingRequestMap[e.c.newKey];
    StaleOpens(cfg, s, e);
    OutcomeAnswersElsewhere(cfg, n, k, e.id, other, ok);
    RunsOn(cfg, s, e, Outcome(k, ok));
  }

  lemma LinkedGoodIsKeyed(cfg: Config, es: seq<Event>)
    requires cfg.Valid() && PossibleRun(cfg, EMPTY, es)
    ensures Keyed(cfg, Run(cfg, EMPTY, es))
  {
    EmptyIsKeyed(cfg);
    RunKeyed(cfg, EMPTY, es);
  }

  lemma {:induction false} RunsAppend(cfg: Config, s: System, a: seq<Event>, b: seq<Event>)
    requires Sane(cfg, s) && PossibleRun(cfg, s, a) && PossibleRun(cfg, Run(cfg, s, a), b)
    ensures PossibleRun(cfg, s, a + b) && Run(cfg, s, a + b) == Run(cfg, Run(cfg, s, a), b)
    decreases |a|
  {
    if a == [] {
      assert a + b == b;
    } else {
      StepSane(cfg, s, a[0]);
      RunsAppend(cfg, Step(cfg, s, a[0]), a[1..], b);
      assert a + b == [a[0]] + (a[1..] + b);
      RunsOn(cfg, s, a[0], a[1..] + b);
    }
  }

  /**
   * From the start: a run in which one client, its request lost, is answered by the session of another client's
   * request, while that other client, which asked, is not answered.
   */
  lemma AnswersElsewhere(cfg: Config, ok: bool) returns (es: seq<Event>, k: Key, id: Id, other: Id)
    requires cfg.Valid()
    ensures PossibleRun(cfg, EMPTY, es) && id != other
    ensures var n := Run(cfg, EMPTY, es);
      && id in n.clients && other in n.clients && Owns(n, id, k) && n.clients[id].key == n.clients[other].key == Some(k)
      && other in n.channelMap && n.channelMap[other] == Channel(Established, Some(k))
      && ReplyFor(ok) in n.clients[other].sent && n.clients[id].sent == [Method(METHOD_NO_AUTH)]
  {
    var s, e := StaleComes(cfg);
    var es0 :| WellBehavedRun(cfg, EMPTY, es0) && ProperRun(cfg, EMPTY, es0) && s == Run(cfg, EMPTY, es0);
    LinkedGoodIsKeyed(cfg, es0);
    k, id, other := e.c.newKey, e.id, s.paddingRequestMap[e.c.newKey];
    var es1 := [e] + Outcome(k, ok);
    StaleAnswersElsewhere(cfg, s, e, ok);
    RunsAppend(cfg, EMPTY, es0, es1);
    es := es0 + es1;
    LinkedGoodIsKeyed(cfg, es);
    var n := Run(cfg, EMPTY, es);
    assert SessionKeyed(n, k);
    assert n.clients[other].sent[|s.clients[other].sent|] == ReplyFor(ok);
  }
}
