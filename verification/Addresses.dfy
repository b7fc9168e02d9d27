/** Requests looked up by address: what holds in every run at all, with addresses used again at any time. */
module Addresses {
  import opened Bytes
  import opened Channels
  import opened Completion
  import opened Effects
  import opened Multiplexer
  import opened Runs
  import S = Socks5Sessions
  import R = RelaySessions

  // Every event keeps the invariant.

  predicate StageAt(s: System, k: Key)
    requires k in s.upstreams
  {
    Stage(s.upstreams[k], k in s.paddingRequestMap, k in s.sessionMap)
  }

  /** What an event's effect does not tell of the invariant: sessions stand where they may, and nothing failed. */
  ghost predicate Stages(s: System) {
    && (forall k | k in s.upstreams :: StageAt(s, k))
    && (forall id | id in s.clients :: s.clients[id].fault != NoPendingRequest)
  }

  lemma KeyedStages(cfg: Config, s: System)
    requires Keyed(cfg, s)
    ensures Stages(s)
  {
    forall k | k in s.upstreams ensures StageAt(s, k) {
      assert SessionKeyed(s, k);
    }
    forall id | id in s.clients ensures s.clients[id].fault != NoPendingRequest {
      assert ClientKeyed(s.clients[id]);
    }
  }

  /** The two tables agree on every address but `k0`. */
  ghost predicate SameEntries(s: System, n: System, k0: Option<Key>) {
    forall k: Key | k0 != Some(k) ::
      && (k in n.paddingRequestMap <==> k in s.paddingRequestMap)
      && (k in n.sessionMap <==> k in s.sessionMap)
  }

  lemma DeltaStages(s: System, n: System, k0: Option<Key>, id0: Option<Id>)
    requires Stages(s) && Delta(s, n, k0, id0) && SameEntries(s, n, k0)
    requires k0.Some? && k0.value in n.upstreams ==> StageAt(n, k0.value)
    requires id0.Some? && id0.value in n.clients ==> n.clients[id0.value].fault != NoPendingRequest
    ensures Stages(n)
  {
    forall k | k in n.upstreams ensures StageAt(n, k) {
      if k0 != Some(k) {
        assert UpstreamSimilar(s.upstreams[k], n.upstreams[k]) && StageAt(s, k);
      }
    }
    forall id | id in n.clients ensures n.clients[id].fault != NoPendingRequest {
      if id0 != Some(id) {
        assert ClientSimilar(s.clients[id], n.clients[id]);
      }
    }
  }

  lemma ClosingStages(s: System, id: Id, cl: Client, sync: bool)
    requires Stages(s) && id in s.clients && s.channelMap.Keys <= s.clients.Keys && cl.fault == s.clients[id].fault
    ensures Stages(CloseChannel(WithClient(s, id, cl), id, sync))
  {
    var s1 := WithClient(s, id, cl);
    var n := CloseChannel(s1, id, sync);
    CloseSimilar(s1, id, sync);
    SimilarDelta(s, s1, n, None, id);
    assert ClientSimilar(s1.clients[id], n.clients[id]);
    DeltaStages(s, n, None, Some(id));
  }

  lemma ForwardingStages(cfg: Config, s: System, id: Id, chunk: seq<byte>, newKey: Key, random: seq<byte>)
    requires Stages(s) && Forwarding(cfg, s, id, chunk, newKey, random)
    ensures Stages(ReadStep(cfg, s, id, chunk, newKey, random))
  {
    var n := ReadStep(cfg, s, id, chunk, newKey, random);
    var k := if id in s.channelMap then s.channelMap[id].ssSession else None;
    ForwardingDelta(cfg, s, id, chunk, newKey, random);
    ForwardingKeeps(cfg, s, id, chunk, newKey, random, k);
    DeltaStages(s, n, k, Some(id));
  }

  lemma ForwardingKeeps(cfg: Config, s: System, id: Id, chunk: seq<byte>, newKey: Key, random: seq<byte>,
                        k: Option<Key>)
    requires Stages(s) && Forwarding(cfg, s, id, chunk, newKey, random)
    requires k == if id in s.channelMap then s.channelMap[id].ssSession else None
    ensures var n := ReadStep(cfg, s, id, chunk, newKey, random);
      && n.sessionMap == s.sessionMap && id in n.clients && n.clients[id].fault != NoPendingRequest
      && (k.Some? && k.value in n.upstreams ==> StageAt(n, k.value))
  {
    if k.Some? && k.value in s.upstreams {
      assert StageAt(s, k.value);
    }
  }

  lemma AnsweringStages(cfg: Config, s: System, id: Id, chunk: seq<byte>, newKey: Key, random: seq<byte>)
    requires Stages(s) && Answering(cfg, s, id, chunk, newKey, random)
    ensures Stages(ReadStep(cfg, s, id, chunk, newKey, random))
  {
    var n := ReadStep(cfg, s, id, chunk, newKey, random);
    AnsweringUpdates(cfg, s, id, chunk, newKey, random);
    AnsweringFault(cfg, s, id, chunk, newKey, random);
    DeltaStages(s, n, None, Some(id));
  }

  lemma AnsweringFault(cfg: Config, s: System, id: Id, chunk: seq<byte>, newKey: Key, random: seq<byte>)
    requires Answering(cfg, s, id, chunk, newKey, random)
    ensures var n := ReadStep(cfg, s, id, chunk, newKey, random);
      id in n.clients && n.clients[id].fault != NoPendingRequest
  {
  }

  lemma RequestStages(cfg: Config, s: System, id: Id, chunk: seq<byte>, newKey: Key, random: seq<byte>)
    requires Stages(s) && Sane(cfg, s) && Possible(s, OnClient(id, Read(chunk, newKey, random)))
    requires Requesting(s, OnClient(id, Read(chunk, newKey, random)))
    ensures Stages(ReadStep(cfg, s, id, chunk, newKey, random))
  {
    var n := ReadStep(cfg, s, id, chunk, newKey, random);
    forall k | k in n.upstreams ensures StageAt(n, k) {
      assert k != newKey ==> StageAt(s, k);
    }
  }

  lemma ClientStages(cfg: Config, s: System, id: Id, c: ClientEvent)
    requires Stages(s) && Sane(cfg, s) && Possible(s, OnClient(id, c))
    ensures Stages(ClientStep(cfg, s, id, c))
  {
    var cl := s.clients[id];
    match c {
      case Read(chunk, newKey, random) =>
        if Requesting(s, OnClient(id, c)) {
          RequestStages(cfg, s, id, chunk, newKey, random);
        } else if S.OnRead(cl.session, chunk).1.Data? {
          ForwardingStages(cfg, s, id, chunk, newKey, random);
        } else {
          AnsweringStages(cfg, s, id, chunk, newKey, random);
        }
      case TcpClosed => DeltaStages(s, WithClient(s, id, cl.(tcpClosed := true)), None, Some(id));
      case CloseCallback(sync) =>
        ClosingStages(s, id, cl.(session := cl.session.(status := S.Disconnected), notified := true), sync);
      case Timer(sync) => ClosingStages(s, id, cl.(timers := cl.timers - 1), sync);
    }
  }

  lemma OwnUpdateStages(s: System, k: Key, u: Upstream)
    requires Stages(s) && k in s.upstreams && Stage(u, k in s.paddingRequestMap, k in s.sessionMap)
    ensures Stages(WithUpstream(s, k, u))
  {
    DeltaStages(s, WithUpstream(s, k, u), Some(k), None);
  }

  lemma CompletesStages(cfg: Config, s: System, k: Key, e: UpstreamEvent, u: Upstream, ok: bool)
    requires Stages(s) && Completing(cfg, s, k, e, u)
    requires Stage(u.(bound := Some(s.paddingRequestMap[k])), false, true)
    ensures u.owner in s.clients && s.paddingRequestMap[k] in s.clients
    ensures Stages(Complete(WithUpstream(s, k, u), k, ok))
  {
    CompletesDelta(cfg, s, k, e, u, ok);
    CompletesKeeps(cfg, s, k, e, u, ok);
    DeltaStages(s, Complete(WithUpstream(s, k, u), k, ok), Some(k), Some(s.paddingRequestMap[k]));
  }

  lemma CompletesKeeps(cfg: Config, s: System, k: Key, e: UpstreamEvent, u: Upstream, ok: bool)
    requires Stages(s) && Completing(cfg, s, k, e, u)
    requires Stage(u.(bound := Some(s.paddingRequestMap[k])), false, true)
    ensures u.owner in s.clients && s.paddingRequestMap[k] in s.clients
    ensures var n := Complete(WithUpstream(s, k, u), k, ok);
      && n.sessionMap == s.sessionMap && k in n.upstreams && StageAt(n, k)
      && s.paddingRequestMap[k] in n.clients && n.clients[s.paddingRequestMap[k]].fault != NoPendingRequest
  {
    assert SessionSane(cfg, s, k);
  }

  lemma PassesStages(cfg: Config, s: System, k: Key, chunk: seq<byte>)
    requires Stages(s) && Sane(cfg, s) && Possible(s, OnUpstream(k, UpstreamRead(chunk)))
    ensures Stages(UpstreamStep(cfg, s, k, UpstreamRead(chunk)))
  {
    var u := s.upstreams[k];
    var id := if ReadDefined(cfg, u, chunk) then u.bound.value else u.owner;
    PassesDelta(cfg, s, k, chunk, id);
    PassesKeeps(cfg, s, k, chunk);
    PassesFine(cfg, s, k, chunk, id);
    DeltaStages(s, UpstreamStep(cfg, s, k, UpstreamRead(chunk)), Some(k), Some(id));
  }

  lemma PassedStage(cfg: Config, u: Upstream, chunk: seq<byte>, pending: bool, listed: bool)
    requires Stage(u, pending, listed) && u.relay.Fits(cfg.cipher)
    ensures var r := R.OnReadComplete(cfg.cipher, u.relay, chunk);
      r.Some? ==> Stage(u.(relay := r.value.0), pending, listed)
  {
  }

  lemma PassesKeeps(cfg: Config, s: System, k: Key, chunk: seq<byte>)
    requires Stages(s) && Sane(cfg, s) && Possible(s, OnUpstream(k, UpstreamRead(chunk)))
    ensures var n := UpstreamStep(cfg, s, k, UpstreamRead(chunk));
      n.sessionMap == s.sessionMap && k in n.upstreams && StageAt(n, k)
  {
    assert SessionSane(cfg, s, k) && StageAt(s, k);
    PassedStage(cfg, s.upstreams[k], chunk, k in s.paddingRequestMap, k in s.sessionMap);
  }

  lemma PassesFine(cfg: Config, s: System, k: Key, chunk: seq<byte>, id: Id)
    requires Stages(s) && Sane(cfg, s) && Possible(s, OnUpstream(k, UpstreamRead(chunk)))
    requires var u := s.upstreams[k]; id == if ReadDefined(cfg, u, chunk) then u.bound.value else u.owner
    ensures var n := UpstreamStep(cfg, s, k, UpstreamRead(chunk));
      id in n.clients && n.clients[id].fault != NoPendingRequest
  {
    assert SessionSane(cfg, s, k);
  }

  /** A session told of its close is let go of if it had a connection. */
  lemma ToldStage(u: Upstream, v: Upstream, pending: bool, listed: bool)
    requires Stage(u, pending, listed) && u.notice.Owed? && UpstreamSimilar(u.(notice := Given), v)
    ensures Stage(v, pending, listed && !u.relay.hasTcp)
  {
  }

  lemma ToldChanges(cfg: Config, s: System, k: Key, sync: bool)
    requires Sane(cfg, s) && Possible(s, OnUpstream(k, UpstreamCloseCallback(sync)))
    ensures var n, u := UpstreamStep(cfg, s, k, UpstreamCloseCallback(sync)), s.upstreams[k];
      && Delta(s, n, Some(k), None) && k in n.upstreams && UpstreamSimilar(u.(notice := Given), n.upstreams[k])
      && n.paddingRequestMap == s.paddingRequestMap
      && n.sessionMap == if u.relay.hasTcp then s.sessionMap - {k} else s.sessionMap
  {
    var n, u := UpstreamStep(cfg, s, k, UpstreamCloseCallback(sync)), s.upstreams[k].(notice := Given);
    ToldSimilar(cfg, s, k, sync);
    ToldDelta(s, k, u, n.(sessionMap := s.sessionMap));
  }

  lemma ToldKeeps(s: System, n: System, k: Key)
    requires k in s.upstreams && StageAt(s, k) && s.upstreams[k].notice.Owed?
    requires k in n.upstreams && UpstreamSimilar(s.upstreams[k].(notice := Given), n.upstreams[k])
    requires n.paddingRequestMap == s.paddingRequestMap
    requires n.sessionMap == if s.upstreams[k].relay.hasTcp then s.sessionMap - {k} else s.sessionMap
    ensures StageAt(n, k) && SameEntries(s, n, Some(k))
  {
    ToldStage(s.upstreams[k], n.upstreams[k], k in s.paddingRequestMap, k in s.sessionMap);
  }

  lemma ToldStages(cfg: Config, s: System, k: Key, sync: bool)
    requires Stages(s) && Sane(cfg, s) && Possible(s, OnUpstream(k, UpstreamCloseCallback(sync)))
    ensures Stages(UpstreamStep(cfg, s, k, UpstreamCloseCallback(sync)))
  {
    var n := UpstreamStep(cfg, s, k, UpstreamCloseCallback(sync));
    ToldChanges(cfg, s, k, sync);
    assert StageAt(s, k);
    ToldKeeps(s, n, k);
    DeltaStages(s, n, Some(k), None);
  }

  lemma ConnectedStages(cfg: Config, s: System, k: Key, ok: bool)
    requires Keyed(cfg, s) && Stages(s) && Possible(s, OnUpstream(k, Connected(ok)))
    ensures Stages(UpstreamStep(cfg, s, k, Connected(ok)))
  {
    assert SessionKeyed(s, k) && SessionSane(cfg, s, k);
    var u := s.upstreams[k];
    var relay := R.OnConnect(cfg.cipher, u.relay, ok);
    if ok {
      OwnUpdateStages(s, k, u.(relay := relay));
    } else {
      CompletesStages(cfg, s, k, Connected(ok), u.(relay := relay, notice := Owed), false);
    }
  }

  lemma WriteDoneStages(cfg: Config, s: System, k: Key, ok: bool)
    requires Keyed(cfg, s) && Stages(s) && Possible(s, OnUpstream(k, WriteDone(ok)))
    ensures Stages(UpstreamStep(cfg, s, k, WriteDone(ok)))
  {
    assert SessionKeyed(s, k) && SessionSane(cfg, s, k);
    var u := s.upstreams[k];
    var v := u.(relay := R.OnWriteComplete(u.relay, ok).0);
    if u.relay.state == R.Authorizing {
      CompletesStages(cfg, s, k, WriteDone(ok), v, ok);
    } else {
      OwnUpdateStages(s, k, v);
    }
  }

  lemma UpstreamStages(cfg: Config, s: System, k: Key, e: UpstreamEvent)
    requires Keyed(cfg, s) && Possible(s, OnUpstream(k, e))
    ensures Stages(UpstreamStep(cfg, s, k, e))
  {
    KeyedStages(cfg, s);
    assert SessionKeyed(s, k) && SessionSane(cfg, s, k);
    var u := s.upstreams[k];
    match e {
      case Connected(ok) => ConnectedStages(cfg, s, k, ok);
      case WriteDone(ok) => WriteDoneStages(cfg, s, k, ok);
      case UpstreamRead(chunk) => PassesStages(cfg, s, k, chunk);
      case UpstreamClosed => OwnUpdateStages(s, k, u.(relay := R.OnClosed(u.relay), notice := Owed));
      case UpstreamCloseCallback(sync) => ToldStages(cfg, s, k, sync);
    }
  }

  lemma StepStages(cfg: Config, s: System, e: Event)
    requires Keyed(cfg, s) && Possible(s, e)
    ensures Stages(Step(cfg, s, e))
  {
    KeyedStages(cfg, s);
    match e {
      case Arrive =>
        forall k | k in s.upstreams ensures StageAt(Arrival(s), k) {
          assert StageAt(s, k);
        }
      case OnClient(id, c) => ClientStages(cfg, s, id, c);
      case OnUpstream(k, u) => UpstreamStages(cfg, s, k, u);
      case Free(k) =>
        forall j | j in s.upstreams && j != k ensures StageAt(Step(cfg, s, e), j) {
          assert StageAt(s, j);
        }
    }
  }

  /** The invariant holds after every event, addresses of pending requests used again included. */
  lemma StepKeyed(cfg: Config, s: System, e: Event)
    requires Keyed(cfg, s) && Possible(s, e)
    ensures Keyed(cfg, Step(cfg, s, e))
  {
    StepSane(cfg, s, e);
    StepStages(cfg, s, e);
    StepEffect(cfg, s, e);
    EffectKeyed(cfg, s, e, Step(cfg, s, e));
  }

  lemma EffectKeyed(cfg: Config, s: System, e: Event, n: System)
    requires Keyed(cfg, s) && Possible(s, e) && Effect(cfg, s, e, n) && Stages(n) && Sane(cfg, n)
    ensures Keyed(cfg, n)
  {
    forall k | k in n.upstreams ensures SessionKeyed(n, k) {
      assert StageAt(n, k);
      SessionStaysKeyed(cfg, s, e, n, k);
    }
    forall k | k in n.paddingRequestMap ensures PendingLinked(n, k) {
      PendingStaysLinked(cfg, s, e, n, k);
    }
    forall id | id in n.clients ensures ClientKeyed(n.clients[id]) {
      ClientStaysKeyed(cfg, s, e, n, id);
    }
  }

  /** A client that made a request keeps its address. */
  lemma KeyStays(cfg: Config, s: System, e: Event, n: System, id: Id)
    requires Keyed(cfg, s) && Possible(s, e) && Effect(cfg, s, e, n) && id in s.clients && s.clients[id].key.Some?
    ensures id in n.clients && n.clients[id].key == s.clients[id].key
  {
    assert ClientKeyed(s.clients[id]) && ClientEffect(cfg, s, e, n, id);
  }

  lemma SessionStaysKeyed(cfg: Config, s: System, e: Event, n: System, k: Key)
    requires Keyed(cfg, s) && Possible(s, e) && Effect(cfg, s, e, n) && k in n.upstreams && StageAt(n, k)
    ensures SessionKeyed(n, k)
  {
    if k in s.upstreams {
      assert SessionEffect(s, e, n, k) && SessionKeyed(s, k);
      var u := s.upstreams[k];
      KeyStays(cfg, s, e, n, u.owner);
      if u.bound.Some? {
        KeyStays(cfg, s, e, n, u.bound.value);
      }
      if k in s.paddingRequestMap {
        assert PendingLinked(s, k);
        KeyStays(cfg, s, e, n, s.paddingRequestMap[k]);
      }
    } else {
      assert NewSession(s, e, n, k) && ClientEffect(cfg, s, e, n, e.id);
    }
  }

  lemma PendingStaysLinked(cfg: Config, s: System, e: Event, n: System, k: Key)
    requires Keyed(cfg, s) && Possible(s, e) && Effect(cfg, s, e, n) && k in n.paddingRequestMap
    ensures PendingLinked(n, k)
  {
    assert PendingEffect(s, e, n, k);
    if k in s.paddingRequestMap {
      assert PendingLinked(s, k);
      KeyStays(cfg, s, e, n, s.paddingRequestMap[k]);
    } else {
      assert ClientEffect(cfg, s, e, n, e.id);
    }
  }

  lemma ClientStaysKeyed(cfg: Config, s: System, e: Event, n: System, id: Id)
    requires Keyed(cfg, s) && Possible(s, e) && Effect(cfg, s, e, n) && id in n.clients
    requires n.clients[id].fault != NoPendingRequest
    ensures ClientKeyed(n.clients[id])
  {
    if id in s.clients {
      assert ClientKeyed(s.clients[id]) && ClientEffect(cfg, s, e, n, id);
    }
  }

  lemma {:induction false} RunKeyed(cfg: Config, s: System, es: seq<Event>)
    requires Keyed(cfg, s) && PossibleRun(cfg, s, es)
    ensures Keyed(cfg, Run(cfg, s, es))
    decreases |es|
  {
    if es != [] {
      StepKeyed(cfg, s, es[0]);
      RunKeyed(cfg, Step(cfg, s, es[0]), es[1..]);
    }
  }

  // Completions.

  predicate IsBound(s: System, k: Key) {
    k in s.upstreams && s.upstreams[k].bound.Some?
  }

  predicate IsOpen(s: System, k: Key) {
    k in s.upstreams && s.upstreams[k].bound.None?
  }

  function Count(b: bool): nat {
    if b then 1 else 0
  }

  ghost function Completions(cfg: Config, s: System, es: seq<Event>, k: Key): nat
    requires Sane(cfg, s) && PossibleRun(cfg, s, es)
    decreases |es|
  {
    if es == [] then 0 else
      StepSane(cfg, s, es[0]);
      Count(CompletesKey(s, es[0], k)) + Completions(cfg, Step(cfg, s, es[0]), es[1..], k)
  }

  /** How many requests are made at the address `k`. */
  ghost function Openings(cfg: Config, s: System, es: seq<Event>, k: Key): nat
    requires Sane(cfg, s) && PossibleRun(cfg, s, es)
    decreases |es|
  {
    if es == [] then 0 else
      StepSane(cfg, s, es[0]);
      var n := Step(cfg, s, es[0]);
      Count(k !in s.upstreams && k in n.upstreams) + Openings(cfg, n, es[1..], k)
  }

  /** How many completed requests are freed at the address `k`. */
  ghost function Releases(cfg: Config, s: System, es: seq<Event>, k: Key): nat
    requires Sane(cfg, s) && PossibleRun(cfg, s, es)
    decreases |es|
  {
    if es == [] then 0 else
      StepSane(cfg, s, es[0]);
      Count(es[0] == Free(k) && IsBound(s, k)) + Releases(cfg, Step(cfg, s, es[0]), es[1..], k)
  }

  /**
   * A completion finds its request pending and binds the session; a bound session is never completed again, and
   * is bound until it is freed.
   */
  lemma StepCompletes(cfg: Config, s: System, e: Event, k: Key)
    requires Keyed(cfg, s) && Possible(s, e)
    ensures CompletesKey(s, e, k) ==> k in s.paddingRequestMap && k in s.sessionMap && IsOpen(s, k)
    ensures IsBound(Step(cfg, s, e), k) <==> CompletesKey(s, e, k) || (IsBound(s, k) && e != Free(k))
    ensures IsOpen(Step(cfg, s, e), k) ==> !CompletesKey(s, e, k) && (IsOpen(s, k) || k !in s.upstreams)
  {
    var n := Step(cfg, s, e);
    StepEffect(cfg, s, e);
    if CompletesKey(s, e, k) {
      FindsRequest(cfg, s, e, k);
    }
    if k in s.upstreams {
      assert SessionEffect(s, e, n, k);
    } else if k in n.upstreams {
      assert NewSession(s, e, n, k);
    }
  }

  lemma StepCounts(cfg: Config, s: System, e: Event, k: Key)
    requires Keyed(cfg, s) && Possible(s, e)
    ensures var n, done := Step(cfg, s, e), Count(CompletesKey(s, e, k));
      && Count(IsBound(s, k)) + done == Count(IsBound(n, k)) + Count(e == Free(k) && IsBound(s, k))
      && done + Count(IsOpen(n, k)) <= Count(k !in s.upstreams && k in n.upstreams) + Count(IsOpen(s, k))
  {
    StepCompletes(cfg, s, e, k);
  }

  predicate NoAssertFailed(s: System) {
    forall id | id in s.clients :: s.clients[id].fault != NoPendingRequest
  }

  /**
   * Every run at all, of any clients and servers and with addresses used again at any time, completes each relay
   * request at most once: completions of requests at `k` never outnumber the requests made there, each binds a
   * session to a channel, no bound session is completed again before it is freed, and no `assert(false)` is
   * reached.
   */
  lemma {:induction false} CompletedAtMostOnce(cfg: Config, s: System, es: seq<Event>, k: Key)
    requires Keyed(cfg, s) && PossibleRun(cfg, s, es)
    ensures var n, done := Run(cfg, s, es), Completions(cfg, s, es, k);
      && Count(IsBound(s, k)) + done == Count(IsBound(n, k)) + Releases(cfg, s, es, k)
      && done + Count(IsOpen(n, k)) <= Openings(cfg, s, es, k) + Count(IsOpen(s, k))
    ensures NoAssertFailed(Run(cfg, s, es))
    decreases |es|
  {
    if es == [] {
      KeyedStages(cfg, s);
    } else {
      StepKeyed(cfg, s, es[0]);
      StepCounts(cfg, s, es[0], k);
      CompletedAtMostOnce(cfg, Step(cfg, s, es[0]), es[1..], k);
      assert Run(cfg, s, es) == Run(cfg, Step(cfg, s, es[0]), es[1..]);
    }
  }

  /** From the start, no more completions than requests, and no failed assertion. */
  lemma NoMoreThanRequests(cfg: Config, es: seq<Event>, k: Key)
    requires cfg.Valid() && PossibleRun(cfg, EMPTY, es)
    ensures Completions(cfg, EMPTY, es, k) <= Openings(cfg, EMPTY, es, k)
    ensures NoAssertFailed(Run(cfg, EMPTY, es))
  {
    EmptyIsKeyed(cfg);
    CompletedAtMostOnce(cfg, EMPTY, es, k);
  }

  // What stays behind.

  /**
   * After any run, once a session was told of its close, the upstream client still lists it exactly when its
   * connection was never made: the default close callback is installed on a connection.
   */
  lemma ListedAfterClose(cfg: Config, es: seq<Event>, k: Key)
    requires cfg.Valid() && PossibleRun(cfg, EMPTY, es)
    requires var n := Run(cfg, EMPTY, es); k in n.upstreams && n.upstreams[k].notice.Given?
    ensures var n := Run(cfg, EMPTY, es); k in n.sessionMap <==> !n.upstreams[k].relay.hasTcp
  {
    EmptyIsKeyed(cfg);
    RunKeyed(cfg, EMPTY, es);
    assert SessionKeyed(Run(cfg, EMPTY, es), k);
  }

  /** The session's connection was tried and failed. */
  predicate FailedToConnect(s: System, k: Key) {
    k in s.upstreams && s.upstreams[k].relay.IsClosed() && !s.upstreams[k].relay.hasTcp
  }

  /** A session that failed to connect is listed, and so is there, for good. */
  lemma {:induction false} FailedStaysListed(cfg: Config, s: System, es: seq<Event>, k: Key)
    requires Keyed(cfg, s) && PossibleRun(cfg, s, es) && FailedToConnect(s, k)
    ensures var n := Run(cfg, s, es); FailedToConnect(n, k) && k in n.sessionMap
    decreases |es|
  {
    assert SessionKeyed(s, k);
    if es != [] {
      StepKeyed(cfg, s, es[0]);
      StepEffect(cfg, s, es[0]);
      assert SessionEffect(s, es[0], Step(cfg, s, es[0]), k);
      FailedStaysListed(cfg, Step(cfg, s, es[0]), es[1..], k);
      assert Run(cfg, s, es) == Run(cfg, Step(cfg, s, es[0]), es[1..]);
    }
  }
}
