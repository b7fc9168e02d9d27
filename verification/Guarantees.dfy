/** What holds of every run of the multiplexer, by way of what holds of one channel. */
module Guarantees {
  import opened Bytes
  import opened Cipher
  import opened Socks5
  import opened Channels
  import opened ChannelInvariants
  import opened ChannelGuarantees
  import opened Multiplexer
  import opened Isolation
  import opened Runs
  import R = RelaySessions

  // Runs.

  /** No request of the run is made at the address of an old pending one. */
  ghost predicate NoneStale(cfg: Config, s: System, es: seq<Event>)
    requires Sane(cfg, s) && PossibleRun(cfg, s, es)
    decreases |es|
  {
    es == [] || (!Stale(s, es[0]) && (StepSane(cfg, s, es[0]); NoneStale(cfg, Step(cfg, s, es[0]), es[1..])))
  }

  /** A run short of such requests. */
  ghost predicate ProperRun(cfg: Config, s: System, es: seq<Event>)
    requires Linked(cfg, s)
  {
    PossibleRun(cfg, s, es) && NoneStale(cfg, s, es)
  }

  lemma {:induction false} RunLinked(cfg: Config, s: System, es: seq<Event>)
    requires Linked(cfg, s) && ProperRun(cfg, s, es)
    ensures Linked(cfg, Run(cfg, s, es))
    decreases |es|
  {
    if es != [] {
      StepIsolated(cfg, s, es[0]);
      RunLinked(cfg, Step(cfg, s, es[0]), es[1..]);
    }
  }

  /** The events of a run that concern channel `id`, as that channel sees them. */
  ghost function LocalRun(cfg: Config, s: System, es: seq<Event>, id: Id): seq<CellEvent>
    requires Linked(cfg, s) && ProperRun(cfg, s, es)
    decreases |es|
  {
    if es == [] then [] else
      StepIsolated(cfg, s, es[0]);
      (if Concerns(s, es[0]) == id then [Local(es[0])] else []) + LocalRun(cfg, Step(cfg, s, es[0]), es[1..], id)
  }

  ghost predicate CellReadyRun(cfg: Config, cell: Cell, es: seq<CellEvent>)
    requires cell.Fits(cfg)
    decreases |es|
  {
    es == [] || (Ready(cell, es[0]) && CellReadyRun(cfg, CellStep(cfg, cell, es[0]), es[1..]))
  }

  ghost function CellRun(cfg: Config, cell: Cell, es: seq<CellEvent>): Cell
    requires cell.Fits(cfg) && CellReadyRun(cfg, cell, es)
    decreases |es|
  {
    if es == [] then cell else CellRun(cfg, CellStep(cfg, cell, es[0]), es[1..])
  }

  /**
   * Channel isolation: in every proper run, what the tables hold for a channel at the end is what the one-channel
   * machine makes of that channel's own events alone.
   */
  lemma {:induction false} ChannelIsolation(cfg: Config, s: System, es: seq<Event>, id: Id)
    requires Linked(cfg, s) && ProperRun(cfg, s, es)
    ensures var c, local := View(s, id), LocalRun(cfg, s, es, id);
      && c.Fits(cfg) && CellReadyRun(cfg, c, local)
      && View(Run(cfg, s, es), id) == CellRun(cfg, c, local)
    decreases |es|
  {
    ViewFits(cfg, s, id);
    if es != [] {
      StepIsolated(cfg, s, es[0]);
      var n := Step(cfg, s, es[0]);
      ChannelIsolation(cfg, n, es[1..], id);
      var rest := LocalRun(cfg, n, es[1..], id);
      if Concerns(s, es[0]) == id {
        assert LocalRun(cfg, s, es, id) == [Local(es[0])] + rest;
        assert ([Local(es[0])] + rest)[1..] == rest;
      } else {
        assert LocalRun(cfg, s, es, id) == [] + rest == rest;
      }
    }
  }

  /** Every step of the run is one of a well-behaved client or server. */
  ghost predicate WellBehavedRun(cfg: Config, s: System, es: seq<Event>)
    requires Linked(cfg, s)
    decreases |es|
  {
    es == [] ||
    (&& Proper(s, es[0])
     && (LocalReady(cfg, s, es[0]); WellBehaved(cfg, View(s, Concerns(s, es[0])), Local(es[0])))
     && (StepIsolated(cfg, s, es[0]); WellBehavedRun(cfg, Step(cfg, s, es[0]), es[1..])))
  }

  ghost predicate AllGood(cfg: Config, s: System) {
    forall id :: Good(cfg, View(s, id))
  }

  lemma EmptyIsGood(cfg: Config)
    requires cfg.Valid()
    ensures Linked(cfg, EMPTY) && AllGood(cfg, EMPTY)
  {
    forall id ensures Good(cfg, View(EMPTY, id)) {
      assert View(EMPTY, id) == Nothing(id);
      NothingIsGood(cfg, id);
    }
  }

  lemma StepKeepsAllGood(cfg: Config, s: System, e: Event)
    requires Linked(cfg, s) && AllGood(cfg, s) && WellBehavedRun(cfg, s, [e])
    ensures Linked(cfg, Step(cfg, s, e)) && AllGood(cfg, Step(cfg, s, e))
  {
    StepIsolated(cfg, s, e);
    var n, id := Step(cfg, s, e), Concerns(s, e);
    StepGood(cfg, View(s, id), Local(e));
    forall j ensures Good(cfg, View(n, j)) {
      if j != id {
        assert View(n, j) == View(s, j);
      }
    }
  }

  /** The invariant of every channel holds throughout every run of well-behaved clients. */
  lemma {:induction false} RunKeepsAllGood(cfg: Config, s: System, es: seq<Event>)
    requires Linked(cfg, s) && AllGood(cfg, s) && WellBehavedRun(cfg, s, es)
    ensures ProperRun(cfg, s, es) && AllGood(cfg, Run(cfg, s, es))
    decreases |es|
  {
    if es != [] {
      StepIsolated(cfg, s, es[0]);
      FirstWellBehaved(cfg, s, es);
      StepKeepsAllGood(cfg, s, es[0]);
      RunKeepsAllGood(cfg, Step(cfg, s, es[0]), es[1..]);
    }
  }

  lemma FirstWellBehaved(cfg: Config, s: System, es: seq<Event>)
    requires Linked(cfg, s) && es != [] && WellBehavedRun(cfg, s, es)
    ensures WellBehavedRun(cfg, s, [es[0]])
  {
    StepIsolated(cfg, s, es[0]);
    assert [es[0]][1..] == [];
  }

  /** The states well-behaved clients can bring an empty multiplexer to. */
  ghost predicate Reachable(cfg: Config, s: System) {
    cfg.Valid() && Linked(cfg, EMPTY) && exists es :: WellBehavedRun(cfg, EMPTY, es) && ProperRun(cfg, EMPTY, es)
                                                        && s == Run(cfg, EMPTY, es)
  }

  lemma ReachableIsGood(cfg: Config, s: System)
    requires Reachable(cfg, s)
    ensures Linked(cfg, s) && AllGood(cfg, s)
  {
    var es :| WellBehavedRun(cfg, EMPTY, es) && ProperRun(cfg, EMPTY, es) && s == Run(cfg, EMPTY, es);
    EmptyIsGood(cfg);
    RunKeepsAllGood(cfg, EMPTY, es);
    RunLinked(cfg, EMPTY, es);
  }

  // States.

  /**
   * The tables in every reachable state: nothing ever went wrong, every id is below the next one, a channel is
   * waiting exactly when a pending request maps to it, and then just one does, and an established or closing
   * channel has an upstream session that knows it.
   */
  lemma TablesAgree(cfg: Config, s: System)
    requires Reachable(cfg, s)
    ensures forall id | id in s.clients :: s.clients[id].fault == Fine
    ensures forall id | id in s.channelMap :: id in s.clients && id < s.nextChannelID
    ensures forall id | id in s.channelMap ::
      s.channelMap[id].status == WaitingSession <==>
        exists k :: k in s.paddingRequestMap && s.paddingRequestMap[k] == id
    ensures forall k, k' | k in s.paddingRequestMap && k' in s.paddingRequestMap ::
      s.paddingRequestMap[k] == s.paddingRequestMap[k'] ==> k == k'
    ensures forall id | id in s.channelMap && s.channelMap[id].status in {Established, Closing} ::
      var k := s.channelMap[id].ssSession;
      k.Some? && k.value in s.upstreams && s.upstreams[k.value].bound == Some(id)
  {
    ReachableIsGood(cfg, s);
    forall id | id in s.clients
      ensures s.clients[id].fault == Fine
      ensures id in s.channelMap ==> ChannelAgrees(s, id)
    {
      assert Good(cfg, View(s, id)) && ClientLinked(s, id);
      if id in s.channelMap {
        OneChannelAgrees(cfg, s, id);
      }
    }
    forall id | id in s.channelMap
      ensures id in s.clients && id < s.nextChannelID && ChannelAgrees(s, id)
    {
      assert ClientLinked(s, id);
    }
    forall k, k' | && k in s.paddingRequestMap && k' in s.paddingRequestMap
                   && s.paddingRequestMap[k] == s.paddingRequestMap[k']
      ensures k == k'
    {
      assert PendingLinked(s, k) && PendingLinked(s, k');
    }
  }

  ghost predicate ChannelAgrees(s: System, id: Id)
    requires id in s.channelMap
  {
    && (s.channelMap[id].status == WaitingSession <==>
          exists k :: k in s.paddingRequestMap && s.paddingRequestMap[k] == id)
    && (s.channelMap[id].status in {Established, Closing} ==>
          var k := s.channelMap[id].ssSession;
          k.Some? && k.value in s.upstreams && s.upstreams[k.value].bound == Some(id))
  }

  lemma OneChannelAgrees(cfg: Config, s: System, id: Id)
    requires Linked(cfg, s) && Good(cfg, View(s, id)) && id in s.channelMap
    ensures ChannelAgrees(s, id)
  {
    assert ClientLinked(s, id);
    if k :| k in s.paddingRequestMap && s.paddingRequestMap[k] == id {
      assert PendingLinked(s, k);
    }
    if s.channelMap[id].status == WaitingSession {
      var k := s.clients[id].key.value;
      assert k in s.paddingRequestMap && s.paddingRequestMap[k] == id;
    }
  }

  /**
   * End to end, in every reachable state and for every upstream connection that was opened: the server reads the
   * octets its own client sent, from the address type of the request on, without a gap and as far as they were
   * relayed; and that client was sent a beginning of what the server wrote, all of it while its channel is there.
   */
  lemma Transparency(cfg: Config, s: System, k: Key)
    requires Reachable(cfg, s) && k in s.upstreams && s.upstreams[k].relay.hasTcp
    ensures var r, n, id := s.upstreams[k].relay, cfg.cipher.IvLength(), s.upstreams[k].owner;
      && id in s.clients
      && var cl := s.clients[id];
         && |r.wire| >= n && |cl.asked| >= 3
         && R.ServerReads(cfg.cipher, r.wire) == cl.asked[3..] + r.payload
         && r.payload <= cl.forwarded && (r.state == R.Authorized ==> r.payload == cl.forwarded)
         && cl.received == cl.greeting + cl.asked + cl.session.buffer + cl.forwarded
         && (!r.ivPending ==>
               && |r.received| >= n
               && var plain := Decrypt(cfg.cipher, Start(cfg.cipher, r.received[..n]), r.received[n..]).1;
                  Delivered(cl.sent) <= plain && (id in s.channelMap ==> Delivered(cl.sent) == plain))
  {
    ReachableIsGood(cfg, s);
    assert UpstreamLinked(cfg, s, k);
    var cell := View(s, s.upstreams[k].owner);
    assert Good(cfg, cell);
    UpstreamEndToEnd(cfg, cell);
    if !s.upstreams[k].relay.ivPending {
      DownstreamEndToEnd(cfg, cell);
    }
  }

  /**
   * Replies in every reachable state: each client has at most one, its payload goes upstream only after success,
   * none does after failure, and a session completed for a channel that was gone is closing or closed.
   */
  lemma RepliesFirst(cfg: Config, s: System, k: Key)
    requires Reachable(cfg, s) && k in s.upstreams
    ensures var u := s.upstreams[k];
      && u.owner in s.clients
      && var sent := s.clients[u.owner].sent;
         && (forall i, j | 0 <= i < |sent| && 0 <= j < |sent| && sent[i].Reply? && sent[j].Reply? :: i == j)
         && (u.relay.payload != [] ==> Reply(STATUS_SUCCESS) in sent)
         && (Reply(STATUS_FAILED) in sent ==> u.relay.payload == [])
         && (u.bound.Some? && !Replied(sent) ==> u.relay.closing || u.relay.IsClosed())
  {
    ReachableIsGood(cfg, s);
    assert UpstreamLinked(cfg, s, k);
    assert Good(cfg, View(s, s.upstreams[k].owner));
    ReplyBeforeRelay(cfg, View(s, s.upstreams[k].owner));
  }

  /**
   * Closing in every reachable state: a closing channel asked both its ends to close, save those that are closed;
   * any other channel asked neither; and one that is established although its request failed has a delayed close
   * still to come.
   */
  lemma ClosesBothEnds(cfg: Config, s: System, id: Id)
    requires Reachable(cfg, s) && id in s.channelMap
    ensures id in s.clients
    ensures var cl, status, u := s.clients[id], s.channelMap[id].status, View(s, id).upstream;
      && (status == Closing ==>
            && (cl.closing || cl.tcpClosed)
            && u.Some? && (u.value.relay.closing || u.value.relay.IsClosed()))
      && (status != Closing ==> !cl.closing && (u.Some? ==> !u.value.relay.closing))
      && (status == Established && Reply(STATUS_FAILED) in cl.sent ==> cl.timers > 0)
  {
    ReachableIsGood(cfg, s);
    BothEndsAsked(cfg, View(s, id));
  }

  // Runs from a reachable state.

  /**
   * The close protocol. A channel that is established or closing leaves the table in a step only when both its
   * sessions are closed, and once both close callbacks have run, in either order, it has left.
   */
  lemma CloseProtocol(cfg: Config, s: System, e: Event, id: Id)
    requires Reachable(cfg, s) && id in s.clients
    requires (ReachableIsGood(cfg, s); WellBehavedRun(cfg, s, [e]))
    ensures var n := Step(cfg, s, e);
      && (id in s.channelMap && s.channelMap[id].status in {Established, Closing} && id !in n.channelMap ==>
            BothClosed(View(n, id)))
      && id in n.clients
      && (n.clients[id].notified && View(n, id).upstream.Some? && View(n, id).upstream.value.notice.Given? ==>
            id !in n.channelMap)
  {
    ReachableIsGood(cfg, s);
    StepIsolated(cfg, s, e);
    StepKeepsAllGood(cfg, s, e);
    var n := Step(cfg, s, e);
    var c := View(s, id);
    ViewFits(cfg, s, id);
    if Concerns(s, e) == id {
      SentGrows(cfg, c, Local(e));
      if id in s.channelMap && s.channelMap[id].status in {Established, Closing} && id !in n.channelMap {
        LeavesOnlyWhenClosed(cfg, c, Local(e));
      }
    } else {
      assert View(n, id) == c;
    }
    assert Good(cfg, View(n, id));
    if n.clients[id].notified && View(n, id).upstream.Some? && View(n, id).upstream.value.notice.Given? {
      GoneWhenBothTold(cfg, View(n, id));
    }
  }

  lemma StepForward(cfg: Config, s: System, e: Event, id: Id)
    requires Linked(cfg, s) && AllGood(cfg, s) && WellBehavedRun(cfg, s, [e])
    ensures Rank(View(Step(cfg, s, e), id)) >= Rank(View(s, id))
  {
    StepIsolated(cfg, s, e);
    if Concerns(s, e) == id {
      StatusForward(cfg, View(s, id), Local(e));
    }
  }

  /** How often the status of channel `id` changes in a run. */
  ghost function StatusChanges(cfg: Config, s: System, es: seq<Event>, id: Id): nat
    requires Linked(cfg, s) && ProperRun(cfg, s, es)
    decreases |es|
  {
    if es == [] then 0 else
      StepIsolated(cfg, s, es[0]);
      var n := Step(cfg, s, es[0]);
      (if Rank(View(n, id)) == Rank(View(s, id)) then 0 else 1) + StatusChanges(cfg, n, es[1..], id)
  }

  /** A channel's status only moves forward, so it changes at most once for each status still ahead. */
  lemma {:induction false} StatusOnlyForward(cfg: Config, s: System, es: seq<Event>, id: Id)
    requires Linked(cfg, s) && AllGood(cfg, s) && WellBehavedRun(cfg, s, es) && ProperRun(cfg, s, es)
    ensures StatusChanges(cfg, s, es, id) <= Rank(View(Run(cfg, s, es), id)) - Rank(View(s, id))
    ensures Rank(View(Run(cfg, s, es), id)) <= 6
    decreases |es|
  {
    if es != [] {
      StepIsolated(cfg, s, es[0]);
      FirstWellBehaved(cfg, s, es);
      StepKeepsAllGood(cfg, s, es[0]);
      StepForward(cfg, s, es[0], id);
      StatusOnlyForward(cfg, Step(cfg, s, es[0]), es[1..], id);
    }
  }
}
