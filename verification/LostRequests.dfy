/**
 * Requests whose connection closed too early, in every run: when one is lost, what keeps it pending, and the only
 * way its client is ever sent anything again.
 */
module LostRequests {
  import opened Bytes
  import opened Channels
  import opened Addresses
  import opened Effects
  import opened Failures
  import opened Multiplexer
  import opened Runs
  import S = Socks5Sessions
  import R = RelaySessions

  /** The session of client `id`, its request entered and pending, closes while its header is being written. */
  predicate Loses(s: System, e: Event, id: Id)
    requires Possible(s, e)
  {
    && e.OnUpstream? && e.u.UpstreamClosed? && s.upstreams[e.key].owner == id
    && s.upstreams[e.key].relay.state == R.Authorizing
    && e.key in s.paddingRequestMap && s.paddingRequestMap[e.key] == id
  }

  /** The event completes a request that the pending map names client `id` for. */
  predicate CompletesFor(s: System, e: Event, id: Id)
    requires Possible(s, e)
  {
    && e.OnUpstream? && CompletesKey(s, e, e.key)
    && e.key in s.paddingRequestMap && s.paddingRequestMap[e.key] == id
  }

  predicate IsPending(s: System, id: Id) {
    && id in s.clients && s.clients[id].key.Some?
    && s.clients[id].key.value in s.paddingRequestMap && s.paddingRequestMap[s.clients[id].key.value] == id
  }

  /** Only the completion at its own address is one that the pending map names a client for. */
  lemma CompletesForKey(cfg: Config, s: System, e: Event, id: Id)
    requires Keyed(cfg, s) && Possible(s, e) && IsPending(s, id)
    ensures CompletesFor(s, e, id) <==> CompletesKey(s, e, s.clients[id].key.value)
  {
    if CompletesFor(s, e, id) {
      assert PendingLinked(s, e.key);
    }
  }

  /** A client that asked before. */
  lemma AskedPending(cfg: Config, s: System, e: Event, n: System, id: Id)
    requires Keyed(cfg, s) && Possible(s, e) && Effect(cfg, s, e, n) && id in s.clients && s.clients[id].key.Some?
    ensures IsPending(n, id) <==> IsPending(s, id) && !CompletesKey(s, e, s.clients[id].key.value)
  {
    var k := s.clients[id].key.value;
    KeyStays(cfg, s, e, n, id);
    NotAsking(cfg, s, e, id);
    assert PendingEffect(s, e, n, k);
  }

  /** A client that asked before does not ask again. */
  lemma NotAsking(cfg: Config, s: System, e: Event, id: Id)
    requires Keyed(cfg, s) && Possible(s, e) && id in s.clients && s.clients[id].key.Some?
    ensures !(Requesting(s, e) && e.id == id)
  {
    assert ClientKeyed(s.clients[id]);
  }

  /** A client that did not ask before, or is not there yet. */
  lemma UnaskedPending(cfg: Config, s: System, e: Event, n: System, id: Id)
    requires Keyed(cfg, s) && Possible(s, e) && Effect(cfg, s, e, n)
    requires id in s.clients ==> s.clients[id].key.None?
    ensures IsPending(n, id) <==> Requesting(s, e) && e.id == id && e.c.newKey !in s.paddingRequestMap
  {
    if id in s.clients {
      assert ClientEffect(cfg, s, e, n, id);
      if Requesting(s, e) && e.id == id {
        assert PendingEffect(s, e, n, e.c.newKey);
        if e.c.newKey in s.paddingRequestMap {
          assert PendingLinked(s, e.c.newKey);
        }
      }
    }
  }

  /** A pending entry goes exactly with a completion that names its client, and comes with the client's request. */
  lemma PendingExactly(cfg: Config, s: System, e: Event, id: Id)
    requires Keyed(cfg, s) && Possible(s, e)
    ensures IsPending(Step(cfg, s, e), id) <==>
      || (IsPending(s, id) && !CompletesFor(s, e, id))
      || (Requesting(s, e) && e.id == id && e.c.newKey !in s.paddingRequestMap)
  {
    var n := Step(cfg, s, e);
    StepEffect(cfg, s, e);
    if id in s.clients && s.clients[id].key.Some? {
      AskedPending(cfg, s, e, n, id);
      NotAsking(cfg, s, e, id);
      if IsPending(s, id) {
        CompletesForKey(cfg, s, e, id);
      }
    } else {
      UnaskedPending(cfg, s, e, n, id);
    }
  }

  // Losing a request.

  lemma LostIsPending(s: System, id: Id)
    ensures Lost(View(s, id)) <==>
      && IsPending(s, id) && S.Progress(s.clients[id].session.status) >= 2
      && (Owns(s, id, s.clients[id].key.value) ==>
            var u := s.upstreams[s.clients[id].key.value]; u.bound.None? && u.relay.IsClosed())
  {
  }

  /** Whether the session of a client that asked before is there and closed, after an event. */
  lemma OwnSession(cfg: Config, s: System, e: Event, n: System, id: Id)
    requires Keyed(cfg, s) && Possible(s, e) && Effect(cfg, s, e, n) && id in s.clients && s.clients[id].key.Some?
    ensures var k := s.clients[id].key.value;
      && (Owns(n, id, k) <==> Owns(s, id, k) && e != Free(k))
      && (Owns(n, id, k) ==>
            && (n.upstreams[k].relay.IsClosed() <==> s.upstreams[k].relay.IsClosed() || ClosesKey(e, k))
            && (!CompletesKey(s, e, k) ==> n.upstreams[k].bound == s.upstreams[k].bound))
  {
    var k := s.clients[id].key.value;
    NotAsking(cfg, s, e, id);
    if k in s.upstreams {
      assert SessionEffect(s, e, n, k);
    } else if k in n.upstreams {
      assert NewSession(s, e, n, k);
    }
  }

  /** A pending request's own session, when it is there, is not bound, and closes only as it is lost or completed. */
  lemma PendingSession(cfg: Config, s: System, e: Event, id: Id)
    requires Keyed(cfg, s) && Possible(s, e) && IsPending(s, id) && Owns(s, id, s.clients[id].key.value)
    ensures var k := s.clients[id].key.value;
      && s.upstreams[k].bound.None?
      && (e == Free(k) ==> s.upstreams[k].relay.IsClosed())
      && (ClosesKey(e, k) && !CompletesKey(s, e, k) <==> Loses(s, e, id))
  {
    var k := s.clients[id].key.value;
    assert SessionKeyed(s, k);
    if Loses(s, e, id) {
      assert PendingLinked(s, e.key);
    }
  }

  lemma LosesPending(cfg: Config, s: System, e: Event, id: Id)
    requires Keyed(cfg, s) && Possible(s, e)
    ensures Loses(s, e, id) ==> IsPending(s, id)
  {
    if Loses(s, e, id) {
      assert PendingLinked(s, e.key);
    }
  }

  /**
   * Exactly when a request is lost, whatever happens: its own connection closes while its header is being written;
   * and it stays lost until a completion names its client.
   */
  lemma LosesExactly(cfg: Config, s: System, e: Event, id: Id)
    requires Keyed(cfg, s) && Possible(s, e)
    ensures Lost(View(Step(cfg, s, e), id)) <==>
      (Lost(View(s, id)) && !CompletesFor(s, e, id)) || Loses(s, e, id)
  {
    var n := Step(cfg, s, e);
    StepEffect(cfg, s, e);
    PendingExactly(cfg, s, e, id);
    LostIsPending(s, id);
    LostIsPending(n, id);
    if IsPending(s, id) {
      PendingLoses(cfg, s, e, id);
    } else {
      NotPendingLoses(cfg, s, e, id);
    }
  }

  lemma PendingLoses(cfg: Config, s: System, e: Event, id: Id)
    requires Keyed(cfg, s) && Possible(s, e) && Effect(cfg, s, e, Step(cfg, s, e)) && IsPending(s, id)
    ensures Lost(View(Step(cfg, s, e), id)) <==>
      (Lost(View(s, id)) && !CompletesFor(s, e, id)) || Loses(s, e, id)
  {
    var n := Step(cfg, s, e);
    AskedPending(cfg, s, e, n, id);
    CompletesForKey(cfg, s, e, id);
    OwnSession(cfg, s, e, n, id);
    KeyStays(cfg, s, e, n, id);
    assert ClientKeyed(s.clients[id]) && ClientEffect(cfg, s, e, n, id);
    LostIsPending(s, id);
    LostIsPending(n, id);
    if Owns(s, id, s.clients[id].key.value) {
      PendingSession(cfg, s, e, id);
    }
  }

  lemma NotPendingLoses(cfg: Config, s: System, e: Event, id: Id)
    requires Keyed(cfg, s) && Possible(s, e) && Effect(cfg, s, e, Step(cfg, s, e)) && !IsPending(s, id)
    ensures !Lost(View(Step(cfg, s, e), id)) && !Loses(s, e, id) && !Lost(View(s, id))
  {
    var n := Step(cfg, s, e);
    LostIsPending(s, id);
    LostIsPending(n, id);
    LosesPending(cfg, s, e, id);
    if id in s.clients && s.clients[id].key.Some? {
      AskedPending(cfg, s, e, n, id);
    } else {
      UnaskedPending(cfg, s, e, n, id);
      if Requesting(s, e) && e.id == id && e.c.newKey !in s.paddingRequestMap {
        assert NewSession(s, e, n, e.c.newKey) && ClientEffect(cfg, s, e, n, id);
      }
    }
  }

  /**
   * A request goes by the address of an old pending one exactly when that address is a lost client's: nothing but a
   * lost request leaves an entry behind at an address that can be used again.
   */
  lemma StaleExactly(cfg: Config, s: System, e: Event)
    requires Keyed(cfg, s) && Possible(s, e)
    ensures Stale(s, e) <==>
      Requesting(s, e) && exists id: Id :: Lost(View(s, id)) && s.clients[id].key == Some(e.c.newKey)
  {
    if Requesting(s, e) && e.c.newKey in s.paddingRequestMap {
      var id := s.paddingRequestMap[e.c.newKey];
      assert PendingLinked(s, e.c.newKey) && ClientKeyed(s.clients[id]);
      LostIsPending(s, id);
    }
  }

  /** Whether a run's last word on client `id` is that its request was lost: lost, and not completed for it since. */
  ghost predicate LostBy(cfg: Config, s: System, es: seq<Event>, id: Id, before: bool)
    requires Sane(cfg, s) && PossibleRun(cfg, s, es)
    decreases |es|
  {
    if es == [] then before else
      StepSane(cfg, s, es[0]);
      LostBy(cfg, Step(cfg, s, es[0]), es[1..], id, (before && !CompletesFor(s, es[0], id)) || Loses(s, es[0], id))
  }

  /** In every run at all, a request is lost exactly by such a close, and found again by a completion for its client. */
  lemma {:induction false} RunLosesExactly(cfg: Config, s: System, es: seq<Event>, id: Id)
    requires Keyed(cfg, s) && PossibleRun(cfg, s, es)
    ensures Lost(View(Run(cfg, s, es), id)) <==> LostBy(cfg, s, es, id, Lost(View(s, id)))
    decreases |es|
  {
    if es != [] {
      StepKeyed(cfg, s, es[0]);
      LosesExactly(cfg, s, es[0], id);
      RunLosesExactly(cfg, Step(cfg, s, es[0]), es[1..], id);
      assert Run(cfg, s, es) == Run(cfg, Step(cfg, s, es[0]), es[1..]);
    }
  }

  /** The session of client `id` is still to complete, and the pending map does not name another client for it. */
  predicate OnItsWay(s: System, id: Id) {
    && id in s.clients && s.clients[id].key.Some?
    && var k := s.clients[id].key.value;
       && Owns(s, id, k) && s.upstreams[k].bound.None? && !s.upstreams[k].relay.IsClosed()
       && (k in s.paddingRequestMap ==> s.paddingRequestMap[k] == id)
  }

  /**
   * What stays in the pending map: after any run, the entry of a client, its channel there or gone, is there exactly
   * when its request was lost, and not completed for it since, or is still on its way.
   */
  lemma StaysPendingExactly(cfg: Config, es: seq<Event>, id: Id)
    requires cfg.Valid() && PossibleRun(cfg, EMPTY, es)
    ensures var n := Run(cfg, EMPTY, es); IsPending(n, id) <==> LostBy(cfg, EMPTY, es, id, false) || OnItsWay(n, id)
  {
    var n := Run(cfg, EMPTY, es);
    EmptyIsKeyed(cfg);
    RunKeyed(cfg, EMPTY, es);
    RunLosesExactly(cfg, EMPTY, es, id);
    LostIsPending(EMPTY, id);
    LostIsPending(n, id);
    if id in n.clients && n.clients[id].key.Some? {
      var k := n.clients[id].key.value;
      assert ClientKeyed(n.clients[id]);
      if k in n.upstreams {
        assert SessionKeyed(n, k);
      }
    }
  }

  // What a client hears after its session went.

  /** Client `id` made a request, and its own session closed without completing it, or is destroyed. */
  predicate Orphaned(s: System, id: Id) {
    && id in s.clients && s.clients[id].key.Some?
    && var k := s.clients[id].key.value;
       Owns(s, id, k) ==> s.upstreams[k].bound.None? && s.upstreams[k].relay.IsClosed()
  }

  lemma LostIsOrphaned(s: System, id: Id)
    requires Lost(View(s, id))
    ensures Orphaned(s, id)
  {
    LostIsPending(s, id);
  }

  lemma OrphanCloses(cfg: Config, s: System, e: Event, id: Id)
    requires Keyed(cfg, s) && Possible(s, e) && Orphaned(s, id) && Owns(s, id, s.clients[id].key.value)
    ensures !CompletesKey(s, e, s.clients[id].key.value)
  {
    assert SessionKeyed(s, s.clients[id].key.value);
  }

  lemma OrphanStays(cfg: Config, s: System, e: Event, id: Id)
    requires Keyed(cfg, s) && Possible(s, e) && Orphaned(s, id)
    ensures Orphaned(Step(cfg, s, e), id) && Step(cfg, s, e).clients[id].key == s.clients[id].key
  {
    var n, k := Step(cfg, s, e), s.clients[id].key.value;
    StepEffect(cfg, s, e);
    KeyStays(cfg, s, e, n, id);
    OwnSession(cfg, s, e, n, id);
    if Owns(s, id, k) {
      OrphanCloses(cfg, s, e, id);
    }
  }

  /** Whatever serves a client that asked is the session at the address it asked by. */
  lemma ServesByKey(cfg: Config, s: System, e: Event, id: Id, k: Key)
    requires Keyed(cfg, s) && Possible(s, e) && k in s.upstreams && Serves(cfg, s, e, id, k)
    ensures id in s.clients && s.clients[id].key == Some(k)
  {
    assert SessionKeyed(s, k);
    if k in s.paddingRequestMap {
      assert PendingLinked(s, k);
    }
  }

  /** The event serves client `id` by way of a session that was opened for another client's request. */
  predicate ServedByAnother(cfg: Config, s: System, e: Event, id: Id)
    requires Possible(s, e)
  {
    e.OnUpstream? && s.upstreams[e.key].owner != id && Serves(cfg, s, e, id, e.key)
  }

  /**
   * Exactly when a client whose session went is sent anything: when its channel is there and the event completes,
   * or reads from, a session opened for another client's request at its own address, which the pending map names,
   * or has bound, for it.
   */
  lemma AnsweredExactly(cfg: Config, s: System, e: Event, id: Id)
    requires Keyed(cfg, s) && Possible(s, e) && Orphaned(s, id)
    ensures var n := Step(cfg, s, e);
      && id in n.clients && s.clients[id].sent <= n.clients[id].sent
      && |n.clients[id].sent| == |s.clients[id].sent| + Count(ServedByAnother(cfg, s, e, id))
      && (ServedByAnother(cfg, s, e, id) ==> s.clients[id].key == Some(e.key))
  {
    StepEffect(cfg, s, e);
    assert ClientEffect(cfg, s, e, Step(cfg, s, e), id);
    SpeaksByAnother(cfg, s, e, id);
  }

  lemma SpeaksByAnother(cfg: Config, s: System, e: Event, id: Id)
    requires Keyed(cfg, s) && Possible(s, e) && Orphaned(s, id)
    ensures Speaks(cfg, s, e, id) <==> ServedByAnother(cfg, s, e, id)
    ensures ServedByAnother(cfg, s, e, id) ==> s.clients[id].key == Some(e.key)
  {
    assert ClientKeyed(s.clients[id]);
    if Speaks(cfg, s, e, id) && e.OnUpstream? {
      ServesByKey(cfg, s, e, id, e.key);
      assert SessionKeyed(s, e.key);
    }
  }

  /** How often another client's session serves client `id` in a run. */
  ghost function Services(cfg: Config, s: System, es: seq<Event>, id: Id): nat
    requires Sane(cfg, s) && PossibleRun(cfg, s, es)
    decreases |es|
  {
    if es == [] then 0 else
      StepSane(cfg, s, es[0]);
      Count(ServedByAnother(cfg, s, es[0], id)) + Services(cfg, Step(cfg, s, es[0]), es[1..], id)
  }

  /** In every run from then on, of any clients, that is all such a client is ever sent. */
  lemma {:induction false} AnsweredInEveryRun(cfg: Config, s: System, es: seq<Event>, id: Id)
    requires Keyed(cfg, s) && PossibleRun(cfg, s, es) && Orphaned(s, id)
    ensures var n := Run(cfg, s, es);
      && Orphaned(n, id) && s.clients[id].sent <= n.clients[id].sent
      && |n.clients[id].sent| == |s.clients[id].sent| + Services(cfg, s, es, id)
    decreases |es|
  {
    if es != [] {
      StepKeyed(cfg, s, es[0]);
      OrphanStays(cfg, s, es[0], id);
      AnsweredExactly(cfg, s, es[0], id);
      AnsweredInEveryRun(cfg, Step(cfg, s, es[0]), es[1..], id);
      assert Run(cfg, s, es) == Run(cfg, Step(cfg, s, es[0]), es[1..]);
    }
  }

  /** No request of the run is made at the address `k`. */
  ghost predicate NoneAsks(cfg: Config, s: System, es: seq<Event>, k: Key)
    requires Sane(cfg, s) && PossibleRun(cfg, s, es)
    decreases |es|
  {
    es == [] || (!Asking(s, es[0], k) && (StepSane(cfg, s, es[0]); NoneAsks(cfg, Step(cfg, s, es[0]), es[1..], k)))
  }

  /** No session but its own is at the address of client `id`. */
  predicate AloneAtAddress(s: System, id: Id) {
    && Orphaned(s, id)
    && (s.clients[id].key.value in s.upstreams ==> Owns(s, id, s.clients[id].key.value))
  }

  /**
   * Until a request is made at its address, a client whose request was lost is sent nothing, and nothing completes
   * its request: only the reuse of the address ever brings it an answer.
   */
  lemma {:induction false} LostUntilReused(cfg: Config, s: System, es: seq<Event>, id: Id)
    requires Keyed(cfg, s) && PossibleRun(cfg, s, es) && AloneAtAddress(s, id)
    requires NoneAsks(cfg, s, es, s.clients[id].key.value)
    ensures var n := Run(cfg, s, es);
      && AloneAtAddress(n, id) && n.clients[id].sent == s.clients[id].sent
      && Completions(cfg, s, es, s.clients[id].key.value) == 0
      && (Lost(View(s, id)) ==> Lost(View(n, id)))
    decreases |es|
  {
    if es != [] {
      StepKeyed(cfg, s, es[0]);
      AloneStays(cfg, s, es[0], id);
      LostUntilReused(cfg, Step(cfg, s, es[0]), es[1..], id);
      assert Run(cfg, s, es) == Run(cfg, Step(cfg, s, es[0]), es[1..]);
    }
  }

  lemma AloneStays(cfg: Config, s: System, e: Event, id: Id)
    requires Keyed(cfg, s) && Possible(s, e) && AloneAtAddress(s, id) && !Asking(s, e, s.clients[id].key.value)
    ensures var n, k := Step(cfg, s, e), s.clients[id].key.value;
      && AloneAtAddress(n, id) && n.clients[id].key == Some(k) && n.clients[id].sent == s.clients[id].sent
      && !CompletesKey(s, e, k) && (Lost(View(s, id)) ==> Lost(View(n, id)))
  {
    var n, k := Step(cfg, s, e), s.clients[id].key.value;
    OrphanStays(cfg, s, e, id);
    AnsweredExactly(cfg, s, e, id);
    StepEffect(cfg, s, e);
    NotCompleted(cfg, s, e, id);
    assert k !in s.upstreams && k in n.upstreams ==> NewSession(s, e, n, k);
    if k in s.upstreams {
      assert SessionEffect(s, e, n, k);
    }
  }

  lemma NotCompleted(cfg: Config, s: System, e: Event, id: Id)
    requires Keyed(cfg, s) && Possible(s, e) && AloneAtAddress(s, id)
    ensures !CompletesKey(s, e, s.clients[id].key.value)
    ensures Lost(View(s, id)) ==> Lost(View(Step(cfg, s, e), id))
  {
    var k := s.clients[id].key.value;
    if k in s.upstreams {
      assert SessionKeyed(s, k);
    }
    if Lost(View(s, id)) {
      LosesExactly(cfg, s, e, id);
      LostIsPending(s, id);
      CompletesForKey(cfg, s, e, id);
    }
  }
}
