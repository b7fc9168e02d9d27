/** What closing a channel does to its entry and to both its ends, for any client. */
module Closings {
  import opened Bytes
  import opened Channels
  import opened ChannelGuarantees
  import opened Completion
  import opened Multiplexer
  import opened Runs
  import R = RelaySessions
  import S = Socks5Sessions

  /** A channel that is not closing yet asks its client, if that is open, to close. */
  predicate AsksClient(ch: Channel, cl: Client) {
    ch.status != Closing && ch.status != Closed && !cl.tcpClosed
  }

  /** An established one asks its upstream session as well, if that is open and has a connection. */
  predicate AsksUpstream(ch: Channel, u: Option<Upstream>) {
    ch.status == Established && u.Some? && u.value.relay.state != R.Disconnected && u.value.relay.hasTcp
  }

  /** The client's record after it was asked, or not, with `sync` telling that it then closes at once. */
  function ClientAfter(ch: Channel, cl: Client, sync: bool): Client {
    if AsksClient(ch, cl) then cl.(closing := true, tcpClosed := sync) else cl
  }

  function UpstreamAfter(ch: Channel, u: Upstream): Upstream {
    if AsksUpstream(ch, Some(u)) then u.(relay := u.relay.(closing := true)) else u
  }

  /**
   * The entry goes at once when no upstream session is in it and its client was closed before; when one is, as
   * soon as both ends are closed.
   */
  predicate Leaves(ch: Channel, cl: Client, sync: bool, u: Option<Upstream>) {
    match ch.status
    case Inited | WaitingSession => cl.tcpClosed
    case Established | Closing =>
      ClientAfter(ch, cl, sync).tcpClosed && u.Some? && u.value.relay.state == R.Disconnected
    case Closed => true
  }

  /** An entry that stays is closing. */
  function EntryAfter(ch: Channel, cl: Client, sync: bool, u: Option<Upstream>): Option<Channel> {
    if Leaves(ch, cl, sync, u) then None else Some(ch.(status := Closing))
  }

  // The multiplexer's tables.

  /** `closeChannel` of channel `id` looks at a session that is not there. */
  predicate NullAt(s: System, id: Id)
    requires id in s.channelMap && id in s.clients
  {
    var ch := s.channelMap[id];
    ch.ssSession.None? && (ch.status == Established || (ch.status == Closing && s.clients[id].tcpClosed))
  }

  /** The decision, in terms of the ends and the entry. */
  lemma VerdictMeans(ch: Channel, cl: Client, sync: bool, u: Option<Upstream>)
    requires u.None? ==> ch.status != Established && !(ch.status == Closing && cl.tcpClosed)
    ensures CloseVerdict(ch.status, cl.tcpClosed, sync, if u.Some? then Some(u.value.relay.IsClosed()) else None)
         == Verdict(if Leaves(ch, cl, sync, u) then Closed else Closing, AsksClient(ch, cl),
                    ch.status == Established && u.Some? && !u.value.relay.IsClosed())
  {
  }

  /** Both ends after they were asked, or not. */
  lemma RearrangedEnds(s: System, id: Id, k: Key, ch: Channel, sync: bool, entry: Option<Channel>)
    requires id in s.clients && k in s.upstreams
    ensures var cl, u := s.clients[id], s.upstreams[k];
      var close := if ch.status == Established && !u.relay.IsClosed() then Some(k) else None;
      Rearrange(s, id, AsksClient(ch, cl), sync, close, entry)
        == WithChannel(s.(clients := s.clients[id := ClientAfter(ch, cl, sync)],
                          upstreams := s.upstreams[k := UpstreamAfter(ch, u)]), id, entry)
  {
    assert s.clients[id := s.clients[id]] == s.clients;
    assert s.upstreams[k := s.upstreams[k]] == s.upstreams;
  }

  lemma AloneAfterClose(cfg: Config, s: System, id: Id, sync: bool)
    requires Sane(cfg, s) && id in s.channelMap && s.channelMap[id].ssSession.None? && !NullAt(s, id)
    ensures var n, ch, cl := CloseChannel(s, id, sync), s.channelMap[id], s.clients[id];
      && n.clients == s.clients[id := ClientAfter(ch, cl, sync)]
      && n.channelMap == (if Leaves(ch, cl, sync, None) then s.channelMap - {id}
                          else s.channelMap[id := ch.(status := Closing)])
      && n == s.(clients := n.clients, channelMap := n.channelMap)
  {
    assert s.clients[id := s.clients[id]] == s.clients;
  }

  lemma PairAfterClose(cfg: Config, s: System, id: Id, k: Key, sync: bool)
    requires Sane(cfg, s) && id in s.channelMap && s.channelMap[id].ssSession == Some(k) && k in s.upstreams
    ensures var n, ch, cl, u := CloseChannel(s, id, sync), s.channelMap[id], s.clients[id], s.upstreams[k];
      && n.clients == s.clients[id := ClientAfter(ch, cl, sync)]
      && n.upstreams == s.upstreams[k := UpstreamAfter(ch, u)]
      && n.channelMap == (if Leaves(ch, cl, sync, Some(u)) then s.channelMap - {id}
                          else s.channelMap[id := ch.(status := Closing)])
      && n == s.(clients := n.clients, upstreams := n.upstreams, channelMap := n.channelMap)
  {
    var ch := s.channelMap[id];
    var entry := EntryAfter(ch, s.clients[id], sync, Some(s.upstreams[k]));
    VerdictMeans(ch, s.clients[id], sync, Some(s.upstreams[k]));
    RearrangedEnds(s, id, k, ch, sync, entry);
    assert CloseChannel(s, id, sync) ==
      Rearrange(s, id, AsksClient(ch, s.clients[id]), sync,
                if ch.status == Established && !s.upstreams[k].relay.IsClosed() then Some(k) else None, entry);
  }

  /**
   * `closeChannel` on the tables: the entry, its client and its session become these, and nothing else changes;
   * with a missing session where it looks at one, nothing does but that the fault is marked.
   */
  lemma TablesAfterClose(cfg: Config, s: System, id: Id, sync: bool)
    requires Sane(cfg, s) && id in s.channelMap
    ensures var n, ch, cl := CloseChannel(s, id, sync), s.channelMap[id], s.clients[id];
      if NullAt(s, id) then n == s.(clients := s.clients[id := cl.(fault := NullSession)])
      else
        var u := if ch.ssSession.Some? then Some(s.upstreams[ch.ssSession.value]) else None;
        && n.clients == s.clients[id := ClientAfter(ch, cl, sync)]
        && n.upstreams == (if u.None? then s.upstreams
                           else s.upstreams[ch.ssSession.value := UpstreamAfter(ch, u.value)])
        && n.channelMap == (if Leaves(ch, cl, sync, u) then s.channelMap - {id}
                            else s.channelMap[id := ch.(status := Closing)])
        && n == s.(clients := n.clients, upstreams := n.upstreams, channelMap := n.channelMap)
  {
    assert HeldIsThere(s, id);
    var ch := s.channelMap[id];
    if ch.ssSession.Some? {
      PairAfterClose(cfg, s, id, ch.ssSession.value, sync);
    } else if !NullAt(s, id) {
      AloneAfterClose(cfg, s, id, sync);
    }
  }

  /** The channel whose `closeChannel` an event of the multiplexer runs. */
  function ClosesChannel(s: System, e: Event): Option<Id>
    requires Possible(s, e)
  {
    match e
    case OnClient(id, CloseCallback(_)) => Some(id)
    case OnClient(id, Timer(_)) => Some(id)
    case OnUpstream(k, UpstreamCloseCallback(_)) => s.upstreams[k].bound
    case _ => None
  }

  function SyncOf(e: CellEvent): bool {
    match e
    case FromClient(CloseCallback(sync)) => sync
    case FromClient(Timer(sync)) => sync
    case FromUpstream(UpstreamCloseCallback(sync)) => sync
    case _ => false
  }

  /** From `s` to `n` channel `id` was closed, and no other channel, client or session asked for anything. */
  ghost predicate ClosedIn(s: System, n: System, id: Id, sync: bool)
    requires id in s.channelMap && id in s.clients && HeldIsThere(s, id)
  {
    var ch, cl := s.channelMap[id], s.clients[id];
    var u := if ch.ssSession.Some? then Some(s.upstreams[ch.ssSession.value]) else None;
    && n.channelMap == (if Leaves(ch, cl, sync, u) then s.channelMap - {id}
                        else s.channelMap[id := ch.(status := Closing)])
    && n.clients.Keys == s.clients.Keys && n.upstreams.Keys == s.upstreams.Keys
    && EndsAsked(cl, n.clients[id], ClientAfter(ch, cl, sync))
    && (forall j | j in s.clients && j != id :: n.clients[j] == s.clients[j])
    && (forall k | k in s.upstreams ::
          n.upstreams[k].relay ==
            if ch.ssSession == Some(k) then UpstreamAfter(ch, s.upstreams[k]).relay else s.upstreams[k].relay)
  }

  predicate EndsAsked(cl: Client, n: Client, asked: Client) {
    && n.closing == asked.closing && n.tcpClosed == asked.tcpClosed
    && n.sent == cl.sent && n.key == cl.key && n.fault == cl.fault
  }

  lemma CloseIsClosed(cfg: Config, s: System, id: Id, sync: bool)
    requires Sane(cfg, s) && id in s.channelMap && HeldIsThere(s, id) && !NullAt(s, id)
    ensures ClosedIn(s, CloseChannel(s, id, sync), id, sync)
  {
    TablesAfterClose(cfg, s, id, sync);
  }

  /** What an event changed before it closes channel `id` plays no part in that. */
  ghost predicate Alike(s: System, s1: System, id: Id)
    requires id in s.clients
  {
    && s1.channelMap == s.channelMap && s1.clients.Keys == s.clients.Keys && s1.upstreams.Keys == s.upstreams.Keys
    && EndsAsked(s.clients[id], s1.clients[id], s.clients[id])
    && (forall j | j in s.clients && j != id :: s1.clients[j] == s.clients[j])
    && (forall k | k in s.upstreams :: s1.upstreams[k].relay == s.upstreams[k].relay)
  }

  lemma AlikeClosed(s: System, s1: System, n: System, id: Id, sync: bool)
    requires id in s.channelMap && id in s.clients && HeldIsThere(s, id) && Alike(s, s1, id)
    requires ClosedIn(s1, n, id, sync)
    ensures ClosedIn(s, n, id, sync)
  {
    var ch := s.channelMap[id];
    forall k | k in s.upstreams
      ensures n.upstreams[k].relay ==
        if ch.ssSession == Some(k) then UpstreamAfter(ch, s.upstreams[k]).relay else s.upstreams[k].relay
    {
      assert s1.upstreams[k].relay == s.upstreams[k].relay;
    }
  }

  lemma ClientClosesChannel(cfg: Config, s: System, id: Id, cl: Client, sync: bool)
    requires Sane(cfg, s) && id in s.channelMap && !NullAt(s, id) && EndsAsked(s.clients[id], cl, s.clients[id])
    ensures HeldIsThere(s, id) && ClosedIn(s, CloseChannel(WithClient(s, id, cl), id, sync), id, sync)
  {
    assert HeldIsThere(s, id);
    var s1 := WithClient(s, id, cl);
    ClientSane(cfg, s, id, cl);
    CloseIsClosed(cfg, s1, id, sync);
    AlikeClosed(s, s1, CloseChannel(s1, id, sync), id, sync);
  }

  lemma UpstreamClosesChannel(cfg: Config, s: System, k: Key, id: Id, sync: bool)
    requires Sane(cfg, s) && k in s.upstreams && id in s.channelMap && !NullAt(s, id)
    ensures HeldIsThere(s, id)
    ensures ClosedIn(s, CloseChannel(WithUpstream(s, k, s.upstreams[k].(notice := Given)), id, sync), id, sync)
  {
    assert HeldIsThere(s, id) && SessionSane(cfg, s, k);
    var s1 := WithUpstream(s, k, s.upstreams[k].(notice := Given));
    UpstreamSane(cfg, s, k, s.upstreams[k].(notice := Given));
    CloseIsClosed(cfg, s1, id, sync);
    AlikeClosed(s, s1, CloseChannel(s1, id, sync), id, sync);
  }

  /**
   * Every event of the multiplexer, of any clients and with any addresses used again, that runs `closeChannel` on a
   * channel that is there and finds the sessions it looks at, closes that channel and touches no other.
   */
  lemma EveryCloseExactly(cfg: Config, s: System, e: Event, id: Id)
    requires Sane(cfg, s) && Possible(s, e) && ClosesChannel(s, e) == Some(id)
    requires id in s.channelMap && !NullAt(s, id)
    ensures HeldIsThere(s, id) && ClosedIn(s, Step(cfg, s, e), id, SyncOf(Local(e)))
  {
    match e {
      case OnClient(_, CloseCallback(sync)) =>
        var cl := s.clients[id];
        ClientClosesChannel(cfg, s, id, cl.(session := cl.session.(status := S.Disconnected), notified := true), sync);
      case OnClient(_, Timer(sync)) =>
        ClientClosesChannel(cfg, s, id, s.clients[id].(timers := s.clients[id].timers - 1), sync);
      case OnUpstream(k, UpstreamCloseCallback(sync)) => UpstreamClosesChannel(cfg, s, k, id, sync);
    }
  }

  // One channel.

  /** The session the channel's entry leads to. */
  function Held(cell: Cell): Option<Upstream> {
    if cell.channel.Some? && cell.channel.value.ssSession.Some? then cell.upstream else None
  }

  lemma CellAfterClose(cell: Cell, sync: bool)
    requires cell.channel.Some? && cell.client.Some? && !ClosesOnNull(cell)
    ensures var ch, cl, n := cell.channel.value, cell.client.value, CellClose(cell, sync);
      && n.client == Some(ClientAfter(ch, cl, sync))
      && (Held(cell).Some? ==> n.upstream == Some(UpstreamAfter(ch, Held(cell).value)))
      && (Held(cell).None? ==> n.upstream == cell.upstream)
      && n.channel == EntryAfter(ch, cl, sync, Held(cell))
  {
  }

  /** From `cell` to `n` the channel was closed. */
  ghost predicate ClosedTo(cell: Cell, n: Cell, sync: bool)
    requires cell.channel.Some? && cell.client.Some?
  {
    var ch, cl := cell.channel.value, cell.client.value;
    && n.channel == EntryAfter(ch, cl, sync, Held(cell))
    && n.client.Some? && n.client.value.sent == cl.sent
    && n.client.value.closing == (cl.closing || AsksClient(ch, cl))
    && n.client.value.tcpClosed == (cl.tcpClosed || (AsksClient(ch, cl) && sync))
    && (cell.upstream.None? ==> n.upstream.None?)
    && (cell.upstream.Some? ==>
          && n.upstream.Some?
          && n.upstream.value.relay ==
               cell.upstream.value.relay.(closing := cell.upstream.value.relay.closing || AsksUpstream(ch, Held(cell))))
  }

  /** A step that closes a channel whose client's record it changed in ways that do not matter here. */
  lemma ClientCloses(cell: Cell, cl: Client, sync: bool)
    requires cell.channel.Some? && cell.client.Some? && !ClosesOnNull(cell)
    requires var was := cell.client.value;
      cl.tcpClosed == was.tcpClosed && cl.closing == was.closing && cl.sent == was.sent
    ensures ClosedTo(cell, CellClose(cell.(client := Some(cl)), sync), sync)
  {
    CellAfterClose(cell.(client := Some(cl)), sync);
  }

  lemma UpstreamCloses(cfg: Config, cell: Cell, sync: bool)
    requires cell.Fits(cfg) && Ready(cell, FromUpstream(UpstreamCloseCallback(sync)))
    requires cell.upstream.value.bound.Some? && cell.channel.Some? && !ClosesOnNull(cell)
    ensures ClosedTo(cell, CellStep(cfg, cell, FromUpstream(UpstreamCloseCallback(sync))), sync)
  {
    CellAfterClose(cell.(upstream := Some(cell.upstream.value.(notice := Given))), sync);
  }

  /** Every step of any client that runs `closeChannel` and finds the sessions it looks at. */
  lemma StepClosesExactly(cfg: Config, cell: Cell, e: CellEvent)
    requires cell.Fits(cfg) && Ready(cell, e) && Closes(cell, e) && cell.channel.Some? && !ClosesOnNull(cell)
    ensures ClosedTo(cell, CellStep(cfg, cell, e), SyncOf(e))
  {
    var cl := cell.client.value;
    match e {
      case FromClient(CloseCallback(sync)) => ClientCloses(cell, CellNotified(cell).client.value, sync);
      case FromClient(Timer(sync)) => ClientCloses(cell, cl.(timers := cl.timers - 1), sync);
      case FromUpstream(UpstreamCloseCallback(sync)) => UpstreamCloses(cfg, cell, sync);
    }
  }

  /**
   * So for any client: a channel that was not closing leaves its client asked to close, unless it is closed
   * already, and an established one its session too; a channel that was closing asks nobody again.
   */
  lemma BothEndsAreAsked(cfg: Config, cell: Cell, e: CellEvent)
    requires cell.Fits(cfg) && Once(cell) && Ready(cell, e) && Closes(cell, e)
    requires cell.channel.Some? && !ClosesOnNull(cell)
    ensures var n, status := CellStep(cfg, cell, e), cell.channel.value.status;
      && n.client.Some? && (cell.upstream.Some? ==> n.upstream.Some?)
      && (status in {Inited, WaitingSession, Established} ==>
            n.client.value.closing || cell.client.value.tcpClosed)
      && (status == Established ==>
            n.upstream.Some? && (n.upstream.value.relay.closing || n.upstream.value.relay.IsClosed()))
      && (status in {Closing, Closed} ==>
            && n.client.value.closing == cell.client.value.closing
            && n.client.value.tcpClosed == cell.client.value.tcpClosed
            && (cell.upstream.Some? ==> n.upstream.value.relay == cell.upstream.value.relay))
      && (n.channel.Some? ==> n.channel.value.status == Closing)
  {
    StepClosesExactly(cfg, cell, e);
  }
}
