/** In one channel, a request is completed at most once and found pending then, whatever its client does. */
module Completion {
  import opened Bytes
  import opened Channels
  import opened ChannelGuarantees
  import S = Socks5Sessions
  import R = RelaySessions

  /**
   * Where the upstream session of a request can stand while the request is pending, and after. The client's table
   * lets go of it only when it is told of the close of a connection that was made.
   */
  predicate Stage(u: Upstream, pending: bool, listed: bool) {
    && (pending <==> u.bound.None?)
    && (u.notice.NotYet? <==> !u.relay.IsClosed())
    && (listed <==> !(u.notice.Given? && u.relay.hasTcp))
    && match u.relay.state
       case Connecting => pending && u.relay.unacked == 0 && !u.relay.hasTcp
       case Authorizing => u.relay.hasTcp && u.relay.unacked == if pending then 1 else 0
       case Authorized => !pending && u.relay.hasTcp
       case Disconnected => true
       case _ => false
  }

  /** A client asks once, and its request is pending just as long as its session is not bound to the channel. */
  predicate Once(cell: Cell) {
    && (cell.client.None? ==> cell.upstream.None? && !cell.pending)
    && (cell.upstream.None? ==> !cell.listed)
    && (cell.client.Some? ==> cell.client.value.fault != NoPendingRequest)
    && (cell.upstream.Some? || cell.pending ==> S.Progress(cell.client.value.session.status) >= 2)
    && (cell.upstream.Some? ==> Stage(cell.upstream.value, cell.pending, cell.listed))
    && (cell.channel.Some? && cell.channel.value.ssSession.Some? ==> Bound(cell))
  }

  predicate Bound(cell: Cell) {
    cell.upstream.Some? && cell.upstream.value.bound.Some?
  }

  /** The session keeps its client, and is as bound as it was unless `done`. */
  predicate Keeps(cell: Cell, n: Cell, done: bool) {
    && (cell.client.Some? && cell.upstream.Some? ==>
          n.client.Some? && n.client.value.key == cell.client.value.key && n.upstream.Some?)
    && (Bound(n) <==> Bound(cell) || done)
  }

  lemma CloseOnce(cell: Cell, sync: bool)
    requires Once(cell) && (cell.channel.Some? ==> cell.client.Some?)
    ensures Once(CellClose(cell, sync)) && Keeps(cell, CellClose(cell, sync), false)
  {
  }

  /** A read that reports no request. */
  lemma OtherReadOnce(cfg: Config, cell: Cell, chunk: seq<byte>, newKey: Key, random: seq<byte>)
    requires cell.Fits(cfg) && Once(cell) && Ready(cell, FromClient(Read(chunk, newKey, random)))
    requires !S.OnRead(cell.client.value.session, chunk).1.Ask?
    ensures var n := CellRead(cfg, cell, chunk, newKey, random); Once(n) && Keeps(cell, n, false)
  {
  }

  lemma RequestOnce(cfg: Config, cell: Cell, chunk: seq<byte>, newKey: Key, random: seq<byte>)
    requires cell.Fits(cfg) && Once(cell) && Ready(cell, FromClient(Read(chunk, newKey, random)))
    requires S.OnRead(cell.client.value.session, chunk).1.Ask?
    ensures var n := CellRead(cfg, cell, chunk, newKey, random); Once(n) && Keeps(cell, n, false)
  {
    assert cell.upstream.None? && !cell.pending;
  }

  lemma NotifiedOnce(cfg: Config, cell: Cell, sync: bool)
    requires cell.Fits(cfg) && Once(cell) && Ready(cell, FromClient(CloseCallback(sync)))
    ensures var n := CellClient(cfg, cell, CloseCallback(sync)); Once(n) && Keeps(cell, n, false)
  {
    CloseOnce(CellNotified(cell), sync);
  }

  lemma TimerOnce(cfg: Config, cell: Cell, sync: bool)
    requires cell.Fits(cfg) && Once(cell) && Ready(cell, FromClient(Timer(sync)))
    ensures var n := CellClient(cfg, cell, Timer(sync)); Once(n) && Keeps(cell, n, false)
  {
    var cl := cell.client.value;
    CloseOnce(cell.(client := Some(cl.(timers := cl.timers - 1))), sync);
  }

  lemma ToldOnce(cfg: Config, cell: Cell, sync: bool)
    requires cell.Fits(cfg) && Once(cell) && Ready(cell, FromUpstream(UpstreamCloseCallback(sync)))
    ensures var n := CellUpstream(cfg, cell, UpstreamCloseCallback(sync)); Once(n) && Keeps(cell, n, false)
  {
    var u := cell.upstream.value;
    var told := cell.(upstream := Some(u.(notice := Given)));
    var gone := told.(listed := cell.listed && !u.relay.hasTcp);
    assert Once(gone) && Keeps(cell, gone, false);
    CloseOnce(gone, sync);
    CloseKeepsListed(told, gone.listed, sync);
  }

  /** The client's table plays no part in closing a channel. */
  lemma CloseKeepsListed(cell: Cell, listed: bool, sync: bool)
    requires cell.channel.Some? ==> cell.client.Some?
    ensures CellClose(cell.(listed := listed), sync) == CellClose(cell, sync).(listed := listed)
  {
  }

  lemma ConnectedOnce(cfg: Config, cell: Cell, ok: bool)
    requires cell.Fits(cfg) && Once(cell) && Ready(cell, FromUpstream(Connected(ok)))
    ensures var n := CellUpstream(cfg, cell, Connected(ok)); Once(n) && Keeps(cell, n, !ok)
  {
  }

  lemma WriteDoneOnce(cfg: Config, cell: Cell, ok: bool)
    requires cell.Fits(cfg) && Once(cell) && Ready(cell, FromUpstream(WriteDone(ok)))
    ensures var n := CellUpstream(cfg, cell, WriteDone(ok));
      Once(n) && Keeps(cell, n, cell.upstream.value.relay.state == R.Authorizing)
  {
  }

  lemma UpstreamReadOnce(cfg: Config, cell: Cell, chunk: seq<byte>)
    requires cell.Fits(cfg) && Once(cell) && Ready(cell, FromUpstream(UpstreamRead(chunk)))
    ensures var n := CellUpstream(cfg, cell, UpstreamRead(chunk)); Once(n) && Keeps(cell, n, false)
  {
  }

  lemma ClosedOnce(cfg: Config, cell: Cell)
    requires cell.Fits(cfg) && Once(cell) && Ready(cell, FromUpstream(UpstreamClosed))
    ensures var n := CellUpstream(cfg, cell, UpstreamClosed); Once(n) && Keeps(cell, n, false)
  {
  }

  lemma ClientOnce(cfg: Config, cell: Cell, c: ClientEvent)
    requires cell.Fits(cfg) && Once(cell) && Ready(cell, FromClient(c))
    ensures var n := CellClient(cfg, cell, c); Once(n) && Keeps(cell, n, false)
  {
    match c {
      case Read(chunk, newKey, random) =>
        if S.OnRead(cell.client.value.session, chunk).1.Ask? {
          RequestOnce(cfg, cell, chunk, newKey, random);
        } else {
          OtherReadOnce(cfg, cell, chunk, newKey, random);
        }
      case TcpClosed =>
      case CloseCallback(sync) => NotifiedOnce(cfg, cell, sync);
      case Timer(sync) => TimerOnce(cfg, cell, sync);
    }
  }

  lemma UpstreamOnce(cfg: Config, cell: Cell, u: UpstreamEvent)
    requires cell.Fits(cfg) && Once(cell) && Ready(cell, FromUpstream(u))
    ensures var n := CellUpstream(cfg, cell, u); Once(n) && Keeps(cell, n, Completes(cell, FromUpstream(u)))
  {
    match u {
      case Connected(ok) => ConnectedOnce(cfg, cell, ok);
      case WriteDone(ok) => WriteDoneOnce(cfg, cell, ok);
      case UpstreamRead(chunk) => UpstreamReadOnce(cfg, cell, chunk);
      case UpstreamClosed => ClosedOnce(cfg, cell);
      case UpstreamCloseCallback(sync) => ToldOnce(cfg, cell, sync);
    }
  }

  lemma FindsPending(cell: Cell, e: CellEvent)
    requires Once(cell) && Ready(cell, e) && Completes(cell, e)
    ensures cell.pending && cell.listed && !Bound(cell)
  {
  }

  /**
   * One step of one channel, of any client: a completion finds its request pending and its session listed, so
   * the `assert(false)` branch is not reached, and leaves the session bound, where nothing completes it again.
   */
  lemma CompletionFindsRequest(cfg: Config, cell: Cell, e: CellEvent)
    requires cell.Fits(cfg) && Once(cell) && Ready(cell, e)
    ensures var n := CellStep(cfg, cell, e);
      && Once(n) && (!e.Freed? ==> Keeps(cell, n, Completes(cell, e)))
      && (n.client.Some? ==> n.client.value.fault != NoPendingRequest)
      && (Completes(cell, e) ==> cell.pending && cell.listed && !Bound(cell) && !n.pending)
  {
    match e {
      case Accept =>
      case FromClient(c) => ClientOnce(cfg, cell, c);
      case FromUpstream(u) =>
        UpstreamOnce(cfg, cell, u);
        if Completes(cell, e) {
          FindsPending(cell, e);
        }
      case Freed =>
    }
  }
}
