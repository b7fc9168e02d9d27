/** One client connection: a byte stream reassembled into a greeting, a request, and data to relay. */
module Socks5Sessions {
  import opened Bytes
  import opened Socks5

  datatype Status = Inited | Negotiating | Negotiated | Requesting | Requested | Disconnected

  datatype Session = Session(status: Status, buffer: seq<byte>)

  const FRESH := Session(Inited, [])

  /**
   * What one read does: which callback runs, and on which octets. `Garbled` is a request whose decoding ran
   * past the buffer, and which the session reports all the same.
   */
  datatype Event =
    | Quiet
    | Negotiate(buffer: seq<byte>, methods: seq<byte>)
    | Ask(buffer: seq<byte>, request: Request)
    | Garbled(buffer: seq<byte>)
    | Data(chunk: seq<byte>)
    | Ignored(chunk: seq<byte>)
  {
    /** The octets the session parts with. */
    function Octets(): seq<byte> {
      match this
      case Quiet => []
      case Negotiate(b, _) => b
      case Ask(b, _) => b
      case Garbled(b) => b
      case Data(c) => c
      case Ignored(c) => c
    }

    /** Where the event stands in the order greeting, request, data. */
    function Stage(): nat {
      match this
      case Quiet => 0
      case Negotiate(_, _) => 1
      case Ask(_, _) => 2
      case Garbled(_) => 2
      case Data(_) => 3
      case Ignored(_) => 4
    }

    /** The octets of a decoded message start with that message. */
    ghost predicate Honest() {
      match this
      case Negotiate(b, methods) => ParseMethods(b).Parsed? && ParseMethods(b).value == methods
      case Ask(b, request) => ParseRequest(b).Parsed? && ParseRequest(b).value == request
      case Garbled(b) => ParseRequest(b).Overrun?
      case _ => true
    }
  }

  function OnRead(s: Session, chunk: seq<byte>): (Session, Event) {
    match s.status
    case Requested => (s, Data(chunk))
    case Disconnected => (s, Ignored(chunk))
    case Inited | Negotiating =>
      var buffer := s.buffer + chunk;
      (match ParseMethods(buffer)
       case Parsed(methods, _) => (Session(Negotiated, []), Negotiate(buffer, methods))
       case _ => (Session(Negotiating, buffer), Quiet))
    case Negotiated | Requesting =>
      var buffer := s.buffer + chunk;
      match ParseRequest(buffer)
      case Parsed(request, _) => (Session(Requested, []), Ask(buffer, request))
      case Overrun => (Session(Requested, []), Garbled(buffer))
      case Incomplete => (Session(Requesting, buffer), Quiet)
  }

  class Socks5Session {
    var status: Status
    var buffer: seq<byte>

    ghost function Abs(): Session
      reads this
    {
      Session(status, buffer)
    }

    constructor ()
      ensures Abs() == FRESH
    {
      status, buffer := Inited, [];
    }

    /** The read callback; the event says which callback of the session's owner it runs, if any. */
    method OnReadComplete(chunk: seq<byte>) returns (event: Event)
      modifies this
      ensures (Abs(), event) == OnRead(old(Abs()), chunk)
      ensures old(status) == Requested ==> event == Data(chunk) && Abs() == old(Abs())
      ensures old(status) == Disconnected ==> event == Ignored(chunk) && Abs() == old(Abs())
    {
      event := Quiet;
      if status == Requested {
        event := Data(chunk);
      } else if status == Inited || status == Negotiating {
        status := Negotiating;
        buffer := buffer + chunk;
        var p := new Packet(buffer);
        var message := new Socks5MethodSelectionMessage();
        var ok := message.Unpack(p);
        if ok {
          event := Negotiate(buffer, message.methods);
          buffer := [];
          status := Negotiated;
        }
      } else if status == Negotiated || status == Requesting {
        status := Requesting;
        buffer := buffer + chunk;
        var p := new Packet(buffer);
        var request := new Socks5Request.Blank();
        var ok, overrun := request.Unpack(p);
        if ok {
          event := if overrun then Garbled(buffer) else Ask(buffer, request.Value());
          buffer := [];
          status := Requested;
        }
      } else {
        event := Ignored(chunk);
      }
    }

    method OnClose()
      modifies this
      ensures Abs() == old(Abs()).(status := Disconnected)
    {
      status := Disconnected;
    }
  }

  /** A run of reads, and what each of them does. */
  function Feed(s: Session, chunks: seq<seq<byte>>): (r: (Session, seq<Event>))
    ensures |r.1| == |chunks|
    decreases |chunks|
  {
    if chunks == [] then (s, []) else
      var (next, event) := OnRead(s, chunks[0]);
      var (last, events) := Feed(next, chunks[1..]);
      (last, [event] + events)
  }

  lemma {:induction false} FeedAppend(s: Session, a: seq<seq<byte>>, b: seq<seq<byte>>)
    ensures var (mid, first) := Feed(s, a);
      Feed(s, a + b) == (Feed(mid, b).0, first + Feed(mid, b).1)
    decreases |a|
  {
    if a == [] {
      assert a + b == b && [] + Feed(s, b).1 == Feed(s, b).1;
    } else {
      assert (a + b)[1..] == a[1..] + b;
      var (next, event) := OnRead(s, a[0]);
      FeedAppend(next, a[1..], b);
      var (mid, first) := Feed(next, a[1..]);
      assert Feed(s, a) == (mid, [event] + first);
      ConcatAssociates([event], first, Feed(mid, b).1);
    }
  }

  function Octets(events: seq<Event>): seq<byte> {
    if events == [] then [] else events[0].Octets() + Octets(events[1..])
  }

  /** At most one greeting, then at most one request, then only data; `stage` tells how far it already is. */
  predicate InOrder(stage: nat, events: seq<Event>)
    decreases |events|
  {
    events == [] ||
    if events[0].Quiet? then stage < 2 && InOrder(stage, events[1..])
    else events[0].Stage() == stage + 1 && InOrder(if stage < 2 then stage + 1 else 2, events[1..])
  }

  function Progress(status: Status): nat {
    match status
    case Inited | Negotiating => 0
    case Negotiated | Requesting => 1
    case Requested => 2
    case Disconnected => 3
  }

  lemma ReadAccounts(s: Session, chunk: seq<byte>)
    requires s.status == Requested ==> s.buffer == []
    requires s.status != Disconnected
    ensures var (next, event) := OnRead(s, chunk);
      && event.Octets() + next.buffer == s.buffer + chunk
      && event.Honest()
      && next.status != Disconnected && (next.status == Requested ==> next.buffer == [])
  {
    if Progress(s.status) == 0 {
      GreetingReadAccounts(s, chunk);
    } else if Progress(s.status) == 1 {
      RequestReadAccounts(s, chunk);
    } else {
      WithNothing(chunk);
    }
  }

  lemma GreetingReadAccounts(s: Session, chunk: seq<byte>)
    requires Progress(s.status) == 0
    ensures var (next, event) := OnRead(s, chunk);
      && event.Octets() + next.buffer == s.buffer + chunk && event.Honest() && Progress(next.status) <= 1
  {
    WithNothing(s.buffer + chunk);
  }

  lemma RequestReadAccounts(s: Session, chunk: seq<byte>)
    requires Progress(s.status) == 1
    ensures var (next, event) := OnRead(s, chunk);
      && event.Octets() + next.buffer == s.buffer + chunk && event.Honest()
      && next.status != Disconnected && (next.status == Requested ==> next.buffer == [])
  {
    WithNothing(s.buffer + chunk);
  }

  lemma WithNothing(octets: seq<byte>)
    ensures [] + octets == octets == octets + []
  {
  }

  /**
   * No octet is repeated, moved or skipped: what was consumed, in order, followed by what is still buffered, is
   * all that was received. A consumed buffer is cleared with whatever stood behind its message, which no callback
   * sees; `Handshakes` says when that loses anything.
   */
  lemma {:induction false} ByteAccounting(s: Session, chunks: seq<seq<byte>>)
    requires s.status == Requested ==> s.buffer == []
    requires s.status != Disconnected
    ensures var (last, events) := Feed(s, chunks);
      Octets(events) + last.buffer == s.buffer + Flatten(chunks)
    decreases |chunks|
  {
    if chunks == [] {
      assert s.buffer + [] == [] + s.buffer;
    } else {
      var (next, event) := OnRead(s, chunks[0]);
      ReadAccounts(s, chunks[0]);
      ByteAccounting(next, chunks[1..]);
      var (last, events) := Feed(next, chunks[1..]);
      var flat := Flatten(chunks[1..]);
      OctetsOf(event, events);
      calc {
        Octets([event] + events) + last.buffer;
        { ConcatAssociates(event.Octets(), Octets(events), last.buffer); }
        event.Octets() + (next.buffer + flat);
        { ConcatAssociates(event.Octets(), next.buffer, flat); }
        s.buffer + chunks[0] + flat;
        { ConcatAssociates(s.buffer, chunks[0], flat); }
        s.buffer + (chunks[0] + flat);
      }
    }
  }

  lemma OctetsOf(event: Event, events: seq<Event>)
    ensures Octets([event] + events) == event.Octets() + Octets(events)
  {
    assert ([event] + events)[1..] == events;
  }

  /**
   * At most one greeting is reported, then at most one request, then only data, and each decoded message
   * stands at the front of the octets taken for it.
   */
  lemma {:induction false} EventsInOrder(s: Session, chunks: seq<seq<byte>>)
    requires s.status == Requested ==> s.buffer == []
    requires s.status != Disconnected
    ensures var events := Feed(s, chunks).1;
      InOrder(Progress(s.status), events) && forall i | 0 <= i < |events| :: events[i].Honest()
    decreases |chunks|
  {
    if chunks != [] {
      var (next, event) := OnRead(s, chunks[0]);
      ReadAccounts(s, chunks[0]);
      EventsInOrder(next, chunks[1..]);
      var events := Feed(next, chunks[1..]).1;
      assert Feed(s, chunks).1 == [event] + events && ([event] + events)[1..] == events;
    }
  }

  function Quiets(n: nat): (q: seq<Event>)
    ensures |q| == n && forall i | 0 <= i < n :: q[i] == Quiet
  {
    if n == 0 then [] else [Quiet] + Quiets(n - 1)
  }

  predicate NoneEmpty(chunks: seq<seq<byte>>) {
    forall i | 0 <= i < |chunks| :: chunks[i] != []
  }

  lemma {:induction false} NoneEmptyFlatten(chunks: seq<seq<byte>>)
    requires NoneEmpty(chunks) && chunks != []
    ensures Flatten(chunks) != []
  {
    assert chunks[0] != [];
  }

  lemma LastRead(s: Session, chunks: seq<seq<byte>>)
    requires |chunks| == 1
    ensures var (next, event) := OnRead(s, chunks[0]);
      Feed(s, chunks) == (next, Quiets(0) + [event]) && Flatten(chunks) == chunks[0]
  {
    assert chunks[1..] == [];
    var (next, event) := OnRead(s, chunks[0]);
    assert Feed(next, chunks[1..]) == (next, []);
    assert [event] + [] == [event] == Quiets(0) + [event];
    assert chunks[0] + [] == chunks[0];
  }

  /** The greeting is complete only with its last octet, however it arrives. */
  lemma {:induction false} GreetingChunks(s: Session, chunks: seq<seq<byte>>)
    requires s.status == Inited || s.status == Negotiating
    requires chunks != [] && NoneEmpty(chunks)
    requires var whole := s.buffer + Flatten(chunks); ParseMethods(whole).Parsed? && ParseMethods(whole).rest == []
    ensures var whole := s.buffer + Flatten(chunks);
      Feed(s, chunks) == (Session(Negotiated, []),
                          Quiets(|chunks| - 1) + [Negotiate(whole, ParseMethods(whole).value)])
    decreases |chunks|
  {
    var whole, tail := s.buffer + Flatten(chunks), chunks[1..];
    var next := s.buffer + chunks[0];
    ConcatAssociates(s.buffer, chunks[0], Flatten(tail));
    if tail == [] {
      LastRead(s, chunks);
    } else {
      NoneEmptyFlatten(tail);
      assert next == whole[..|next|];
      GreetingChunks(Session(Negotiating, next), tail);
      ConcatAssociates([Quiet], Quiets(|tail| - 1), [Negotiate(whole, ParseMethods(whole).value)]);
    }
  }

  /** Every cut inside the request leaves at most seven octets buffered. */
  predicate CutsEarly(buffered: nat, chunks: seq<seq<byte>>) {
    forall i | 0 < i < |chunks| :: buffered + |Flatten(chunks[..i])| <= 7
  }

  lemma CutsEarlyUnfold(buffered: nat, chunks: seq<seq<byte>>)
    requires |chunks| > 1
    ensures CutsEarly(buffered, chunks)
       <==> buffered + |chunks[0]| <= 7 && CutsEarly(buffered + |chunks[0]|, chunks[1..])
  {
    var tail := chunks[1..];
    assert chunks[..1] == [chunks[0]];
    assert Flatten(chunks[..1]) == chunks[0] by {
      assert chunks[..1][1..] == [];
    }
    forall i | 0 < i < |tail|
      ensures Flatten(chunks[..i + 1]) == chunks[0] + Flatten(tail[..i])
    {
      assert chunks[..i + 1][1..] == tail[..i];
    }
    if CutsEarly(buffered + |chunks[0]|, tail) && buffered + |chunks[0]| <= 7 {
      forall i | 0 < i < |chunks|
        ensures buffered + |Flatten(chunks[..i])| <= 7
      {
        if i > 1 {
          assert Flatten(chunks[..i - 1 + 1]) == chunks[0] + Flatten(tail[..i - 1]);
        }
      }
    }
    if CutsEarly(buffered, chunks) {
      forall i | 0 < i < |tail|
        ensures buffered + |chunks[0]| + |Flatten(tail[..i])| <= 7
      {
        assert Flatten(chunks[..i + 1]) == chunks[0] + Flatten(tail[..i]);
      }
    }
  }

  /** A proper beginning of a whole request waits for more, except that eight octets hide a socket address. */
  lemma RequestPrefix(whole: seq<byte>, part: seq<byte>)
    requires ParseRequest(whole).Parsed? && ParseRequest(whole).rest == []
    requires part < whole
    ensures ParseRequest(part) ==
      if |part| <= 7 || ParseRequest(whole).value.address.HostName? then Incomplete else Overrun
  {
    if |part| > 7 {
      assert part[4..] == whole[4..|part|];
      assert forall i | 0 <= i < |part| :: part[i] == whole[i];
    }
  }

  /**
   * However a request is cut into reads, it is reported once, complete, with its last octet: always for a
   * host name, and for a socket address exactly when every cut leaves at most seven octets buffered.
   */
  lemma {:induction false} RequestChunks(s: Session, chunks: seq<seq<byte>>)
    requires s.status == Negotiated || s.status == Requesting
    requires chunks != [] && NoneEmpty(chunks)
    requires var whole := s.buffer + Flatten(chunks); ParseRequest(whole).Parsed? && ParseRequest(whole).rest == []
    ensures var whole := s.buffer + Flatten(chunks);
      var request := ParseRequest(whole).value;
      && (request.address.HostName? || CutsEarly(|s.buffer|, chunks)
          <==> Feed(s, chunks) == (Session(Requested, []), Quiets(|chunks| - 1) + [Ask(whole, request)]))
    decreases |chunks|
  {
    var whole, tail := s.buffer + Flatten(chunks), chunks[1..];
    var next, request := s.buffer + chunks[0], ParseRequest(whole).value;
    ConcatAssociates(s.buffer, chunks[0], Flatten(tail));
    if tail == [] {
      LastRead(s, chunks);
    } else {
      NoneEmptyFlatten(tail);
      RequestPrefix(whole, next);
      CutsEarlyUnfold(|s.buffer|, chunks);
      var (after, event) := OnRead(s, chunks[0]);
      var (last, events) := Feed(after, tail);
      assert Feed(s, chunks) == (last, [event] + events);
      var expected := Quiets(|tail| - 1) + [Ask(whole, request)];
      assert Quiets(|chunks| - 1) + [Ask(whole, request)] == [Quiet] + expected;
      assert [event] + events == [Quiet] + expected <==> event == Quiet && events == expected by {
        assert ([event] + events)[1..] == events && ([Quiet] + expected)[1..] == expected;
      }
      if |next| <= 7 || request.address.HostName? {
        RequestChunks(Session(Requesting, next), tail);
      }
    }
  }

  /**
   * Chunking independence of the handshake when a read ends with the greeting: one greeting and one request are
   * reported, with the values of the undivided messages, exactly when the request names a host or no cut leaves
   * more than seven of its octets buffered. `Handshakes.ConversationExactly` drops the assumption.
   */
  lemma HandshakeChunks(greeting: seq<seq<byte>>, request: seq<seq<byte>>)
    requires greeting != [] && NoneEmpty(greeting) && request != [] && NoneEmpty(request)
    requires ParseMethods(Flatten(greeting)).Parsed? && ParseMethods(Flatten(greeting)).rest == []
    requires ParseRequest(Flatten(request)).Parsed? && ParseRequest(Flatten(request)).rest == []
    ensures var g, r := Flatten(greeting), Flatten(request);
      Feed(FRESH, greeting + request) ==
        (Session(Requested, []),
         (Quiets(|greeting| - 1) + [Negotiate(g, ParseMethods(g).value)])
         + (Quiets(|request| - 1) + [Ask(r, ParseRequest(r).value)]))
      <==> ParseRequest(r).value.address.HostName? || CutsEarly(0, request)
  {
    var g, r := Flatten(greeting), Flatten(request);
    assert [] + g == g && [] + r == r;
    GreetingChunks(FRESH, greeting);
    RequestChunks(Session(Negotiated, []), request);
    FeedAppend(FRESH, greeting, request);
    var first := Quiets(|greeting| - 1) + [Negotiate(g, ParseMethods(g).value)];
    var second := Feed(Session(Negotiated, []), request).1;
    assert (first + second)[|first|..] == second;
    var wanted := Quiets(|request| - 1) + [Ask(r, ParseRequest(r).value)];
    assert (first + wanted)[|first|..] == wanted;
  }
}
