/** What a client session makes of a whole conversation, however it is cut into reads, and what it loses. */
module Handshakes {
  import opened Bytes
  import opened Socks5
  import opened Socks5Sessions

  // Octets that no callback is given.

  /**
   * The octets a read discards: what stood behind a decoded message in the buffer that is then cleared. What a
   * garbled request hands over is not defined, so all of it counts.
   */
  function Dropped(e: Event): (d: seq<byte>)
    ensures |d| <= |e.Octets()|
  {
    match e
    case Negotiate(b, _) => (match ParseMethods(b) case Parsed(_, rest) => rest case _ => [])
    case Ask(b, _) => (match ParseRequest(b) case Parsed(_, rest) => rest case _ => [])
    case Garbled(b) => b
    case Ignored(c) => c
    case _ => []
  }

  /** How many octets what a read's callback is given takes: the encoding of a message, or data. */
  function Size(e: Event): nat {
    match e
    case Negotiate(_, methods) => 2 + |methods|
    case Ask(_, request) => 3 + |request.address.Bytes()|
    case Data(c) => |c|
    case _ => 0
  }

  /** The octets that make up what a read's callback is given. */
  function Given(e: Event): seq<byte> {
    if Size(e) <= |e.Octets()| then e.Octets()[..Size(e)] else e.Octets()
  }

  /** What a callback is given and what the read discards are all that the session parts with. */
  lemma DroppedIsLast(e: Event)
    requires e.Honest()
    ensures e.Octets() == Given(e) + Dropped(e)
  {
    match e {
      case Negotiate(b, methods) => assert b[2..] == methods + Dropped(e);
      case Ask(b, request) =>
        ParsedIsPrefix(b);
        assert b[3..][|request.address.Bytes()|..] == Dropped(e);
      case _ =>
    }
    Split(e.Octets(), Given(e), Dropped(e));
  }

  lemma Split(s: seq<byte>, g: seq<byte>, d: seq<byte>)
    requires g <= s && s[|g|..] == d
    ensures s == g + d
  {
  }

  /** What a callback is given for a decoded message is that message's own encoding. */
  lemma MessageIsGiven(e: Event)
    requires e.Honest()
    ensures e.Negotiate? ==> |Given(e)| == 2 + |e.methods| && Given(e)[2..] == e.methods
    ensures e.Ask? ==> |Given(e)| == 3 + |e.request.address.Bytes()| && Given(e)[3..] == e.request.address.Bytes()
  {
    match e {
      case Negotiate(b, methods) =>
        assert Given(e)[2..] == b[2..][..|methods|];
      case Ask(b, request) =>
        ParsedIsPrefix(b);
        assert Given(e)[3..] == b[3..][..|request.address.Bytes()|];
      case _ =>
    }
  }

  function AllGiven(events: seq<Event>): seq<byte> {
    if events == [] then [] else Given(events[0]) + AllGiven(events[1..])
  }

  function CountDropped(events: seq<Event>): nat {
    if events == [] then 0 else |Dropped(events[0])| + CountDropped(events[1..])
  }

  lemma Sizes(e: Event)
    requires e.Honest()
    ensures |e.Octets()| == |Given(e)| + |Dropped(e)| && (|Dropped(e)| == 0 ==> Given(e) == e.Octets())
  {
    DroppedIsLast(e);
  }

  lemma {:induction false} DroppedCounts(events: seq<Event>)
    requires forall i | 0 <= i < |events| :: events[i].Honest()
    ensures |Octets(events)| == |AllGiven(events)| + CountDropped(events)
  {
    if events != [] {
      Sizes(events[0]);
      DroppedCounts(events[1..]);
    }
  }

  lemma {:induction false} AllIsGiven(events: seq<Event>)
    requires (forall i | 0 <= i < |events| :: events[i].Honest()) && CountDropped(events) == 0
    ensures AllGiven(events) == Octets(events)
  {
    if events != [] {
      Sizes(events[0]);
      AllIsGiven(events[1..]);
    }
  }

  /**
   * The buffer a read leaves the decoder with is a whole greeting and more; or it is long enough to be taken for a
   * request, and its address type and name length say it is not just a whole one.
   */
  predicate Overshoots(s: Session, chunk: seq<byte>) {
    var b := s.buffer + chunk;
    match s.status
    case Inited | Negotiating => |b| > 2 && 0 <= Signed(b[1]) < |b| - 2
    case Negotiated | Requesting => |b| > 7 && !WholeLength(b)
    case Requested => false
    case Disconnected => chunk != []
  }

  /** The decoder takes all of these octets for a request, or waits for the rest of a host name. */
  predicate WholeLength(b: seq<byte>)
    requires |b| > 7
  {
    var atyp, len := Signed(b[3]), Signed(b[4]);
    if atyp == IPV4 then |b| == 10
    else if atyp == IPV6 then |b| == 22
    else if atyp == HOST_NAME then len < -2 || |b| <= 7 + len
    else false
  }

  predicate NoneOvershoots(s: Session, chunks: seq<seq<byte>>)
    decreases |chunks|
  {
    chunks == [] || (!Overshoots(s, chunks[0]) && NoneOvershoots(OnRead(s, chunks[0]).0, chunks[1..]))
  }

  lemma DropsExactly(s: Session, chunk: seq<byte>)
    ensures Dropped(OnRead(s, chunk).1) != [] <==> Overshoots(s, chunk)
  {
  }

  lemma {:induction false} CountsOvershoots(s: Session, chunks: seq<seq<byte>>)
    ensures CountDropped(Feed(s, chunks).1) == 0 <==> NoneOvershoots(s, chunks)
    decreases |chunks|
  {
    if chunks != [] {
      var (next, event) := OnRead(s, chunks[0]);
      var events := Feed(next, chunks[1..]).1;
      DropsExactly(s, chunks[0]);
      CountsOvershoots(next, chunks[1..]);
      assert ([event] + events)[1..] == events;
    }
  }

  /**
   * What is lost: the messages and data the callbacks are given, followed by what is still buffered, are all that
   * was received exactly when each read that completes a greeting ends with it, and each that leaves more than
   * seven octets of a request ends with it, or inside the host name it has.
   */
  lemma NothingLostExactly(s: Session, chunks: seq<seq<byte>>)
    requires s.status == Requested ==> s.buffer == []
    requires s.status != Disconnected
    ensures var (last, events) := Feed(s, chunks);
      AllGiven(events) + last.buffer == s.buffer + Flatten(chunks) <==> NoneOvershoots(s, chunks)
  {
    var (last, events) := Feed(s, chunks);
    ByteAccounting(s, chunks);
    EventsInOrder(s, chunks);
    DroppedCounts(events);
    CountsOvershoots(s, chunks);
    if CountDropped(events) == 0 {
      AllIsGiven(events);
    }
    assert |Octets(events) + last.buffer| == |AllGiven(events) + last.buffer| + CountDropped(events);
  }

  // A whole conversation.

  /** Some number of whole chunks hold exactly `n` octets. */
  predicate CutAt(chunks: seq<seq<byte>>, n: int)
    decreases |chunks|
  {
    n == 0 || (chunks != [] && CutAt(chunks[1..], n - |chunks[0]|))
  }

  lemma {:induction false} CutAtMeans(chunks: seq<seq<byte>>, n: int)
    ensures CutAt(chunks, n) <==> exists i | 0 <= i <= |chunks| :: |Flatten(chunks[..i])| == n
    decreases |chunks|
  {
    assert |Flatten(chunks[..0])| == 0;
    if chunks != [] {
      var tail, m := chunks[1..], n - |chunks[0]|;
      CutAtMeans(tail, m);
      forall i | 0 <= i <= |tail| ensures |Flatten(chunks[..i + 1])| == |chunks[0]| + |Flatten(tail[..i])| {
        assert chunks[..i + 1][1..] == tail[..i];
      }
      if i :| 0 <= i <= |tail| && |Flatten(tail[..i])| == m {
        assert |Flatten(chunks[..i + 1])| == n;
      }
      if i :| 0 < i <= |chunks| && |Flatten(chunks[..i])| == n {
        assert |Flatten(chunks[..i - 1 + 1])| == |chunks[0]| + |Flatten(tail[..i - 1])|;
      }
    }
  }

  lemma {:induction false} CutInside(chunks: seq<seq<byte>>, n: int)
    requires CutAt(chunks, n)
    ensures 0 <= n <= |Flatten(chunks)|
    decreases |chunks|
  {
    if n != 0 {
      CutInside(chunks[1..], n - |chunks[0]|);
    }
  }

  /** What the owner of a session is told of the handshake: decoded values, or a decoding past the buffer. */
  datatype Report = Greeted(methods: seq<byte>) | Asked(request: Request) | Overran

  function Reports(events: seq<Event>): seq<Report> {
    if events == [] then [] else
      (match events[0]
       case Negotiate(_, methods) => [Greeted(methods)]
       case Ask(_, request) => [Asked(request)]
       case Garbled(_) => [Overran]
       case _ => [])
      + Reports(events[1..])
  }

  /** The data passed on. */
  function Forwarded(events: seq<Event>): seq<byte> {
    if events == [] then [] else (if events[0].Data? then events[0].chunk else []) + Forwarded(events[1..])
  }

  lemma FirstEvent(s: Session, chunks: seq<seq<byte>>)
    requires chunks != []
    ensures var (next, event) := OnRead(s, chunks[0]);
      var (last, events) := Feed(next, chunks[1..]);
      && Feed(s, chunks) == (last, [event] + events)
      && Reports([event] + events) == Reports([event]) + Reports(events)
      && Forwarded([event] + events) == (if event.Data? then event.chunk else []) + Forwarded(events)
  {
    var (next, event) := OnRead(s, chunks[0]);
    var events := Feed(next, chunks[1..]).1;
    assert ([event] + events)[1..] == events && [event][1..] == [];
    assert Reports([event][1..]) == [];
  }

  /** Once a request was reported, every octet is data. */
  lemma {:induction false} AfterRequest(chunks: seq<seq<byte>>)
    ensures var (last, events) := Feed(Session(Requested, []), chunks);
      last == Session(Requested, []) && Reports(events) == [] && Forwarded(events) == Flatten(chunks)
    decreases |chunks|
  {
    if chunks != [] {
      FirstEvent(Session(Requested, []), chunks);
      AfterRequest(chunks[1..]);
      assert Reports([Data(chunks[0])]) == [] + Reports([Data(chunks[0])][1..]);
    }
  }

  lemma GreetingExtends(g: seq<byte>, x: seq<byte>)
    requires ParseMethods(g).Parsed? && ParseMethods(g).rest == []
    ensures ParseMethods(g + x) == Parsed(ParseMethods(g).value, x)
  {
    var m := ParseMethods(g).value;
    assert g[2..] == m + [] == m;
    assert (g + x)[2..] == m + x;
    assert (m + x)[..|m|] == m && (m + x)[|m|..] == x;
  }

  lemma RequestExtends(r: seq<byte>, x: seq<byte>)
    requires ParseRequest(r).Parsed? && ParseRequest(r).rest == []
    ensures ParseRequest(r + x) == Parsed(ParseRequest(r).value, x)
  {
    var a, body := ParseRequest(r).value.address, r[4..];
    assert (r + x)[4..] == body + x;
    match a {
      case IPv4(_, _) => SocketExtends(body, 4, x);
      case IPv6(_, _) => SocketExtends(body, 16, x);
      case HostName(_, _) => HostExtends(body, x);
      case Unknown(_) =>
    }
  }

  lemma SocketExtends(body: seq<byte>, n: nat, x: seq<byte>)
    requires |body| == n + 2
    ensures (body + x)[..n] == body[..n] && (body + x)[n..n + 2] == body[n..n + 2] && (body + x)[n + 2..] == x
  {
  }

  lemma HostExtends(body: seq<byte>, x: seq<byte>)
    requires body != [] && Signed(body[0]) >= 0 && |body[1..]| == Signed(body[0]) + 2
    ensures var n := Signed(body[0]);
      && (body + x)[0] == body[0] && |(body + x)[1..]| == n + 2 + |x|
      && (body + x)[1..][..n] == body[1..][..n]
      && (body + x)[1..][n..n + 2] == body[1..][n..n + 2] && (body + x)[1..][n + 2..] == x
  {
    assert (body + x)[1..] == body[1..] + x;
    SocketExtends(body[1..], Signed(body[0]), x);
  }

  predicate Understood(s: Session, chunks: seq<seq<byte>>, reports: seq<Report>, data: seq<byte>) {
    var events := Feed(s, chunks).1;
    Reports(events) == reports && Forwarded(events) == data
  }

  /** No read ends strictly between two places. */
  predicate NoCut(chunks: seq<seq<byte>>, lo: int, hi: int) {
    forall n | lo < n < hi :: !CutAt(chunks, n)
  }

  /** A read ends with the request, and none in it after its seventh octet unless it names a host. */
  predicate RequestCuts(chunks: seq<seq<byte>>, buffered: int, r: seq<byte>)
    requires ParseRequest(r).Parsed?
  {
    && CutAt(chunks, |r| - buffered)
    && (ParseRequest(r).value.address.HostName? || NoCut(chunks, 7 - buffered, |r| - buffered))
  }

  predicate Whole(r: seq<byte>) {
    ParseRequest(r).Parsed? && ParseRequest(r).rest == []
  }

  lemma NoCutStep(chunks: seq<seq<byte>>, lo: int, hi: int)
    requires chunks != [] && lo >= 0
    ensures var c := |chunks[0]|; NoCut(chunks, lo, hi) <==> NoCut(chunks[1..], lo - c, hi - c)
  {
    var c, tail := |chunks[0]|, chunks[1..];
    if NoCut(chunks, lo, hi) {
      forall n | lo - c < n < hi - c ensures !CutAt(tail, n) {
        assert !CutAt(chunks, n + c);
      }
    }
    if NoCut(tail, lo - c, hi - c) {
      forall n | lo < n < hi ensures !CutAt(chunks, n) {
        assert !CutAt(tail, n - c);
      }
    }
  }

  /** A read that leaves the buffer short of the request. */
  lemma CutsStep(chunks: seq<seq<byte>>, buffered: nat, r: seq<byte>)
    requires ParseRequest(r).Parsed? && chunks != [] && buffered + |chunks[0]| < |r|
    requires ParseRequest(r).value.address.HostName? || buffered <= 7
    ensures var next := buffered + |chunks[0]|;
      RequestCuts(chunks, buffered, r) <==>
        (ParseRequest(r).value.address.HostName? || next <= 7) && RequestCuts(chunks[1..], next, r)
  {
    var next := buffered + |chunks[0]|;
    assert CutAt(chunks[1..], 0);
    if buffered <= 7 {
      NoCutStep(chunks, 7 - buffered, |r| - buffered);
    }
  }

  lemma NoNegativeCut(chunks: seq<seq<byte>>, lo: int)
    ensures NoCut(chunks, lo, 0)
  {
    forall n | lo < n < 0 ensures !CutAt(chunks, n) {
      if CutAt(chunks, n) {
        CutInside(chunks, n);
      }
    }
  }

  /** A read that reaches or passes the end of the request. */
  lemma CutsEnd(chunks: seq<seq<byte>>, buffered: nat, r: seq<byte>)
    requires ParseRequest(r).Parsed? && chunks != [] && buffered < |r| <= buffered + |chunks[0]|
    requires ParseRequest(r).value.address.HostName? || buffered <= 7
    ensures RequestCuts(chunks, buffered, r) <==> buffered + |chunks[0]| == |r|
  {
    var next := buffered + |chunks[0]|;
    NoNegativeCut(chunks[1..], 7 - next);
    NoNegativeCut(chunks[1..], |r| - next - 1);
    assert CutAt(chunks, |r| - buffered) <==> CutAt(chunks[1..], |r| - next);
    assert |r| < next ==> !CutAt(chunks[1..], |r| - next);
    assert NoCut(chunks[1..], 7 - next, |r| - next);
    if buffered <= 7 {
      NoCutStep(chunks, 7 - buffered, |r| - buffered);
    }
  }

  lemma {:induction false} RequestPhase(s: Session, chunks: seq<seq<byte>>, r: seq<byte>, data: seq<byte>)
    requires s.status == Negotiated || s.status == Requesting
    requires Whole(r) && |s.buffer| < |r| && s.buffer + Flatten(chunks) == r + data
    requires ParseRequest(r).value.address.HostName? || |s.buffer| <= 7
    ensures Understood(s, chunks, [Asked(ParseRequest(r).value)], data) <==> RequestCuts(chunks, |s.buffer|, r)
    decreases |chunks|
  {
    assert chunks != [];
    var next, q := s.buffer + chunks[0], ParseRequest(r).value;
    ConcatAssociates(s.buffer, chunks[0], Flatten(chunks[1..]));
    if |next| >= |r| {
      RequestEnds(s, chunks, r, data);
    } else {
      FirstEvent(s, chunks);
      CutsStep(chunks, |s.buffer|, r);
      assert next == (r + data)[..|next|] == r[..|next|];
      RequestPrefix(r, next);
      var event := OnRead(s, chunks[0]).1;
      OneReport(event);
      if |next| <= 7 || q.address.HostName? {
        assert event == Quiet;
        RequestPhase(Session(Requesting, next), chunks[1..], r, data);
      } else {
        assert event == Garbled(next);
        assert Reports(Feed(s, chunks).1)[0] == Overran;
      }
    }
  }

  /** The read that completes a request discards what it brings after it. */
  lemma RequestEnds(s: Session, chunks: seq<seq<byte>>, r: seq<byte>, data: seq<byte>)
    requires s.status == Negotiated || s.status == Requesting
    requires Whole(r) && |s.buffer| < |r| && s.buffer + Flatten(chunks) == r + data
    requires ParseRequest(r).value.address.HostName? || |s.buffer| <= 7
    requires chunks != [] && |s.buffer + chunks[0]| >= |r|
    ensures Understood(s, chunks, [Asked(ParseRequest(r).value)], data) <==> RequestCuts(chunks, |s.buffer|, r)
  {
    var tail, next := chunks[1..], s.buffer + chunks[0];
    ConcatAssociates(s.buffer, chunks[0], Flatten(tail));
    var x := next[|r|..];
    Overlap(next, Flatten(tail), r, data);
    RequestExtends(r, x);
    RequestReported(s, chunks, ParseRequest(r).value);
    CutsEnd(chunks, |s.buffer|, r);
  }

  lemma RequestReported(s: Session, chunks: seq<seq<byte>>, request: Request)
    requires chunks != [] && OnRead(s, chunks[0]) == (Session(Requested, []), Ask(s.buffer + chunks[0], request))
    ensures var events := Feed(s, chunks).1;
      Reports(events) == [Asked(request)] && Forwarded(events) == Flatten(chunks[1..])
  {
    FirstEvent(s, chunks);
    AfterRequest(chunks[1..]);
    OneReport(Ask(s.buffer + chunks[0], request));
  }

  lemma OneReport(e: Event)
    ensures e.Ask? ==> Reports([e]) == [Asked(e.request)]
    ensures e.Negotiate? ==> Reports([e]) == [Greeted(e.methods)]
    ensures e.Garbled? ==> Reports([e]) == [Overran]
    ensures e.Quiet? || e.Data? || e.Ignored? ==> Reports([e]) == []
  {
    assert [e][1..] == [] && Reports([e][1..]) == [];
  }

  /** A decoded request took at least its own encoding, and data its own octets. */
  lemma {:induction false} ReportsWeigh(events: seq<Event>, request: Request)
    requires forall i | 0 <= i < |events| :: events[i].Honest()
    ensures Reports(events) == [] ==> |Octets(events)| >= |Forwarded(events)|
    ensures Reports(events) == [Asked(request)] ==>
      |Octets(events)| >= 3 + |request.address.Bytes()| + |Forwarded(events)|
  {
    if events != [] {
      var e, tail := events[0], events[1..];
      ReportsWeigh(tail, request);
      OneReport(e);
      MessageIsGiven(e);
      DroppedIsLast(e);
      assert Reports(events) == Reports([e]) + Reports(tail) by {
        assert [e][1..] == [] && Reports([e][1..]) == [];
      }
      if Reports(events) == [Asked(request)] && Reports([e]) != [] {
        assert Reports([e])[0] == Asked(request) && |Reports(tail)| == 0;
      }
    }
  }

  /** A read past the greeting's end loses too much for the request to be understood. */
  lemma PipelinedIsLost(chunks: seq<seq<byte>>, r: seq<byte>, data: seq<byte>)
    requires Whole(r) && |Flatten(chunks)| < |r| + |data|
    ensures !Understood(Session(Negotiated, []), chunks, [Asked(ParseRequest(r).value)], data)
  {
    var s, q := Session(Negotiated, []), ParseRequest(r).value;
    var (last, events) := Feed(s, chunks);
    EventsInOrder(s, chunks);
    ByteAccounting(s, chunks);
    ReportsWeigh(events, q);
    ParsedIsPrefix(r);
    assert |r| == 3 + |q.address.Bytes()|;
  }

  lemma CutsSkip(chunks: seq<seq<byte>>, buffered: int, r: seq<byte>)
    requires ParseRequest(r).Parsed? && chunks != [] && buffered < |r| && buffered <= 7
    ensures RequestCuts(chunks, buffered, r) <==> RequestCuts(chunks[1..], buffered + |chunks[0]|, r)
  {
    NoCutStep(chunks, 7 - buffered, |r| - buffered);
  }

  predicate WholeGreeting(g: seq<byte>) {
    ParseMethods(g).Parsed? && ParseMethods(g).rest == []
  }

  /** A read ends with the greeting, and the reads after it cut the request as they may. */
  predicate ConversationCuts(chunks: seq<seq<byte>>, buffered: int, g: seq<byte>, r: seq<byte>)
    requires ParseRequest(r).Parsed?
  {
    CutAt(chunks, |g| - buffered) && RequestCuts(chunks, buffered - |g|, r)
  }

  ghost predicate Talk(s: Session, chunks: seq<seq<byte>>, g: seq<byte>, r: seq<byte>, data: seq<byte>) {
    && (s.status == Inited || s.status == Negotiating)
    && WholeGreeting(g) && Whole(r) && |s.buffer| < |g| && s.buffer + Flatten(chunks) == g + (r + data)
  }

  lemma {:induction false} GreetingPhase(s: Session, chunks: seq<seq<byte>>, g: seq<byte>, r: seq<byte>,
                                         data: seq<byte>)
    requires Talk(s, chunks, g, r, data)
    ensures Understood(s, chunks, [Greeted(ParseMethods(g).value), Asked(ParseRequest(r).value)], data)
       <==> ConversationCuts(chunks, |s.buffer|, g, r)
    decreases |chunks|
  {
    assert chunks != [];
    var next := s.buffer + chunks[0];
    if |next| >= |g| {
      GreetingEnds(s, chunks, g, r, data);
    } else {
      ConcatAssociates(s.buffer, chunks[0], Flatten(chunks[1..]));
      assert next == (g + (r + data))[..|next|] == g[..|next|];
      GreetingPrefix(g, next);
      QuietRead(s, chunks, [Greeted(ParseMethods(g).value), Asked(ParseRequest(r).value)], data);
      CutsSkip(chunks, |s.buffer| - |g|, r);
      GreetingPhase(Session(Negotiating, next), chunks[1..], g, r, data);
    }
  }

  lemma QuietRead(s: Session, chunks: seq<seq<byte>>, reports: seq<Report>, data: seq<byte>)
    requires chunks != [] && OnRead(s, chunks[0]).1 == Quiet
    ensures Understood(s, chunks, reports, data) == Understood(OnRead(s, chunks[0]).0, chunks[1..], reports, data)
  {
    FirstEvent(s, chunks);
    OneReport(Quiet);
  }

  lemma GreetingPrefix(g: seq<byte>, part: seq<byte>)
    requires WholeGreeting(g) && part < g
    ensures ParseMethods(part) == Incomplete
  {
  }

  lemma GreetingEnds(s: Session, chunks: seq<seq<byte>>, g: seq<byte>, r: seq<byte>, data: seq<byte>)
    requires Talk(s, chunks, g, r, data) && chunks != [] && |s.buffer + chunks[0]| >= |g|
    ensures Understood(s, chunks, [Greeted(ParseMethods(g).value), Asked(ParseRequest(r).value)], data)
       <==> ConversationCuts(chunks, |s.buffer|, g, r)
  {
    var tail, next := chunks[1..], s.buffer + chunks[0];
    var x := next[|g|..];
    ConcatAssociates(s.buffer, chunks[0], Flatten(tail));
    Overlap(next, Flatten(tail), g, r + data);
    GreetingExtends(g, x);
    FirstEvent(s, chunks);
    OneReport(Negotiate(next, ParseMethods(g).value));
    CutsSkip(chunks, |s.buffer| - |g|, r);
    SecondReport(chunks, s, g, r, data);
    assert CutAt(chunks, |g| - |s.buffer|) == CutAt(tail, |g| - |next|);
    if x == [] {
      assert |next| == |g| && [] + Flatten(tail) == r + data;
      RequestPhase(Session(Negotiated, []), tail, r, data);
    } else {
      NoNegativeCut(tail, |g| - |next| - 1);
      assert !CutAt(tail, |g| - |next|);
      PipelinedIsLost(tail, r, data);
    }
  }

  lemma Overlap(next: seq<byte>, rest: seq<byte>, g: seq<byte>, more: seq<byte>)
    requires next + rest == g + more && |next| >= |g|
    ensures next == g + next[|g|..] && more == next[|g|..] + rest
  {
    assert next == (g + more)[..|next|];
    assert more == (g + more)[|g|..] == (next + rest)[|g|..];
  }

  lemma SecondReport(chunks: seq<seq<byte>>, s: Session, g: seq<byte>, r: seq<byte>, data: seq<byte>)
    requires chunks != [] && ParseRequest(r).Parsed? && ParseMethods(g).Parsed?
    requires OnRead(s, chunks[0]) == (Session(Negotiated, []), Negotiate(s.buffer + chunks[0], ParseMethods(g).value))
    ensures var q := Asked(ParseRequest(r).value);
      Understood(s, chunks, [Greeted(ParseMethods(g).value), q], data)
        == Understood(Session(Negotiated, []), chunks[1..], [q], data)
  {
    var m, q := Greeted(ParseMethods(g).value), Asked(ParseRequest(r).value);
    var events := Feed(Session(Negotiated, []), chunks[1..]).1;
    FirstEvent(s, chunks);
    OneReport(Negotiate(s.buffer + chunks[0], ParseMethods(g).value));
    assert Reports(Feed(s, chunks).1) == [m] + Reports(events);
    assert [m, q] == [m] + [q];
    assert [m] + Reports(events) == [m] + [q] ==> Reports(events) == [q] by {
      assert ([m] + Reports(events))[1..] == Reports(events) && ([m] + [q])[1..] == [q];
    }
  }

  /**
   * Chunking independence of a whole conversation: a greeting, a request and any data, cut into any reads at
   * all, are reported once each with the values of the undivided messages and the data passed on in full, exactly
   * when a read ends with the greeting and another with the request, and none ends inside the request after its
   * seventh octet, unless the request names a host.
   */
  lemma ConversationExactly(chunks: seq<seq<byte>>, g: seq<byte>, r: seq<byte>, data: seq<byte>)
    requires WholeGreeting(g) && Whole(r) && Flatten(chunks) == g + (r + data)
    ensures Understood(FRESH, chunks, [Greeted(ParseMethods(g).value), Asked(ParseRequest(r).value)], data) <==>
      && CutAt(chunks, |g|) && CutAt(chunks, |g| + |r|)
      && (ParseRequest(r).value.address.HostName? || NoCut(chunks, |g| + 7, |g| + |r|))
  {
    assert [] + Flatten(chunks) == g + (r + data);
    GreetingPhase(FRESH, chunks, g, r, data);
  }
}
