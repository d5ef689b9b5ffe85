/**
 The client WebSocket: a reader that can be interrupted anywhere and resumes, over a socket that
 delivers bytes in pieces of any size, and a writer of masked frames.
 */
module WebSocketClient {
  import opened Frames
  import opened Octets

  const HANDSHAKE_LIMIT: nat := 8192
  const BUFFER_LIMIT: nat := MAX_FRAME + 10

  datatype Chunk = Data(bytes: Bytes) | TimedOut | Lost

  datatype Sending = Sent | Late | Down

  /** How a send goes: its outcome, and how many bytes leave where it does not succeed. */
  datatype Delivery = Delivery(outcome: Sending, part: nat)

  function Leaving(bytes: Bytes, d: Delivery): (r: Bytes)
    ensures r <= bytes
  {
    if d.outcome == Sent || d.part > |bytes| then bytes else bytes[..d.part]
  }

  /**
   One TCP connection. incoming is what the peer has sent, or ever will, and nobody has read. Reads
   of a prompt socket never wait or fail; plan says how the next sends go. Without either, anything
   may happen.
   */
  class Socket {
    const prompt: bool
    var plan: seq<Delivery>
    var incoming: Bytes
    var sent: Bytes

    constructor (incoming: Bytes, prompt: bool, plan: seq<Delivery>)
      ensures this.incoming == incoming && sent == [] && this.prompt == prompt && this.plan == plan
    {
      this.incoming, this.prompt, this.plan := incoming, prompt, plan;
      sent := [];
    }

    /** At most n bytes, at least one unless the peer is done; or no bytes, in time or ever. */
    method Recv(n: nat) returns (c: Chunk)
      modifies this`incoming
      ensures c.Data? ==> |c.bytes| <= n && old(incoming) == c.bytes + incoming
      ensures c.Data? && c.bytes == [] ==> n == 0 || incoming == []
      ensures !c.Data? ==> incoming == old(incoming) && !prompt
    {
      if !prompt {
        if * { return TimedOut; }
        if * { return Lost; }
      }
      var most := if n < |incoming| then n else |incoming|;
      var k: int := *;
      if k > most || k <= 0 { k := most; }
      c := Data(incoming[..k]);
      incoming := incoming[k..];
    }

    /** All of it, or as much as went out before the time was up or the connection broke. */
    method SendAll(bytes: Bytes) returns (r: Sending, ghost went: Bytes)
      modifies this`sent, this`plan
      ensures sent == old(sent) + went && went <= bytes && (r == Sent ==> went == bytes)
      ensures if old(plan) == [] then plan == [] else
              r == old(plan)[0].outcome && went == Leaving(bytes, old(plan)[0]) && plan == old(plan)[1..]
    {
      var d: Delivery := *;
      if plan != [] {
        d := plan[0];
        plan := plan[1..];
      }
      sent := sent + Leaving(bytes, d);
      return d.outcome, Leaving(bytes, d);
    }
  }

  // ---- what was read ----

  /** Why a call ends without a frame. */
  datatype Stop = Deadline | Closed | Broken

  function Pings(events: seq<Event>): nat {
    if events == [] then 0
    else Pings(events[..|events| - 1]) + if events[|events| - 1].Ping? then 1 else 0
  }

  /** What the caller is told of a stream, given how each answer to a ping went. */
  function Told(events: seq<Event>, answers: seq<Sending>): seq<Event>
    requires |answers| == Pings(events)
  {
    if events == [] then []
    else
      var rest, last := events[..|events| - 1], events[|events| - 1];
      if last.Ping? then
        Told(rest, answers[..|answers| - 1]) + if answers[|answers| - 1] == Sent then [last] else []
      else
        Told(rest, answers) + [last]
  }

  /** What was said, pings aside. */
  function Spoken(events: seq<Event>): seq<Event> {
    if events == [] then []
    else Spoken(events[..|events| - 1]) + if events[|events| - 1].Ping? then [] else [events[|events| - 1]]
  }

  lemma ToldMore(events: seq<Event>, answers: seq<Sending>, e: Event, a: Sending)
    requires |answers| == Pings(events)
    ensures Pings(events + [e]) == Pings(events) + if e.Ping? then 1 else 0
    ensures if e.Ping? then Told(events + [e], answers + [a]) == Told(events, answers) + if a == Sent then [e] else []
            else Told(events + [e], answers) == Told(events, answers) + [e]
  {
    assert (events + [e])[..|events|] == events;
    assert (answers + [a])[..|answers|] == answers;
  }

  lemma SpokenMore(events: seq<Event>, e: Event)
    ensures Spoken(events + [e]) == Spoken(events) + if e.Ping? then [] else [e]
  {
    assert (events + [e])[..|events|] == events;
  }

  predicate AllSent(answers: seq<Sending>) {
    forall i :: 0 <= i < |answers| ==> answers[i] == Sent
  }

  lemma {:induction false} ToldShort(events: seq<Event>, answers: seq<Sending>)
    requires |answers| == Pings(events)
    ensures |Told(events, answers)| <= |events|
    ensures |Told(events, answers)| == |events| ==> AllSent(answers)
    decreases |events|
  {
    if events != [] {
      var rest, last := events[..|events| - 1], events[|events| - 1];
      ToldShort(rest, if last.Ping? then answers[..|answers| - 1] else answers);
    }
  }

  lemma {:induction false} ToldWhole(events: seq<Event>, answers: seq<Sending>)
    requires |answers| == Pings(events) && AllSent(answers)
    ensures Told(events, answers) == events
    decreases |events|
  {
    if events != [] {
      var rest, last := events[..|events| - 1], events[|events| - 1];
      ToldWhole(rest, if last.Ping? then answers[..|answers| - 1] else answers);
    }
  }

  /** All is told exactly when every answer was sent; and whatever was not, what was said is told. */
  lemma {:induction false} ToldIff(events: seq<Event>, answers: seq<Sending>)
    requires |answers| == Pings(events)
    ensures Told(events, answers) == events <==> AllSent(answers)
    ensures Spoken(Told(events, answers)) == Spoken(events)
    decreases |events|
  {
    ToldShort(events, answers);
    if AllSent(answers) { ToldWhole(events, answers); }
    if events != [] {
      var rest, last := events[..|events| - 1], events[|events| - 1];
      var before := if last.Ping? then answers[..|answers| - 1] else answers;
      ToldIff(rest, before);
      SpokenMore(Told(rest, before), last);
      assert Told(rest, before) + [] == Told(rest, before);
    }
  }

  // ---- what was written ----

  /** One frame to be sent, how that went, and the bytes that left. */
  datatype Write = Write(opcode: byte, payload: Bytes, mask: Bytes, outcome: Sending, went: Bytes) {
    predicate Fits() {
      opcode < 16 && |payload| <= MAX_FRAME && |mask| == 4
    }

    function Frame(): Bytes
      requires Fits()
    {
      ClientFrame(opcode, payload, mask)
    }

    predicate Made() {
      Fits() && went <= Frame() && (outcome == Sent ==> went == Frame())
    }

    /** A proper part of the frame left. */
    predicate Torn()
      requires Fits()
    {
      0 < |went| < |Frame()|
    }
  }

  ghost predicate AllMade(writes: seq<Write>) {
    forall i :: 0 <= i < |writes| ==> writes[i].Made()
  }

  /** A frame was torn. */
  ghost predicate SomeTorn(writes: seq<Write>)
    requires AllMade(writes)
  {
    exists i :: 0 <= i < |writes| && writes[i].Torn()
  }

  function Wrote(writes: seq<Write>): Bytes {
    if writes == [] then [] else Wrote(writes[..|writes| - 1]) + writes[|writes| - 1].went
  }

  /** The frames that left whole. */
  ghost function Complete(writes: seq<Write>): seq<ClientSaid>
    requires AllMade(writes)
  {
    if writes == [] then []
    else
      var last := writes[|writes| - 1];
      Complete(writes[..|writes| - 1])
      + if last.went == last.Frame() then [ClientSaid(last.opcode, last.payload)] else []
  }

  /** How the answers to pings went. */
  function Answers(writes: seq<Write>): seq<Sending> {
    if writes == [] then []
    else Answers(writes[..|writes| - 1])
         + if writes[|writes| - 1].opcode == PONG then [writes[|writes| - 1].outcome] else []
  }

  lemma OneMoreWrite(writes: seq<Write>, w: Write)
    requires AllMade(writes) && w.Made()
    ensures AllMade(writes + [w]) && Wrote(writes + [w]) == Wrote(writes) + w.went
    ensures Answers(writes + [w]) == Answers(writes) + if w.opcode == PONG then [w.outcome] else []
  {
    assert (writes + [w])[..|writes|] == writes;
  }

  lemma OneWholeFrame(w: Write, s: Bytes)
    requires w.Made() && w.went == w.Frame()
    ensures var r := ServerReadsAll(s);
            ServerReadsAll(w.went + s) == Reading([ClientSaid(w.opcode, w.payload)] + r.frames, r.left)
  {
    ClientFrameRoundTrip(w.opcode, w.payload, w.mask, s);
    hide ServerReads, ClientFrame;
  }

  /** Up to the first torn frame a server reads the frames that left whole. */
  lemma {:induction false} ReadsUpToTear(writes: seq<Write>, s: Bytes)
    requires AllMade(writes) && !SomeTorn(writes)
    ensures var r := ServerReadsAll(s);
            ServerReadsAll(Wrote(writes) + s) == Reading(Complete(writes) + r.frames, r.left)
    decreases |writes|
  {
    hide ServerReadsAll, ClientFrame;
    var r := ServerReadsAll(s);
    if writes == [] {
      assert Wrote(writes) + s == s && Complete(writes) + r.frames == r.frames;
    } else {
      var rest, last := writes[..|writes| - 1], writes[|writes| - 1];
      assert !last.Torn();
      assert !SomeTorn(rest) by { assert forall i :: 0 <= i < |rest| ==> rest[i] == writes[i]; }
      ReadsUpToTear(rest, last.went + s);
      assert Wrote(writes) + s == Wrote(rest) + (last.went + s);
      if last.went == last.Frame() {
        OneWholeFrame(last, s);
        assert Complete(rest) + ([ClientSaid(last.opcode, last.payload)] + r.frames)
            == Complete(writes) + r.frames;
      } else {
        assert last.went + s == s;
        assert Complete(rest) + [] == Complete(rest);
      }
    }
  }

  lemma {:induction false} SizeOfMore(frames: seq<ClientSaid>, f: ClientSaid)
    ensures SizeOf(frames + [f]) == SizeOf(frames) + FrameSize(|f.payload|)
    decreases |frames|
  {
    if frames == [] {
      assert frames + [f] == [f] && [f][1..] == [];
    } else {
      SizeOfMore(frames[1..], f);
      assert (frames + [f])[1..] == frames[1..] + [f];
    }
  }

  /** Torn frames are what was written beyond the whole ones. */
  lemma {:induction false} TornIsExtra(writes: seq<Write>)
    requires AllMade(writes)
    ensures |Wrote(writes)| >= SizeOf(Complete(writes))
    ensures SomeTorn(writes) ==> |Wrote(writes)| > SizeOf(Complete(writes))
    decreases |writes|
  {
    hide ClientFrame, FrameSize;
    if writes != [] {
      var rest, last := writes[..|writes| - 1], writes[|writes| - 1];
      TornIsExtra(rest);
      ClientFrameSize(last.opcode, last.payload, last.mask);
      SizeOfMore(Complete(rest), ClientSaid(last.opcode, last.payload));
      assert Complete(rest) + [] == Complete(rest);
      if SomeTorn(writes) && !last.Torn() {
        var i :| 0 <= i < |writes| && writes[i].Torn();
        assert rest[i].Torn();
      }
    }
  }

  /**
   A server that follows the RFC reads just the frames that left whole, with nothing over, exactly if
   no frame was torn.
   */
  lemma ReadBackIff(writes: seq<Write>)
    requires AllMade(writes)
    ensures ServerReadsAll(Wrote(writes)) == Reading(Complete(writes), []) <==> !SomeTorn(writes)
  {
    assert ServerReadsAll([]) == Reading([], []);
    hide ServerReadsAll, ClientFrame, Complete, Wrote;
    if SomeTorn(writes) {
      TornIsExtra(writes);
      NothingUnread(Wrote(writes));
    } else {
      ReadsUpToTear(writes, []);
      assert Wrote(writes) + [] == Wrote(writes) && Complete(writes) + [] == Complete(writes);
    }
  }

  datatype Filled = Enough | Lacking(why: Stop)

  datatype HeaderRead = Header(size: nat, offset: nat) | BadStart(fault: Fault) | NoHeader(why: Stop)

  datatype FrameRead = Whole(opcode: byte, data: Bytes, fin: bool) | Refused(fault: Fault) | Interrupted(why: Stop)

  /**
   What a call to recv comes to. The caller sees one timeout, whether it was the reading that took
   too long or the answer to a ping that had been read, and one error for a connection that broke.
   */
  datatype Received =
    | Heard(event: Event) | Faulty(fault: Fault) | Stopped(why: Stop) | Unanswered(data: Bytes, sending: Sending)

  /** One more frame was written, with this outcome. */
  ghost predicate Put(before: seq<Write>, after: seq<Write>, opcode: byte, payload: Bytes, mask: Bytes, r: Sending) {
    && |after| == |before| + 1 && after[..|before|] == before
    && var w := after[|before|];
    && w.opcode == opcode && w.payload == payload && w.mask == mask && w.outcome == r && w.Made()
  }

  /** A send that goes as planned, where there is a plan. */
  ghost predicate AsPlanned(before: seq<Delivery>, after: seq<Delivery>, w: Write)
    requires w.Fits()
  {
    if before == [] then after == []
    else after == before[1..] && w.outcome == before[0].outcome && w.went == Leaving(w.Frame(), before[0])
  }

  const HEAD_END: Bytes := [13, 10, 13, 10]

  predicate EndsAt(s: Bytes, k: nat) {
    k + 4 <= |s| && s[k..k + 4] == HEAD_END
  }

  /** The blank line that ends the handshake's head is first at k. */
  ghost predicate HeadEndsAt(s: Bytes, k: nat) {
    EndsAt(s, k) && forall j: nat :: j < k ==> !EndsAt(s, j)
  }

  class WebSocket {
    const sock: Socket
    const utf8: Bytes -> bool
    var buf: Bytes
    var parts: seq<Bytes>
    var received: nat
    ghost var whole: Bytes         // the stream after the handshake
    ghost var log: seq<Event>      // what recv has returned
    ghost var trace: seq<Event>    // what it has taken from the stream
    ghost var opening: Bytes       // the handshake's request
    ghost var writes: seq<Write>   // every frame sent since

    constructor (sock: Socket, utf8: Bytes -> bool)
      ensures this.sock == sock && this.utf8 == utf8 && Bounded()
      ensures buf == [] && parts == [] && received == 0
      ensures log == [] && trace == [] && writes == [] && opening == []
    {
      this.sock := sock;
      this.utf8 := utf8;
      buf, parts, received := [], [], 0;
      whole, log, trace, opening, writes := [], [], [], [], [];
    }

    /** Everything not yet turned into a frame. */
    ghost function Ahead(): Bytes
      reads this, sock
    {
      buf + sock.incoming
    }

    ghost predicate Bounded()
      reads this
    {
      |buf| <= BUFFER_LIMIT && |parts| <= MAX_FRAGMENTS && Total(parts) <= MAX_MESSAGE
    }

    /** All that left the socket is the handshake and the frames written since. */
    ghost predicate Wire()
      reads this`opening, this`writes, sock`sent
    {
      AllMade(writes) && sock.sent == opening + Wrote(writes)
    }

    /**
     What has been taken, followed by what lies ahead, is what the stream means; and just the pings
     whose answer was not sent have not been returned.
     */
    ghost predicate Valid()
      reads this, sock
    {
      && Bounded() && Meaning(utf8, [], whole) == Then(trace, Meaning(utf8, parts, Ahead()))
      && |Answers(writes)| == Pings(trace) && log == Told(trace, Answers(writes)) && Wire()
    }

    /** The event has left the buffer and is not yet in the trace. */
    ghost predicate Due(event: Event)
      reads this, sock
    {
      && Bounded() && Meaning(utf8, [], whole) == Then(trace + [event], Meaning(utf8, parts, Ahead()))
      && |Answers(writes)| == Pings(trace) && log == Told(trace, Answers(writes)) && Wire()
    }

    /**
     Everything taken from the stream was returned exactly when every answer to a ping was sent; and
     every message, pong and close was, however the answers went.
     */
    lemma NothingLostIff()
      requires Valid()
      ensures log == trace <==> AllSent(Answers(writes))
      ensures Spoken(log) == Spoken(trace)
    {
      hide Meaning, Wire, Spoken;
      ToldIff(trace, Answers(writes));
    }

    /** A server reads back exactly the frames that left whole if and only if none was torn. */
    lemma ServerReadsBackIff()
      requires Wire()
      ensures ServerReadsAll(sock.sent[|opening|..]) == Reading(Complete(writes), []) <==> !SomeTorn(writes)
    {
      hide Wrote, Complete, ServerReadsAll, SomeTorn;
      ReadBackIff(writes);
      assert sock.sent[|opening|..] == Wrote(writes);
    }

    /** Read until the blank line is in the buffer, or there is no room for it. */
    method ReadHead() returns (end: int)
      requires buf == []
      modifies this`buf, sock`incoming
      ensures buf + sock.incoming == old(sock.incoming) && |buf| <= HANDSHAKE_LIMIT
      ensures end >= 0 ==> HeadEndsAt(buf, end)
      ensures end < 0 && sock.prompt ==>
                forall k: nat :: EndsAt(old(sock.incoming), k) ==> HANDSHAKE_LIMIT < k + 4
    {
      hide EndsAt;
      ghost var all := sock.incoming;
      end := FindHeadEnd(buf);
      while end < 0
        invariant buf + sock.incoming == all && |buf| <= HANDSHAKE_LIMIT
        invariant end < 0 ==> forall j: nat :: !EndsAt(buf, j)
        invariant end >= 0 ==> HeadEndsAt(buf, end)
        decreases |sock.incoming|, -end
      {
        if |buf| > HANDSHAKE_LIMIT { return; }
        var room := HANDSHAKE_LIMIT - |buf|;
        HeadIsAhead(buf, sock.incoming);
        var c := sock.Recv(if 4096 < room then 4096 else room);
        if !c.Data? || c.bytes == [] { return; }
        buf := buf + c.bytes;
        end := FindHeadEnd(buf);
      }
    }

    /** Read up to the end of the handshake's head. accepts stands for the checks made on it. */
    method Handshake(request: Bytes, accepts: Bytes -> bool) returns (ok: bool)
      requires buf == [] && parts == [] && log == [] && trace == [] && writes == [] && sock.sent == []
      modifies this, sock
      ensures ok ==> exists k: nat :: HeadEndsAt(old(sock.incoming), k) && accepts(old(sock.incoming)[..k])
                                      && whole == old(sock.incoming)[k + 4..]
      ensures ok ==> Valid() && log == [] && trace == [] && writes == [] && parts == []
                     && sock.sent == opening == request
      ensures old(sock.plan) != [] ==> sock.plan == old(sock.plan)[1..]
      ensures sock.prompt && old(sock.plan) != [] && old(sock.plan)[0].outcome == Sent ==>
                forall k: nat :: HeadEndsAt(old(sock.incoming), k) && k + 4 <= HANDSHAKE_LIMIT ==>
                                   ok == accepts(old(sock.incoming)[..k])
    {
      hide Meaning, EndsAt;
      var sending, went := sock.SendAll(request);
      if sending != Sent { return false; }
      ghost var all := sock.incoming;
      var end := ReadHead();
      if end < 0 { return false; }
      FirstInPrefix(buf, sock.incoming, end);
      OneHeadEnd(all, end);
      var head := buf[..end];
      buf := buf[end + 4..];
      whole := buf + sock.incoming;
      opening := request;
      assert request + Wrote([]) == request;
      assert Meaning(utf8, [], whole) == Then([], Meaning(utf8, [], whole));
      return accepts(head);
    }

    /** Buffer at least count bytes, and take no more off the socket than that. */
    method Fill(count: nat) returns (r: Filled)
      requires count <= BUFFER_LIMIT && |buf| <= BUFFER_LIMIT
      modifies this`buf, this`received, sock`incoming
      ensures Ahead() == old(Ahead()) && old(buf) <= buf && |buf| <= BUFFER_LIMIT
      ensures received - old(received) == |buf| - |old(buf)|
      ensures r.Enough? ==> count <= |buf|
      ensures r == Lacking(Closed) ==> |buf| < count && sock.incoming == []
      ensures r.Lacking? && sock.prompt ==> r.why == Closed
    {
      while |buf| < count
        invariant Ahead() == old(Ahead()) && old(buf) <= buf && |buf| <= BUFFER_LIMIT
        invariant received - old(received) == |buf| - |old(buf)|
        decreases |sock.incoming|
      {
        var late: bool := *;
        if late && !sock.prompt { return Lacking(Deadline); }
        var c := sock.Recv(count - |buf|);
        if c.TimedOut? { return Lacking(Deadline); }
        if c.Lost? { return Lacking(Broken); }
        if c.bytes == [] { return Lacking(Closed); }
        received := received + |c.bytes|;
        buf := buf + c.bytes;
      }
      return Enough;
    }

    /** The frame's header, or a refusal as soon as its first bytes show one is due. */
    method ReadHeader() returns (r: HeaderRead)
      requires Bounded()
      modifies this`buf, this`received, sock`incoming
      ensures Bounded() && Ahead() == old(Ahead())
      ensures match r
              case Header(size, offset) =>
                && |buf| >= 2 && |buf| >= offset == 2 + LengthWidth(buf[1]) && size == PayloadSize(buf)
                && buf[0] / 16 % 8 == 0 && buf[1] < 128
              case BadStart(fault) => Parse(Ahead(), Total(parts)) == Bad(fault)
              case NoHeader(why) =>
                && (sock.prompt ==> why == Closed)
                && (why == Closed ==> Parse(Ahead(), Total(parts)) == NeedMore && sock.incoming == [])
    {
      ghost var held := Total(parts);
      var got := Fill(2);
      if got.Lacking? { return NoHeader(got.why); }
      var first, second := buf[0], buf[1];
      if first / 16 % 8 != 0 {
        ParsePrefix(buf, Ahead(), held);
        return BadStart(ReservedBits);
      }
      if second >= 128 {
        ParsePrefix(buf, Ahead(), held);
        return BadStart(MaskedByServer);
      }
      var size, offset := second % 128, 2;
      if size == 126 {
        got := Fill(4);
        if got.Lacking? { return NoHeader(got.why); }
        size, offset := Number(buf[2..4]), 4;
      } else if size == 127 {
        got := Fill(10);
        if got.Lacking? { return NoHeader(got.why); }
        size, offset := Number(buf[2..10]), 10;
      }
      assert first == buf[0] && second == buf[1];
      return Header(size, offset);
    }

    /** One frame off the buffer, or a refusal before its payload is read. */
    method ReadFrame() returns (r: FrameRead)
      requires Bounded()
      modifies this`buf, this`received, this`parts, sock`incoming
      ensures Bounded()
      ensures match r
              case Whole(opcode, data, fin) =>
                && parts == old(parts)
                && var p := Parse(old(Ahead()), Total(parts));
                && p.Frame? && p.fin == fin && p.opcode == opcode && p.payload == data
                && Ahead() == old(Ahead())[p.length..]
              case Refused(fault) => Parse(old(Ahead()), Total(old(parts))) == Bad(fault)
              case Interrupted(why) =>
                && (sock.prompt ==> why == Closed) && parts == old(parts) && Ahead() == old(Ahead())
                && (why == Closed ==> Parse(Ahead(), Total(parts)) == NeedMore && sock.incoming == [])
    {
      hide HeaderFault, Total;
      ghost var held := Total(parts);
      var h := ReadHeader();
      if h.BadStart? { return Refused(h.fault); }
      if h.NoHeader? { return Interrupted(h.why); }
      var size, offset, first := h.size, h.offset, buf[0];
      var fault := CheckHeader(buf[0], size);
      if fault.Wrong? {
        ParsePrefix(buf, Ahead(), held);
        return Refused(fault.fault);
      }
      ghost var header := buf;
      var got := Fill(offset + size);
      SameHeader(header, buf);
      assert sock.incoming == [] ==> Ahead() == buf;
      if got.Lacking? { return Interrupted(got.why); }
      var data := buf[offset..offset + size];
      ParsePrefix(buf, Ahead(), held);
      assert Ahead()[offset + size..] == buf[offset + size..] + sock.incoming;
      buf := buf[offset + size..];
      return Whole(first % 16, data, first >= 128);
    }

    method CheckHeader(first: byte, size: nat) returns (h: MaybeFault)
      requires Bounded()
      modifies this`parts
      ensures Bounded() && h == HeaderFault(first, size, Total(old(parts)))
      ensures h.Fine? ==> parts == old(parts)
      ensures h == Wrong(MessageTooLarge) ==> parts == []
    {
      if size > MAX_FRAME { return Wrong(FrameTooLarge); }
      var opcode, fin := first % 16, first >= 128;
      if opcode >= 8 && (!fin || size > 125) { return Wrong(ControlRefused); }
      if opcode == TEXT || opcode == CONTINUATION {
        var pending := SumOfSizes(parts);
        if pending + size > MAX_MESSAGE {
          parts := [];
          return Wrong(MessageTooLarge);
        }
      }
      return Fine;
    }

    /**
     The next frame. However the socket splits the bytes, and wherever reading it times out, the
     frames returned are those the stream means, in order, and a ping is answered before it is
     returned. A ping whose answer is late is consumed and not returned, and part of the answer may
     have gone out; the connection can be read on all the same.
     */
    method Recv(mask: Bytes) returns (r: Received)
      requires Valid() && |mask| == 4
      modifies this, sock
      ensures Bounded() && Wire() && whole == old(whole) && opening == old(opening)
      ensures match r
              case Heard(event) =>
                && Valid() && log == old(log) + [event] && trace == old(trace) + [event]
                && if event.Ping? then Put(old(writes), writes, PONG, event.data, mask, Sent)
                   else writes == old(writes)
              case Unanswered(data, sending) =>
                && Valid() && log == old(log) && trace == old(trace) + [Ping(data)]
                && sending != Sent && Put(old(writes), writes, PONG, data, mask, sending)
              case Faulty(fault) =>
                && log == old(log) && trace == old(trace) && writes == old(writes)
                && Meaning(utf8, [], whole) == Transcript(trace, [fault])
              case Stopped(why) =>
                && Valid() && log == old(log) && trace == old(trace) && writes == old(writes)
                && (why == Closed ==> Meaning(utf8, [], whole) == Transcript(trace, []))
      ensures r.Stopped? && sock.prompt ==> r.why == Closed
      ensures if |writes| == |old(writes)| then sock.plan == old(sock.plan)
              else AsPlanned(old(sock.plan), sock.plan, writes[|old(writes)|])
    {
      hide Next, Meaning, Parse, ClientFrame, Join, Then, Total, Told, Pings, Answers, Wire, AsPlanned, Take;
      ghost var parts0, ahead0 := parts, Ahead();
      Gained(utf8, Meaning(utf8, [], whole), trace, parts0, ahead0);
      while true
        invariant Bounded() && whole == old(whole) && log == old(log) && trace == old(trace)
        invariant writes == old(writes) && opening == old(opening)
        invariant sock.sent == old(sock.sent) && sock.plan == old(sock.plan)
        invariant Next(utf8, parts, Ahead()) == Next(utf8, parts0, ahead0)
        decreases |Ahead()|
      {
        ghost var held, all := parts, Ahead();
        var f := ReadFrame();
        if f.Interrupted? {
          SameNextSameMeaning(utf8, parts, Ahead(), parts0, ahead0);
          Unfold(utf8, parts, Ahead());
          return Stopped(f.why);
        }
        if f.Refused? {
          Unfold(utf8, held, all);
          return Faulty(f.fault);
        }
        NextAfterFrame(utf8, held, all);
        if f.opcode == PING {
          r := AnswerPing(f.data, mask);
          return;
        }
        if f.opcode == PONG {
          Return(Pong);
          return Heard(Pong);
        }
        if f.opcode == CLOSE {
          Return(Close(f.data));
          return Heard(Close(f.data));
        }
        var t := TakeData(f.fin, f.opcode, f.data);
        if t.Fails? { return Faulty(t.fault); }
        if t.Completes? {
          Return(Text(t.text));
          return Heard(Text(t.text));
        }
      }
    }

    /** What is not a ping is returned as it is taken. */
    ghost method Return(event: Event)
      requires Due(event) && !event.Ping?
      modifies `log, `trace
      ensures Valid() && log == old(log) + [event] && trace == old(trace) + [event]
    {
      hide Meaning, Told, Pings, Answers, Wire;
      ToldMore(trace, Answers(writes), event, Sent);
      log, trace := log + [event], trace + [event];
    }

    /** A ping is answered, and returned if the answer was sent. */
    method AnswerPing(data: Bytes, mask: Bytes) returns (r: Received)
      requires Due(Ping(data)) && |data| <= MAX_FRAME && |mask| == 4
      modifies this`log, this`trace, this`writes, sock`sent, sock`plan
      ensures Valid() && trace == old(trace) + [Ping(data)]
      ensures match r
              case Heard(event) =>
                event == Ping(data) && log == old(log) + [event]
                && Put(old(writes), writes, PONG, data, mask, Sent)
              case Unanswered(unheard, sending) =>
                unheard == data && log == old(log)
                && sending != Sent && Put(old(writes), writes, PONG, data, mask, sending)
              case _ => false
      ensures AsPlanned(old(sock.plan), sock.plan, writes[|old(writes)|])
    {
      hide Meaning, Told, Pings, Answers, Wire, AsPlanned;
      ghost var answers := Answers(writes);
      var sending := Send(PONG, data, mask);
      ToldMore(trace, answers, Ping(data), sending);
      trace := trace + [Ping(data)];
      if sending != Sent { return Unanswered(data, sending); }
      log := log + [Ping(data)];
      return Heard(Ping(data));
    }

    /** A data frame joins the fragments held, completes them, or is refused. */
    method TakeData(fin: bool, opcode: byte, data: Bytes) returns (t: Taken)
      requires Bounded() && |data| <= MAX_FRAME
      requires opcode == TEXT || opcode == CONTINUATION ==> Total(parts) + |data| <= MAX_MESSAGE
      modifies this`parts
      ensures Bounded() && t == Take(utf8, old(parts), fin, opcode, data)
      ensures parts == match t case Fails(_, kept) => kept case Holds(more) => more case Completes(_) => []
    {
      if (opcode == TEXT || opcode == 2) && parts != [] {
        parts := [];
        return Fails(AlreadyStarted, parts);
      }
      if opcode == CONTINUATION && parts == [] { return Fails(NoMessage, parts); }
      if opcode != TEXT && opcode != CONTINUATION { return Fails(Unsupported, parts); }
      ghost var held := parts;
      parts := parts + [data];
      assert parts[..|parts| - 1] == held;
      if |parts| > MAX_FRAGMENTS {
        parts := [];
        return Fails(TooManyFragments, parts);
      }
      if !fin { return Holds(parts); }
      var text := Join(parts);
      parts := [];
      if !utf8(text) { return Fails(NotUtf8, parts); }
      return Completes(text);
    }

    /** A frame that fits goes out whole, or a first part of it with an error; a larger one is refused. */
    method Send(opcode: byte, payload: Bytes, mask: Bytes) returns (r: Sending)
      requires Wire() && opcode < 16 && |mask| == 4
      modifies this`writes, sock`sent, sock`plan
      ensures Wire() && (old(Valid()) && opcode != PONG ==> Valid())
      ensures Answers(writes) == Answers(old(writes)) + if opcode == PONG && |payload| <= MAX_FRAME then [r] else []
      ensures if |payload| > MAX_FRAME then
                r == Down && writes == old(writes) && sock.sent == old(sock.sent) && sock.plan == old(sock.plan)
              else
                && Put(old(writes), writes, opcode, payload, mask, r)
                && AsPlanned(old(sock.plan), sock.plan, writes[|old(writes)|])
    {
      hide Meaning, ClientFrame, Told, Pings, Answers, Wrote, Leaving;
      if |payload| > MAX_FRAME { return Down; }
      ghost var went;
      r, went := sock.SendAll(ClientFrame(opcode, payload, mask));
      ghost var w := Write(opcode, payload, mask, r, went);
      OneMoreWrite(writes, w);
      assert opening + (Wrote(writes) + went) == (opening + Wrote(writes)) + went;
      assert opcode != PONG ==> Answers(writes) + [] == Answers(writes);
      writes := writes + [w];
    }
  }

  /** One more event taken: the log takes what the stream ahead gives up. */
  lemma Gained(utf8: Bytes -> bool, t: Transcript, log: seq<Event>, parts: seq<Bytes>, s: Bytes)
    requires t == Then(log, Meaning(utf8, parts, s))
    ensures match Next(utf8, parts, s)
            case Starved => t == Transcript(log, [])
            case Failed(fault) => t == Transcript(log, [fault])
            case Got(event, more, rest) => t == Then(log + [event], Meaning(utf8, more, rest))
  {
    Unfold(utf8, parts, s);
    if Next(utf8, parts, s).Got? {
      var event := Next(utf8, parts, s).event;
      var m := Meaning(utf8, Next(utf8, parts, s).parts, Next(utf8, parts, s).rest);
      assert log + ([event] + m.events) == log + [event] + m.events;
    } else {
      assert log + [] == log;
    }
  }

  lemma SameHeader(prefix: Bytes, s: Bytes)
    requires prefix <= s && |prefix| >= 2 && |prefix| >= 2 + LengthWidth(prefix[1])
    ensures s[0] == prefix[0] && s[1] == prefix[1] && PayloadSize(s) == PayloadSize(prefix)
  {
    var w := LengthWidth(prefix[1]);
    assert s[2..2 + w] == prefix[2..2 + w];
  }

  method SumOfSizes(parts: seq<Bytes>) returns (n: nat)
    ensures n == Total(parts)
  {
    n := 0;
    for i := 0 to |parts|
      invariant n == Total(parts[..i])
    {
      assert parts[..i + 1][..i] == parts[..i];
      n := n + |parts[i]|;
    }
    assert parts[..|parts|] == parts;
  }

  method FindHeadEnd(s: Bytes) returns (k: int)
    ensures k < 0 ==> forall j: nat :: !EndsAt(s, j)
    ensures k >= 0 ==> HeadEndsAt(s, k)
  {
    var i := 0;
    while i + 4 <= |s|
      invariant forall j: nat :: j < i ==> !EndsAt(s, j)
    {
      if s[i..i + 4] == HEAD_END { return i; }
      i := i + 1;
    }
    return -1;
  }

  lemma FirstInPrefix(prefix: Bytes, more: Bytes, k: nat)
    requires HeadEndsAt(prefix, k)
    ensures HeadEndsAt(prefix + more, k)
    ensures k + 4 <= |prefix|
    ensures (prefix + more)[..k] == prefix[..k] && (prefix + more)[k + 4..] == prefix[k + 4..] + more
  {
    var s := prefix + more;
    assert s[k..k + 4] == prefix[k..k + 4];
    forall j: nat | j < k ensures !EndsAt(s, j) {
      assert s[j..j + 4] == prefix[j..j + 4];
      assert !EndsAt(prefix, j);
    }
  }

  function Unbroken(opcode: byte, payload: Bytes): WireFrame {
    WireFrame(true, opcode, payload, Short)
  }

  lemma NothingMeansNothing(utf8: Bytes -> bool)
    ensures Meaning(utf8, [], []) == Transcript([], [])
  {
  }

  lemma JoinOne(text: Bytes)
    ensures Join([] + [text]) == text
  {
    assert [] + [text] == [text] && [text][..0] == [];
    assert Join([text]) == Join([text][..0]) + text;
  }

  lemma WholeTextMeans(utf8: Bytes -> bool, text: Bytes)
    requires |text| <= 125 && utf8(text)
    ensures FrameAllowed(Unbroken(TEXT, text))
    ensures Meaning(utf8, [], ServerFrame(Unbroken(TEXT, text)) + []) == Transcript([Text(text)], [])
  {
    hide ServerFrame, Meaning, Join;
    JoinOne(text);
    NothingMeansNothing(utf8);
    FrameMeans(utf8, [], Unbroken(TEXT, text), []);
  }

  lemma PingThenTextMeans(utf8: Bytes -> bool, data: Bytes, text: Bytes)
    requires |data| <= 125 && |text| <= 125 && utf8(text)
    ensures FrameAllowed(Unbroken(PING, data)) && FrameAllowed(Unbroken(TEXT, text))
    ensures Meaning(utf8, [], ServerFrame(Unbroken(PING, data)) + ServerFrame(Unbroken(TEXT, text)))
         == Transcript([Ping(data), Text(text)], [])
  {
    hide ServerFrame, Meaning, Join;
    WholeTextMeans(utf8, text);
    var rest := ServerFrame(Unbroken(TEXT, text));
    assert rest + [] == rest;
    FrameMeans(utf8, [], Unbroken(PING, data), rest);
  }

  lemma InTranscript(t: Transcript, trace: seq<Event>, e: Event, ahead: Transcript)
    requires t == Then(trace + [e], ahead)
    ensures |t.events| > |trace| && t.events[|trace|] == e
  {
  }

  /** Whatever call comes next on a prompt socket with an event ahead, it is about that event. */
  method RecvAhead(ws: WebSocket, mask: Bytes, e: Event) returns (r: Received)
    requires ws.Valid() && ws.sock.prompt && |mask| == 4
    requires var m := Meaning(ws.utf8, [], ws.whole);
             m.faults == [] && |m.events| > |ws.trace| && m.events[|ws.trace|] == e
    modifies ws, ws.sock
    ensures ws.Valid() && ws.Wire() && ws.trace == old(ws.trace) + [e]
    ensures ws.whole == old(ws.whole) && ws.opening == old(ws.opening)
    ensures r == Heard(e) || (e.Ping? && r.Unanswered? && r == Unanswered(e.data, r.sending) && r.sending != Sent)
    ensures ws.log == old(ws.log) + if r.Heard? then [e] else []
    ensures if e.Ping? then
              && Put(old(ws.writes), ws.writes, PONG, e.data, mask, if r.Heard? then Sent else r.sending)
              && AsPlanned(old(ws.sock.plan), ws.sock.plan, ws.writes[|old(ws.writes)|])
            else
              ws.writes == old(ws.writes) && ws.sock.plan == old(ws.sock.plan)
  {
    hide Meaning, Told, Pings, Answers, WebSocket.Wire, ClientFrame, AsPlanned, Then;
    ghost var trace, m := ws.trace, Meaning(ws.utf8, [], ws.whole);
    r := ws.Recv(mask);
    ghost var ahead := Meaning(ws.utf8, ws.parts, ws.Ahead());
    match r
    case Heard(event) => InTranscript(m, trace, event, ahead);
    case Unanswered(data, sending) => InTranscript(m, trace, Ping(data), ahead);
    case Faulty(_) =>
    case Stopped(_) =>
  }

  /** A connection just opened, on which the ping and the text are ahead. */
  method OpensOnPing(utf8: Bytes -> bool, data: Bytes, text: Bytes, plan: seq<Delivery>) returns (ws: WebSocket)
    requires |data| <= 125 && |text| <= 125 && utf8(text)
    ensures fresh(ws) && fresh(ws.sock) && ws.Valid() && ws.utf8 == utf8 && ws.sock.prompt && ws.sock.plan == plan
    ensures ws.trace == [] && ws.log == [] && ws.writes == []
    ensures Meaning(utf8, [], ws.whole) == Transcript([Ping(data), Text(text)], [])
  {
    hide Meaning, ServerFrame;
    PingThenTextMeans(utf8, data, text);
    var stream := ServerFrame(Unbroken(PING, data)) + ServerFrame(Unbroken(TEXT, text));
    var sock := new Socket(HEAD_END + stream, true, [Delivery(Sent, 0)] + plan);
    ws := new WebSocket(sock, utf8);
    var ok := ws.Handshake([], head => true);
    assert HeadEndsAt(HEAD_END + stream, 0);
    assert (HEAD_END + stream)[4..] == stream;
  }

  lemma OneByteThenWhole(writes: seq<Write>)
    requires AllMade(writes) && |writes| == 2 && writes[1].outcome == Sent
    requires writes[0].went == Leaving(writes[0].Frame(), Delivery(Late, 1))
    ensures SomeTorn(writes) && Complete(writes) == [ClientSaid(writes[1].opcode, writes[1].payload)]
  {
    var torn, whole := writes[0], writes[1];
    ClientFrameSize(torn.opcode, torn.payload, torn.mask);
    hide ClientFrame;
    assert torn.Torn();
    assert writes[..1] == [torn] && [torn][..0] == [];
    assert Complete([torn]) == [];
  }

  /**
   A ping whose answer is late. It is taken from the stream and not returned, one byte of the answer
   has left, and the text behind it is heard; but the next frame this side sends, although it leaves
   whole, is not read back.
   */
  method PongIsLate(utf8: Bytes -> bool, data: Bytes, text: Bytes, mask: Bytes) returns (ws: WebSocket)
    requires |data| <= 125 && |text| <= 125 && utf8(text) && |mask| == 4
    ensures fresh(ws) && fresh(ws.sock) && ws.Valid()
    ensures ws.trace == [Ping(data), Text(text)] && ws.log == [Text(text)]
    ensures |ws.writes| == 2 && ws.writes[0].outcome == Late && ws.writes[1].outcome == Sent
    ensures ws.writes[1].opcode == TEXT && ws.writes[1].payload == text
    ensures Complete(ws.writes) == [ClientSaid(TEXT, text)]
    ensures ServerReadsAll(ws.sock.sent[|ws.opening|..]) != Reading([ClientSaid(TEXT, text)], [])
  {
    hide Meaning, Told, Pings, Answers, WebSocket.Valid, ServerReadsAll, ClientFrame, Complete, Wrote, SomeTorn;
    ws := OpensOnPing(utf8, data, text, [Delivery(Late, 1), Delivery(Sent, 0)]);
    var late := RecvAhead(ws, mask, Ping(data));
    var next := RecvAhead(ws, mask, Text(text));
    var sent := ws.Send(TEXT, text, mask);
    assert AllMade(ws.writes);
    OneByteThenWhole(ws.writes);
    ws.ServerReadsBackIff();
  }

  lemma HeadIsAhead(prefix: Bytes, more: Bytes)
    requires forall j: nat :: !EndsAt(prefix, j)
    ensures forall k: nat :: EndsAt(prefix + more, k) ==> |prefix| < k + 4 && more != []
  {
    var s := prefix + more;
    forall k: nat | EndsAt(s, k) ensures |prefix| < k + 4 && more != [] {
      if k + 4 <= |prefix| {
        assert s[k..k + 4] == prefix[k..k + 4];
        assert EndsAt(prefix, k);
      }
    }
  }

  lemma OneHeadEnd(s: Bytes, end: nat)
    requires HeadEndsAt(s, end)
    ensures forall k: nat :: HeadEndsAt(s, k) ==> k == end
  {
  }
}
