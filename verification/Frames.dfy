/**
 WebSocket framing (RFC 6455, sections 5.2 to 5.5) as functions on byte strings: what a client
 sends, what a server sends, and what a stream of server bytes means to this client.
 */
module Frames {
  import opened Octets

  const MAX_FRAME: nat := 4 * 1024 * 1024
  const MAX_MESSAGE: nat := MAX_FRAME
  const MAX_FRAGMENTS: nat := 32

  const CONTINUATION: byte := 0
  const TEXT: byte := 1
  const CLOSE: byte := 8
  const PING: byte := 9
  const PONG: byte := 10

  // ---- masking ----

  /** Exclusive or of the lowest bits. */
  function Xor(a: nat, b: nat, bits: nat): (r: nat)
    ensures r < Power(2, bits)
  {
    if bits == 0 then 0
    else (if a % 2 == b % 2 then 0 else 1) + 2 * Xor(a / 2, b / 2, bits - 1)
  }

  lemma {:induction false} XorTwice(a: nat, b: nat, bits: nat)
    requires a < Power(2, bits)
    ensures Xor(Xor(a, b, bits), b, bits) == a
    decreases bits
  {
    if bits > 0 {
      XorTwice(a / 2, b / 2, bits - 1);
      assert Xor(a, b, bits) / 2 == Xor(a / 2, b / 2, bits - 1);
    }
  }

  lemma {:induction false} PowerIsPositive(base: nat, exponent: nat)
    requires base > 0
    ensures Power(base, exponent) > 0
    decreases exponent
  {
    if exponent > 0 { PowerIsPositive(base, exponent - 1); }
  }

  function TwoTo(k: nat): (p: nat)
    ensures p > 0
  {
    PowerIsPositive(2, k);
    Power(2, k)
  }

  /** Bit k of a number, 1 where it is set. */
  function Bit(n: nat, k: nat): nat {
    n / TwoTo(k) % 2
  }

  lemma AtLeastOne(d: int, p: int)
    requires p >= 0
    ensures d >= 1 ==> d * p >= p
    ensures d <= -1 ==> d * p <= -p
  {
    if d >= 1 {
      assert d * p == (d - 1) * p + p;
    } else if d <= -1 {
      assert d * p == (d + 1) * p - p;
    }
  }

  lemma QuotientIs(n: nat, p: nat, q: nat, r: nat)
    requires p > 0 && r < p && n == q * p + r
    ensures n / p == q
  {
    var d := n / p - q;
    assert n == n / p * p + n % p;
    assert d * p == r - n % p;
    AtLeastOne(d, p);
  }

  lemma HalfOfQuotient(n: nat, p: nat)
    requires p > 0
    ensures n / (2 * p) == n / 2 / p
  {
    var q, r := n / 2 / p, n / 2 % p;
    assert n / 2 == q * p + r;
    assert n == q * (2 * p) + (2 * r + n % 2);
    QuotientIs(n, 2 * p, q, 2 * r + n % 2);
  }

  lemma NextBit(n: nat, k: nat)
    ensures Bit(n, k + 1) == Bit(n / 2, k) && Bit(n, 0) == n % 2
  {
    HalfOfQuotient(n, TwoTo(k));
  }

  /** A bit of the result is set exactly where one of the two has it set and the other has not. */
  lemma {:induction false} XorBits(a: nat, b: nat, bits: nat, k: nat)
    requires k < bits
    ensures Bit(Xor(a, b, bits), k) == 1 <==> Bit(a, k) != Bit(b, k)
    decreases bits
  {
    var x := Xor(a, b, bits);
    assert x % 2 == if a % 2 == b % 2 then 0 else 1;
    assert x / 2 == Xor(a / 2, b / 2, bits - 1);
    if k == 0 {
      NextBit(x, 0);
      NextBit(a, 0);
      NextBit(b, 0);
    } else {
      NextBit(x, k - 1);
      NextBit(a, k - 1);
      NextBit(b, k - 1);
      XorBits(a / 2, b / 2, bits - 1, k - 1);
    }
  }

  /** The number with these bits, lowest first. */
  function FromBits(bits: seq<bool>): (n: nat)
    ensures n < TwoTo(|bits|)
  {
    if bits == [] then 0
    else FromBits(bits[..|bits| - 1]) + if bits[|bits| - 1] then TwoTo(|bits| - 1) else 0
  }

  /** The lowest bits of a number, lowest first. */
  function Bits(n: nat, count: nat): seq<bool> {
    seq(count, k requires 0 <= k < count => Bit(n, k) == 1)
  }

  lemma {:induction false} BitsGiveNumber(n: nat, count: nat)
    ensures FromBits(Bits(n, count)) == n % TwoTo(count)
    decreases count
  {
    if count > 0 {
      BitsGiveNumber(n, count - 1);
      assert Bits(n, count)[..count - 1] == Bits(n, count - 1);
      HighestBit(n, TwoTo(count - 1));
    }
  }

  lemma HighestBit(n: nat, p: nat)
    requires p > 0
    ensures n % (2 * p) == n % p + (n / p % 2) * p
  {
    var q := n / p;
    var r := n % p + (q % 2) * p;
    assert n == q * p + n % p;
    assert q == 2 * (q / 2) + q % 2;
    assert n == (q / 2) * (2 * p) + r;
    QuotientIs(n, 2 * p, q / 2, r);
  }

  lemma SmallPowers()
    ensures Power(2, 8) == 256 && Power(256, 2) == 65536 && Power(256, 8) == 18446744073709551616
  {
    assert Power(2, 4) == 16;
    assert Power(256, 4) == 4294967296;
  }

  function XorByte(a: byte, b: byte): byte {
    SmallPowers();
    Xor(a, b, 8)
  }

  /** Masking (section 5.3). The same function unmasks. */
  function Masked(payload: Bytes, mask: Bytes): (r: Bytes)
    requires |mask| == 4
    ensures |r| == |payload|
  {
    seq(|payload|, i requires 0 <= i < |payload| => XorByte(payload[i], mask[i % 4]))
  }

  lemma MaskedTwice(payload: Bytes, mask: Bytes)
    requires |mask| == 4
    ensures Masked(Masked(payload, mask), mask) == payload
  {
    SmallPowers();
    forall i | 0 <= i < |payload| ensures Masked(Masked(payload, mask), mask)[i] == payload[i] {
      XorTwice(payload[i], mask[i % 4], 8);
    }
  }

  lemma EightBits()
    ensures TwoTo(8) == Power(2, 8) == 256
  {
    SmallPowers();
  }

  /** Where just one of two bytes has its bit set. */
  function EitherBit(a: byte, b: byte): (r: seq<bool>)
    ensures |r| == 8
  {
    seq(8, k requires 0 <= k < 8 => Bit(a, k) != Bit(b, k))
  }

  /** Exclusive or of two bytes, read off their bits. */
  function UnmaskedByte(a: byte, b: byte): byte {
    SmallPowers();
    FromBits(EitherBit(a, b))
  }

  /**
   Unmasking as section 5.3 has it: byte i of the result is byte i of what came, exclusive or byte
   i modulo 4 of the key.
   */
  function Unmasked(masked: Bytes, key: Bytes): (r: Bytes)
    requires |key| == 4
    ensures |r| == |masked|
  {
    seq(|masked|, i requires 0 <= i < |masked| => UnmaskedByte(masked[i], key[i % 4]))
  }

  lemma XorIsEitherBit(a: byte, b: byte)
    ensures Bits(Xor(a, b, 8), 8) == EitherBit(a, b)
  {
    hide Xor, Bit;
    forall k | 0 <= k < 8 ensures Bits(Xor(a, b, 8), 8)[k] == EitherBit(a, b)[k] {
      XorBits(a, b, 8, k);
    }
  }

  /** The byte the client computes has the bits section 5.3 asks for. */
  lemma MaskedByteReads(a: byte, b: byte)
    ensures UnmaskedByte(a, b) == XorByte(a, b)
  {
    hide Xor, FromBits, TwoTo, Bits, EitherBit, Power;
    EightBits();
    XorIsEitherBit(a, b);
    BitsGiveNumber(Xor(a, b, 8), 8);
  }

  lemma UnmaskedGivesPayload(payload: Bytes, key: Bytes)
    requires |key| == 4
    ensures Unmasked(Masked(payload, key), key) == payload
  {
    MaskedTwice(payload, key);
    var masked := Masked(payload, key);
    forall i | 0 <= i < |payload| ensures Unmasked(masked, key)[i] == Masked(masked, key)[i] {
      MaskedByteReads(masked[i], key[i % 4]);
    }
  }

  // ---- what the client sends ----

  /** The length in its shortest form. */
  function ClientHeader(opcode: byte, size: nat): Bytes
    requires opcode < 16 && size <= MAX_FRAME
  {
    if size < 126 then [0x80 + opcode, 0x80 + size]
    else if size < 65536 then [0x80 + opcode, 0x80 + 126] + BigEndian(size, 2)
    else [0x80 + opcode, 0x80 + 127] + BigEndian(size, 8)
  }

  /** One final, masked frame. */
  function ClientFrame(opcode: byte, payload: Bytes, mask: Bytes): Bytes
    requires opcode < 16 && |payload| <= MAX_FRAME && |mask| == 4
  {
    ClientHeader(opcode, |payload|) + mask + Masked(payload, mask)
  }

  datatype ServerView = Incomplete | Rejected | Received(opcode: byte, payload: Bytes, rest: Bytes)

  function LengthWidth(second: byte): nat {
    if second % 128 == 126 then 2 else if second % 128 == 127 then 8 else 0
  }

  /**
   How a server that follows the RFC reads a client: no reserved bit, a mask, the shortest
   length form, and a final frame (this client never fragments).
   */
  function ServerReads(s: Bytes): ServerView {
    if |s| < 2 then Incomplete
    else if s[0] / 16 != 8 || s[1] < 128 then Rejected
    else
      var width := LengthWidth(s[1]);
      var start := 2 + width;
      if |s| < start + 4 then Incomplete
      else
        var size := if width == 0 then s[1] - 128 else Number(s[2..start]);
        if (width == 2 && size < 126) || (width == 8 && (size < 65536 || s[2] >= 128)) then Rejected
        else if |s| < start + 4 + size then Incomplete
        else Received(s[0] % 16, Unmasked(s[start + 4..start + 4 + size], s[start..start + 4]), s[start + 4 + size..])
  }

  lemma ClientHeaderReads(opcode: byte, size: nat, s: Bytes)
    requires opcode < 16 && size <= MAX_FRAME && ClientHeader(opcode, size) <= s
    ensures |s| >= 2 && s[0] == 0x80 + opcode && s[1] >= 128
    ensures var width := LengthWidth(s[1]);
            && |ClientHeader(opcode, size)| == 2 + width
            && size == (if width == 0 then s[1] - 128 else Number(s[2..2 + width]))
            && (width == 2 ==> size >= 126) && (width == 8 ==> size >= 65536 && s[2] < 128)
  {
    var h := ClientHeader(opcode, size);
    SmallPowers();
    assert s[0] == h[0] && s[1] == h[1];
    if 126 <= size < 65536 {
      NumberOfBigEndian(size, 2);
      assert s[2..4] == h[2..4] == BigEndian(size, 2);
    } else if size >= 65536 {
      NumberOfBigEndian(size, 8);
      HighByteIsZero(size);
      assert s[2] == h[2] && s[2..10] == h[2..10] == BigEndian(size, 8);
    }
  }

  /** A server recovers exactly what was sent, and consumes exactly the frame. */
  lemma ClientFrameRoundTrip(opcode: byte, payload: Bytes, mask: Bytes, rest: Bytes)
    requires opcode < 16 && |payload| <= MAX_FRAME && |mask| == 4
    ensures ServerReads(ClientFrame(opcode, payload, mask) + rest) == Received(opcode, payload, rest)
  {
    var header, masked := ClientHeader(opcode, |payload|), Masked(payload, mask);
    var s := ClientFrame(opcode, payload, mask) + rest;
    assert s == header + (mask + masked + rest);
    ClientHeaderReads(opcode, |payload|, s);
    UnmaskedGivesPayload(payload, mask);
    hide ClientHeader, Masked, Unmasked, LengthWidth, Number;
    var start, size := |header|, |payload|;
    assert s[start..start + 4] == mask;
    assert s[start + 4..start + 4 + size] == masked;
    assert s[start + 4 + size..] == rest;
  }

  lemma HighByteIsZero(n: nat)
    requires n <= MAX_FRAME
    ensures BigEndian(n, 8)[0] == 0
  {
    var n4 := n / 256 / 256 / 256 / 256;
    assert n4 == 0;
    assert BigEndian(n, 8)[0] == BigEndian(n / 256, 7)[0];
    assert BigEndian(n / 256, 7)[0] == BigEndian(n / 256 / 256, 6)[0];
    assert BigEndian(n / 256 / 256, 6)[0] == BigEndian(n / 256 / 256 / 256, 5)[0];
    assert BigEndian(n / 256 / 256 / 256, 5)[0] == BigEndian(0, 4)[0];
  }

  datatype ClientSaid = ClientSaid(opcode: byte, payload: Bytes)

  /** All a server reads from a stream: whole frames, and the bytes from which it can read no more. */
  datatype Reading = Reading(frames: seq<ClientSaid>, left: Bytes)

  function ServerReadsAll(s: Bytes): Reading
    decreases |s|
  {
    match ServerReads(s)
    case Received(opcode, payload, rest) =>
      var r := ServerReadsAll(rest);
      Reading([ClientSaid(opcode, payload)] + r.frames, r.left)
    case _ => Reading([], s)
  }

  /** What a frame takes on the wire: a header with the shortest length form, and a mask. */
  function FrameSize(size: nat): nat {
    2 + (if size < 126 then 0 else if size < 65536 then 2 else 8) + 4 + size
  }

  function SizeOf(frames: seq<ClientSaid>): nat {
    if frames == [] then 0 else FrameSize(|frames[0].payload|) + SizeOf(frames[1..])
  }

  lemma TwoBytes(s: Bytes)
    requires |s| == 2
    ensures Number(s) < 65536
  {
    assert Number(s) == 256 * Number(s[..1]) + s[1];
    assert Number(s[..1]) == 256 * Number(s[..1][..0]) + s[0];
  }

  /** The length of what a server takes for a frame tells nothing its payload does not. */
  lemma ReceivedSize(s: Bytes)
    requires ServerReads(s).Received?
    ensures |s| == FrameSize(|ServerReads(s).payload|) + |ServerReads(s).rest|
  {
    if LengthWidth(s[1]) == 2 { TwoBytes(s[2..4]); }
  }

  lemma {:induction false} NothingUnread(s: Bytes)
    ensures |s| == SizeOf(ServerReadsAll(s).frames) + |ServerReadsAll(s).left|
    decreases |s|
  {
    hide ServerReads;
    if ServerReads(s).Received? {
      ReceivedSize(s);
      NothingUnread(ServerReads(s).rest);
    }
  }

  lemma ClientFrameSize(opcode: byte, payload: Bytes, mask: Bytes)
    requires opcode < 16 && |payload| <= MAX_FRAME && |mask| == 4
    ensures |ClientFrame(opcode, payload, mask)| == FrameSize(|payload|)
  {
  }

  // ---- what the server sends ----

  datatype Fault =
    | ReservedBits | MaskedByServer | FrameTooLarge | ControlRefused | MessageTooLarge
    | AlreadyStarted | NoMessage | Unsupported | TooManyFragments | NotUtf8

  datatype Parsed = NeedMore | Bad(fault: Fault) | Frame(fin: bool, opcode: byte, payload: Bytes, length: nat)

  function Total(parts: seq<Bytes>): nat {
    if parts == [] then 0 else Total(parts[..|parts| - 1]) + |parts[|parts| - 1]|
  }

  function Join(parts: seq<Bytes>): Bytes {
    if parts == [] then [] else Join(parts[..|parts| - 1]) + parts[|parts| - 1]
  }

  datatype MaybeFault = Fine | Wrong(fault: Fault)

  /** What a header alone can give away, given how many bytes of a message are already held. */
  function HeaderFault(first: byte, size: nat, pending: nat): (h: MaybeFault)
    ensures h.Fine? ==> size <= MAX_FRAME
  {
    var opcode, fin := first % 16, first >= 128;
    if size > MAX_FRAME then Wrong(FrameTooLarge)
    else if opcode >= 8 && (!fin || size > 125) then Wrong(ControlRefused)
    else if (opcode == TEXT || opcode == CONTINUATION) && pending + size > MAX_MESSAGE then Wrong(MessageTooLarge)
    else Fine
  }

  function PayloadSize(s: Bytes): nat
    requires |s| >= 2 && |s| >= 2 + LengthWidth(s[1])
  {
    if LengthWidth(s[1]) == 0 then s[1] % 128 else Number(s[2..2 + LengthWidth(s[1])])
  }

  /** The first frame of s, given how many bytes of an unfinished message are already held. */
  function Parse(s: Bytes, pending: nat): (p: Parsed)
    ensures p.Frame? ==> |p.payload| < p.length <= |s| && |p.payload| <= MAX_FRAME
    ensures p.Frame? && p.opcode >= 8 ==> |p.payload| <= 125
    ensures p.Frame? && (p.opcode == TEXT || p.opcode == CONTINUATION) ==> pending + |p.payload| <= MAX_MESSAGE
  {
    if |s| < 2 then NeedMore
    else if s[0] / 16 % 8 != 0 then Bad(ReservedBits)
    else if s[1] >= 128 then Bad(MaskedByServer)
    else if |s| < 2 + LengthWidth(s[1]) then NeedMore
    else
      var offset := 2 + LengthWidth(s[1]);
      var size := PayloadSize(s);
      var h := HeaderFault(s[0], size, pending);
      if h.Wrong? then Bad(h.fault)
      else if |s| < offset + size then NeedMore
      else Frame(s[0] >= 128, s[0] % 16, s[offset..offset + size], offset + size)
  }

  /** Once bytes settle what comes first, later bytes cannot change it. */
  lemma ParsePrefix(prefix: Bytes, s: Bytes, pending: nat)
    requires prefix <= s && Parse(prefix, pending) != NeedMore
    ensures Parse(s, pending) == Parse(prefix, pending)
  {
    hide HeaderFault;
    assert |prefix| >= 2 && s[0] == prefix[0] && s[1] == prefix[1];
    var w := LengthWidth(prefix[1]);
    if |prefix| >= 2 + w {
      assert s[2..2 + w] == prefix[2..2 + w];
      var size := PayloadSize(prefix);
      if |prefix| >= 2 + w + size {
        assert s[2 + w..2 + w + size] == prefix[2 + w..2 + w + size];
      }
    }
  }

  datatype Event = Text(text: Bytes) | Ping(data: Bytes) | Pong | Close(data: Bytes)

  /** What one data frame does to the fragments held. */
  datatype Taken = Fails(fault: Fault, parts: seq<Bytes>) | Holds(parts: seq<Bytes>) | Completes(text: Bytes)

  function Take(utf8: Bytes -> bool, parts: seq<Bytes>, fin: bool, opcode: byte, data: Bytes): Taken {
    if (opcode == TEXT || opcode == 2) && parts != [] then Fails(AlreadyStarted, [])
    else if opcode == CONTINUATION && parts == [] then Fails(NoMessage, parts)
    else if opcode != TEXT && opcode != CONTINUATION then Fails(Unsupported, parts)
    else if |parts| + 1 > MAX_FRAGMENTS then Fails(TooManyFragments, [])
    else if !fin then Holds(parts + [data])
    else if utf8(Join(parts + [data])) then Completes(Join(parts + [data]))
    else Fails(NotUtf8, [])
  }

  /** The next event in a stream of bytes, and what is left of the stream. */
  datatype Decoded = Starved | Failed(fault: Fault) | Got(event: Event, parts: seq<Bytes>, rest: Bytes)

  function Next(utf8: Bytes -> bool, parts: seq<Bytes>, s: Bytes): (d: Decoded)
    ensures d.Got? ==> |d.rest| < |s|
    decreases |s|
  {
    match Parse(s, Total(parts))
    case NeedMore => Starved
    case Bad(fault) => Failed(fault)
    case Frame(fin, opcode, data, length) =>
      var rest := s[length..];
      if opcode == PING then Got(Ping(data), parts, rest)
      else if opcode == PONG then Got(Pong, parts, rest)
      else if opcode == CLOSE then Got(Close(data), parts, rest)
      else
        match Take(utf8, parts, fin, opcode, data)
        case Fails(fault, _) => Failed(fault)
        case Holds(more) => Next(utf8, more, rest)
        case Completes(text) => Got(Text(text), [], rest)
  }

  /** Everything a stream means: its events in order, and the fault that ends it, if any. */
  datatype Transcript = Transcript(events: seq<Event>, faults: seq<Fault>)

  function Meaning(utf8: Bytes -> bool, parts: seq<Bytes>, s: Bytes): Transcript
    decreases |s|
  {
    match Next(utf8, parts, s)
    case Starved => Transcript([], [])
    case Failed(fault) => Transcript([], [fault])
    case Got(event, more, rest) =>
      var t := Meaning(utf8, more, rest);
      Transcript([event] + t.events, t.faults)
  }

  function Then(log: seq<Event>, t: Transcript): Transcript {
    Transcript(log + t.events, t.faults)
  }

  /** One step of what a stream means. */
  lemma Unfold(utf8: Bytes -> bool, parts: seq<Bytes>, s: Bytes)
    ensures match Next(utf8, parts, s)
            case Starved => Meaning(utf8, parts, s) == Transcript([], [])
            case Failed(fault) => Meaning(utf8, parts, s) == Transcript([], [fault])
            case Got(event, more, rest) => Meaning(utf8, parts, s) == Then([event], Meaning(utf8, more, rest))
    ensures Parse(s, Total(parts)).NeedMore? ==> Next(utf8, parts, s) == Starved
    ensures Parse(s, Total(parts)).Bad? ==> Next(utf8, parts, s) == Failed(Parse(s, Total(parts)).fault)
  {
  }

  lemma SameNextSameMeaning(utf8: Bytes -> bool, p: seq<Bytes>, s: Bytes, q: seq<Bytes>, t: Bytes)
    requires Next(utf8, p, s) == Next(utf8, q, t)
    ensures Meaning(utf8, p, s) == Meaning(utf8, q, t)
  {
    Unfold(utf8, p, s);
    Unfold(utf8, q, t);
  }

  lemma NextAfterFrame(utf8: Bytes -> bool, parts: seq<Bytes>, s: Bytes)
    requires Parse(s, Total(parts)).Frame?
    ensures var p := Parse(s, Total(parts));
            var rest := s[p.length..];
            Next(utf8, parts, s) ==
              if p.opcode == PING then Got(Ping(p.payload), parts, rest)
              else if p.opcode == PONG then Got(Pong, parts, rest)
              else if p.opcode == CLOSE then Got(Close(p.payload), parts, rest)
              else match Take(utf8, parts, p.fin, p.opcode, p.payload)
                   case Fails(fault, _) => Failed(fault)
                   case Holds(more) => Next(utf8, more, rest)
                   case Completes(text) => Got(Text(text), [], rest)
  {
  }

  // ---- a server that keeps to the RFC is heard exactly ----

  datatype LengthForm = Short | Two | Eight

  /** An unmasked frame. A length form longer than needed is allowed here. */
  datatype WireFrame = WireFrame(fin: bool, opcode: byte, payload: Bytes, form: LengthForm)

  predicate FrameAllowed(f: WireFrame) {
    && f.opcode < 16 && |f.payload| <= MAX_FRAME
    && (f.form == Short ==> |f.payload| < 126)
    && (f.form == Two ==> |f.payload| < 65536)
    && (f.opcode >= 8 ==> f.fin && |f.payload| <= 125)
  }

  function FormWidth(form: LengthForm): nat {
    match form case Short => 0 case Two => 2 case Eight => 8
  }

  function ServerHeader(f: WireFrame): (s: Bytes)
    requires FrameAllowed(f)
    ensures |s| == 2 + FormWidth(f.form)
  {
    var first: byte := (if f.fin then 0x80 else 0) + f.opcode;
    match f.form
    case Short => [first, |f.payload|]
    case Two => [first, 126] + BigEndian(|f.payload|, 2)
    case Eight => [first, 127] + BigEndian(|f.payload|, 8)
  }

  function ServerFrame(f: WireFrame): Bytes
    requires FrameAllowed(f)
  {
    ServerHeader(f) + f.payload
  }

  lemma HeaderReads(f: WireFrame, s: Bytes)
    requires FrameAllowed(f) && ServerHeader(f) <= s
    ensures |s| >= 2 && s[0] / 16 % 8 == 0 && s[1] < 128
    ensures s[0] % 16 == f.opcode && (s[0] >= 128 <==> f.fin)
    ensures LengthWidth(s[1]) == FormWidth(f.form) && PayloadSize(s) == |f.payload|
  {
    assert s[0] == ServerHeader(f)[0] && s[1] == ServerHeader(f)[1];
    match f.form
    case Short =>
    case Two => LengthReads(f, s, 2);
    case Eight => LengthReads(f, s, 8);
  }

  lemma LengthReads(f: WireFrame, s: Bytes, width: nat)
    requires FrameAllowed(f) && ServerHeader(f) <= s
    requires width == FormWidth(f.form) && width > 0
    ensures Number(s[2..2 + width]) == |f.payload|
  {
    SmallPowers();
    NumberOfBigEndian(|f.payload|, width);
    assert s[2..2 + width] == ServerHeader(f)[2..2 + width] == BigEndian(|f.payload|, width);
  }

  lemma ServerFrameParses(f: WireFrame, pending: nat, rest: Bytes)
    requires FrameAllowed(f)
    requires (f.opcode == TEXT || f.opcode == CONTINUATION) ==> pending + |f.payload| <= MAX_MESSAGE
    ensures Parse(ServerFrame(f) + rest, pending) == Frame(f.fin, f.opcode, f.payload, |ServerFrame(f)|)
    ensures (ServerFrame(f) + rest)[|ServerFrame(f)|..] == rest
  {
    var s := ServerFrame(f) + rest;
    assert ServerHeader(f) <= s;
    HeaderReads(f, s);
    hide ServerHeader, PayloadSize, LengthWidth;
    assert s[|ServerHeader(f)|..|ServerFrame(f)|] == f.payload;
  }

  function Wire(frames: seq<WireFrame>): Bytes
    requires forall i :: 0 <= i < |frames| ==> FrameAllowed(frames[i])
  {
    if frames == [] then [] else ServerFrame(frames[0]) + Wire(frames[1..])
  }

  /**
   Fragmentation (section 5.4): a text message starts with a text frame, goes on with
   continuations and may have control frames anywhere between them.
   */
  predicate FrameConforms(utf8: Bytes -> bool, parts: seq<Bytes>, f: WireFrame) {
    && FrameAllowed(f)
    && if f.opcode >= 8 then f.opcode == CLOSE || f.opcode == PING || f.opcode == PONG
       else
         && (f.opcode == if parts == [] then TEXT else CONTINUATION)
         && |parts| < MAX_FRAGMENTS && Total(parts) + |f.payload| <= MAX_MESSAGE
         && (f.fin ==> utf8(Join(parts + [f.payload])))
  }

  /** The fragments of an unfinished message after f. */
  function Unfinished(parts: seq<Bytes>, f: WireFrame): seq<Bytes> {
    if f.opcode >= 8 then parts else if f.fin then [] else parts + [f.payload]
  }

  predicate Conforms(utf8: Bytes -> bool, parts: seq<Bytes>, frames: seq<WireFrame>)
    decreases |frames|
  {
    frames == [] || (FrameConforms(utf8, parts, frames[0]) && Conforms(utf8, Unfinished(parts, frames[0]), frames[1..]))
  }

  /** What a conforming server says with one frame, if that frame completes anything. */
  function SaidBy(parts: seq<Bytes>, f: WireFrame): seq<Event> {
    if f.opcode == PING then [Ping(f.payload)]
    else if f.opcode == PONG then [Pong]
    else if f.opcode == CLOSE then [Close(f.payload)]
    else if f.fin then [Text(Join(parts + [f.payload]))]
    else []
  }

  function Said(parts: seq<Bytes>, frames: seq<WireFrame>): seq<Event>
    decreases |frames|
  {
    if frames == [] then [] else SaidBy(parts, frames[0]) + Said(Unfinished(parts, frames[0]), frames[1..])
  }

  lemma {:induction false} ConformingFramesAllowed(utf8: Bytes -> bool, parts: seq<Bytes>, frames: seq<WireFrame>)
    requires Conforms(utf8, parts, frames)
    ensures forall i :: 0 <= i < |frames| ==> FrameAllowed(frames[i])
    decreases |frames|
  {
    if frames != [] {
      ConformingFramesAllowed(utf8, Unfinished(parts, frames[0]), frames[1..]);
      forall i | 0 <= i < |frames| ensures FrameAllowed(frames[i]) {
        if i > 0 { assert frames[i] == frames[1..][i - 1]; }
      }
    }
  }

  lemma FrameMeans(utf8: Bytes -> bool, parts: seq<Bytes>, f: WireFrame, rest: Bytes)
    requires FrameConforms(utf8, parts, f)
    ensures var t := Meaning(utf8, Unfinished(parts, f), rest);
            Meaning(utf8, parts, ServerFrame(f) + rest) == Then(SaidBy(parts, f), t)
  {
    var s := ServerFrame(f) + rest;
    ServerFrameParses(f, Total(parts), rest);
    NextAfterFrame(utf8, parts, s);
    hide Parse, ServerFrame, Join, Total, Next, Meaning;
    if f.opcode < 8 && !f.fin {
      SameNextSameMeaning(utf8, parts, s, Unfinished(parts, f), rest);
      assert [] + Meaning(utf8, Unfinished(parts, f), rest).events == Meaning(utf8, Unfinished(parts, f), rest).events;
    } else {
      Unfold(utf8, parts, s);
    }
  }

  /** The stream of a conforming server means what the server said, and nothing fails. */
  lemma {:induction false} ConformingServerIsHeard(utf8: Bytes -> bool, parts: seq<Bytes>, frames: seq<WireFrame>)
    requires Conforms(utf8, parts, frames)
    ensures forall i :: 0 <= i < |frames| ==> FrameAllowed(frames[i])
    ensures Meaning(utf8, parts, Wire(frames)) == Transcript(Said(parts, frames), [])
    decreases |frames|
  {
    ConformingFramesAllowed(utf8, parts, frames);
    if frames != [] {
      ConformingServerIsHeard(utf8, Unfinished(parts, frames[0]), frames[1..]);
      hide Meaning, FrameConforms, Unfinished, SaidBy, ServerFrame;
      FrameMeans(utf8, parts, frames[0], Wire(frames[1..]));
    }
  }
}
