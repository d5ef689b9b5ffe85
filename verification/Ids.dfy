/** The injective encoding under the hashes of initiate/ids.py. */
module Ids {
  import opened Collections
  import opened Octets

  /** A part longer than four length bytes can say is an error of the caller. */
  predicate Fits(parts: seq<Bytes>) {
    forall i :: 0 <= i < |parts| ==> |parts[i]| < Power(256, 4)
  }

  function Prefixed(parts: seq<Bytes>): Bytes {
    if parts == [] then [] else BigEndian(|parts[0]|, 4) + parts[0] + Prefixed(parts[1..])
  }

  lemma PrefixedStep(parts: seq<Bytes>, i: nat)
    requires i < |parts|
    ensures Prefixed(parts[i..]) == BigEndian(|parts[i]|, 4) + parts[i] + Prefixed(parts[i + 1..])
  {
    assert parts[i..][1..] == parts[i + 1..];
  }

  lemma NothingPrefixed()
    ensures Prefixed([]) == []
  {
  }

  lemma Associate(a: Bytes, b: Bytes, c: Bytes, d: Bytes)
    ensures a + (b + c + d) == (a + b + c) + d
  {
  }

  method LengthPrefixed(parts: seq<Bytes>) returns (out: Option<Bytes>)
    ensures out == if Fits(parts) then Some(Prefixed(parts)) else None
  {
    hide BigEndian, Power, Prefixed;
    var bytes: Bytes := [];
    assert parts[0..] == parts;
    for i := 0 to |parts|
      invariant bytes + Prefixed(parts[i..]) == Prefixed(parts)
      invariant Fits(parts[..i])
    {
      if |parts[i]| >= Power(256, 4) { return None; }
      PrefixedStep(parts, i);
      Associate(bytes, BigEndian(|parts[i]|, 4), parts[i], Prefixed(parts[i + 1..]));
      bytes := bytes + BigEndian(|parts[i]|, 4) + parts[i];
    }
    assert parts[..|parts|] == parts && parts[|parts|..] == [];
    NothingPrefixed();
    assert bytes + [] == bytes;
    return Some(bytes);
  }

  /** Reads an encoding back, part by part. */
  function Parts(s: Bytes): Option<seq<Bytes>> {
    if s == [] then Some([])
    else if |s| < 4 || |s| < 4 + Number(s[..4]) then None
    else
      var n := Number(s[..4]);
      var rest := Parts(s[4 + n..]);
      if rest.None? then None else Some([s[4..4 + n]] + rest.value)
  }

  lemma {:induction false} RoundTrip(parts: seq<Bytes>)
    requires Fits(parts)
    ensures Parts(Prefixed(parts)) == Some(parts)
    decreases |parts|
  {
    if parts != [] {
      var first, rest := parts[0], parts[1..];
      forall i | 0 <= i < |rest| ensures |rest[i]| < Power(256, 4) { assert rest[i] == parts[i + 1]; }
      RoundTrip(rest);
      NumberOfBigEndian(|first|, 4);
      hide BigEndian, Number, Power, Fits;
      FirstPart(BigEndian(|first|, 4), first, Prefixed(rest));
      assert [first] + rest == parts;
    }
  }

  lemma FirstPart(size: Bytes, part: Bytes, rest: Bytes)
    requires |size| == 4 && Number(size) == |part|
    ensures Parts(size + part + rest) == if Parts(rest).None? then None else Some([part] + Parts(rest).value)
  {
    hide Number;
    var s := size + part + rest;
    assert s[..4] == size && s[4..4 + |part|] == part && s[4 + |part|..] == rest;
  }

  /** Lists that encode alike are alike, also when one is longer. */
  lemma PrefixedIsInjective(a: seq<Bytes>, b: seq<Bytes>)
    requires Fits(a) && Fits(b) && Prefixed(a) == Prefixed(b)
    ensures a == b
  {
    RoundTrip(a);
    RoundTrip(b);
  }

  function OutboundInput(grant: Bytes, seat: Bytes, intent: Bytes): Bytes {
    Prefixed([grant, seat, intent])
  }

  datatype Payload = Payload(body: Bytes, kind: Bytes, seat: Bytes, intent: Bytes, binding: Bytes, reason: Bytes,
    photo: Bytes)

  /** A photo hash is a further part; without a photo there is none. */
  function PayloadParts(p: Payload): seq<Bytes> {
    [p.body, p.kind, p.seat, p.intent, p.binding, p.reason] + if p.photo == [] then [] else [p.photo]
  }

  function PayloadInput(p: Payload): Bytes {
    Prefixed(PayloadParts(p))
  }

  /** What is hashed for an outbound id or a payload tells its arguments apart. */
  lemma OutboundInputsDiffer(grant: Bytes, seat: Bytes, intent: Bytes, grant': Bytes, seat': Bytes, intent': Bytes)
    requires Fits([grant, seat, intent]) && Fits([grant', seat', intent'])
    requires OutboundInput(grant, seat, intent) == OutboundInput(grant', seat', intent')
    ensures grant == grant' && seat == seat' && intent == intent'
  {
    var a, b := [grant, seat, intent], [grant', seat', intent'];
    PrefixedIsInjective(a, b);
    assert a[0] == b[0] && a[1] == b[1] && a[2] == b[2];
  }

  lemma PayloadInputsDiffer(p: Payload, q: Payload)
    requires Fits(PayloadParts(p)) && Fits(PayloadParts(q)) && PayloadInput(p) == PayloadInput(q)
    ensures p == q
  {
    var a, b := PayloadParts(p), PayloadParts(q);
    PrefixedIsInjective(a, b);
    assert a[0] == b[0] && a[1] == b[1] && a[2] == b[2] && a[3] == b[3] && a[4] == b[4] && a[5] == b[5];
    assert |a| == 7 ==> a[6] == b[6];
  }
}
