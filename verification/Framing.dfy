/** Packet framing: `[size, 2 bytes][id, 2 bytes][data]`, least significant byte first, and the receive loop. */
module Framing {

  type Byte = b: int | 0 <= b < 0x100
  type U16 = x: int | 0 <= x < 0x1_0000

  const HEADER := 4 // sizeof(PacketHeader)

  datatype Packet = Packet(id: U16, payload: seq<Byte>)

  /** The 16-bit size field of a packet with n payload bytes. */
  function SizeField(n: nat): U16 {
    (HEADER + n) % 0x1_0000
  }

  function Bytes16(x: U16): seq<Byte> {
    [x % 0x100, x / 0x100]
  }

  function Encode(p: Packet): seq<Byte> {
    Bytes16(SizeField(|p.payload|)) + Bytes16(p.id) + p.payload
  }

  /** The packet's total size fits the size field. */
  predicate Fits(p: Packet) {
    HEADER + |p.payload| < 0x1_0000
  }

  ghost predicate AllFit(ps: seq<Packet>) {
    forall i :: 0 <= i < |ps| ==> Fits(ps[i])
  }

  /** The packets of ps one after the other. */
  function Wire(ps: seq<Packet>): seq<Byte> {
    if ps == [] then [] else Encode(ps[0]) + Wire(ps[1..])
  }

  // ---- Receiving ---------------------------------------------------------------------------------------

  predicate HasHeader(b: seq<Byte>, pos: int) {
    0 <= pos && pos + HEADER <= |b|
  }

  function SizeAt(b: seq<Byte>, pos: int): U16
    requires HasHeader(b, pos)
  {
    (b[pos] as int) + 0x100 * (b[pos + 1] as int)
  }

  function IdAt(b: seq<Byte>, pos: int): U16
    requires HasHeader(b, pos)
  {
    (b[pos + 2] as int) + 0x100 * (b[pos + 3] as int)
  }

  /** The next header is whole and moves the loop on. */
  predicate Goes(b: seq<Byte>, pos: int) {
    HasHeader(b, pos) && SizeAt(b, pos) > 0
  }

  /** From pos on, the receive loop meets whole headers with a nonzero size until it leaves the buffer. */
  predicate Framed(b: seq<Byte>, pos: nat)
    decreases |b| - pos
  {
    pos >= |b| || (Goes(b, pos) && Framed(b, pos + SizeAt(b, pos)))
  }

  /** One call of `OnRecvPacket`: the packet id, and where its payload starts. */
  datatype Dispatch = Dispatch(id: U16, offset: nat)

  function Dispatches(b: seq<Byte>, pos: nat): seq<Dispatch>
    decreases |b| - pos
  {
    if pos >= |b| || !Goes(b, pos) then []
    else [Dispatch(IdAt(b, pos), pos + HEADER)] + Dispatches(b, pos + SizeAt(b, pos))
  }

  /** Where following the headers ends. */
  function EndOf(b: seq<Byte>, pos: nat): nat
    decreases |b| - pos
  {
    if pos >= |b| || !Goes(b, pos) then pos else EndOf(b, pos + SizeAt(b, pos))
  }

  /** How the receive loop ends: it returns, or it reads a header beyond the received bytes, or it meets a size of 0
      and never moves on. */
  datatype Outcome = Returned | ReadsPastEnd | Spins

  /** The loop of `PacketSession::OnRecv`, on any bytes: how it ends, where, and the packets dispatched on the way
      there. */
  method OnRecv(buffer: seq<Byte>) returns (out: Outcome, processed: nat, calls: seq<Dispatch>)
    ensures processed == EndOf(buffer, 0) && calls == Dispatches(buffer, 0)
    ensures out == Returned <==> Framed(buffer, 0)
    ensures out == Returned <==> processed >= |buffer|
    ensures out == ReadsPastEnd <==> processed < |buffer| && !HasHeader(buffer, processed)
    ensures out == Spins <==> processed < |buffer| && HasHeader(buffer, processed) && SizeAt(buffer, processed) == 0
  {
    out, processed, calls := Returned, 0, [];
    while processed < |buffer|
      invariant Framed(buffer, processed) <==> Framed(buffer, 0)
      invariant EndOf(buffer, processed) == EndOf(buffer, 0)
      invariant calls + Dispatches(buffer, processed) == Dispatches(buffer, 0)
      decreases |buffer| - processed
    {
      if !HasHeader(buffer, processed) { return ReadsPastEnd, processed, calls; }
      var size, id := SizeAt(buffer, processed), IdAt(buffer, processed);
      if size == 0 { return Spins, processed, calls; }
      calls := calls + [Dispatch(id, processed + HEADER)];
      processed := processed + size;
    }
  }

  // ---- Round trip -----------------------------------------------------------------------------------------

  /** Ids and payload offsets of packets laid out from `pos` on. */
  function Layout(ps: seq<Packet>, pos: nat): seq<Dispatch> {
    if ps == [] then []
    else [Dispatch(ps[0].id, pos + HEADER)] + Layout(ps[1..], pos + HEADER + |ps[0].payload|)
  }

  lemma EncodeHeader(pre: seq<Byte>, p: Packet, post: seq<Byte>)
    requires Fits(p)
    ensures var b := pre + Encode(p) + post;
            && HasHeader(b, |pre|) && SizeAt(b, |pre|) == |Encode(p)| == HEADER + |p.payload| && IdAt(b, |pre|) == p.id
            && b[|pre| + HEADER..|pre| + |Encode(p)|] == p.payload
  {
    var b := pre + Encode(p) + post;
    var size := SizeField(|p.payload|);
    assert b[|pre|] == size % 0x100 && b[|pre| + 1] == size / 0x100;
    assert b[|pre| + 2] == p.id % 0x100 && b[|pre| + 3] == p.id / 0x100;
  }

  lemma {:induction false} ParsesWire(pre: seq<Byte>, ps: seq<Packet>)
    requires AllFit(ps)
    ensures var b := pre + Wire(ps);
            && Framed(b, |pre|) && EndOf(b, |pre|) == |b| && Dispatches(b, |pre|) == Layout(ps, |pre|)
    decreases |ps|
  {
    hide Encode, SizeAt, IdAt;
    var b := pre + Wire(ps);
    if ps != [] {
      var head, rest := Encode(ps[0]), Wire(ps[1..]);
      EncodeHeader(pre, ps[0], rest);
      assert b == pre + head + rest;
      ParsesWire(pre + head, ps[1..]);
      assert Framed(b, |pre| + |head|);
    }
  }

  /** For every list of packets that fit, the receive loop ends after exactly the bytes sent and dispatches
      exactly the ids sent, at exactly the offsets of their payloads, in order. */
  lemma RoundTrip(ps: seq<Packet>)
    requires AllFit(ps)
    ensures Framed(Wire(ps), 0) && EndOf(Wire(ps), 0) == |Wire(ps)| && Dispatches(Wire(ps), 0) == Layout(ps, 0)
  {
    ParsesWire([], ps);
    assert [] + Wire(ps) == Wire(ps);
  }

  lemma {:induction false} LayoutPoints(pre: seq<Byte>, ps: seq<Packet>, i: nat)
    requires AllFit(ps) && i < |ps|
    ensures |Layout(ps, |pre|)| == |ps|
    ensures var b, d := pre + Wire(ps), Layout(ps, |pre|)[i];
            && d.id == ps[i].id && d.offset + |ps[i].payload| <= |b|
            && b[d.offset..d.offset + |ps[i].payload|] == ps[i].payload
    decreases i
  {
    hide Encode, SizeAt, IdAt;
    var head, rest := Encode(ps[0]), Wire(ps[1..]);
    EncodeHeader(pre, ps[0], rest);
    assert pre + Wire(ps) == pre + head + rest;
    LayoutLength(ps, |pre|);
    if i > 0 {
      LayoutPoints(pre + head, ps[1..], i - 1);
    }
  }

  lemma {:induction false} LayoutLength(ps: seq<Packet>, pos: nat)
    ensures |Layout(ps, pos)| == |ps|
  {
    if ps != [] { LayoutLength(ps[1..], pos + HEADER + |ps[0].payload|); }
  }

  /** Each dispatched offset points at the payload that was sent. */
  lemma DispatchesPointAtPayloads(ps: seq<Packet>, i: nat)
    requires AllFit(ps) && i < |ps|
    ensures Framed(Wire(ps), 0) && |Dispatches(Wire(ps), 0)| == |ps|
    ensures var d := Dispatches(Wire(ps), 0)[i];
            && d.id == ps[i].id && d.offset + |ps[i].payload| <= |Wire(ps)|
            && Wire(ps)[d.offset..d.offset + |ps[i].payload|] == ps[i].payload
  {
    RoundTrip(ps);
    LayoutPoints([], ps, i);
    assert [] + Wire(ps) == Wire(ps);
  }

  lemma WireEmpty(ps: seq<Packet>)
    ensures Wire(ps) == [] <==> ps == []
  {
  }

  lemma FirstPacketSame(p: Packet, rest: seq<Byte>, q: Packet, rest': seq<Byte>)
    requires Fits(p) && Fits(q) && Encode(p) + rest == Encode(q) + rest'
    ensures p == q && rest == rest'
  {
    EncodeHeader([], p, rest);
    EncodeHeader([], q, rest');
    hide Encode, SizeAt, IdAt;
    assert [] + Encode(p) + rest == Encode(p) + rest && [] + Encode(q) + rest' == Encode(q) + rest';
    assert rest == (Encode(p) + rest)[|Encode(p)|..] && rest' == (Encode(q) + rest')[|Encode(q)|..];
  }

  /** Different packet lists have different bytes. */
  lemma {:induction false} WireInjective(ps: seq<Packet>, qs: seq<Packet>)
    requires AllFit(ps) && AllFit(qs) && Wire(ps) == Wire(qs)
    ensures ps == qs
  {
    if ps != [] && qs != [] {
      FirstPacketSame(ps[0], Wire(ps[1..]), qs[0], Wire(qs[1..]));
      hide Encode;
      WireInjective(ps[1..], qs[1..]);
      assert ps == [ps[0]] + ps[1..] && qs == [qs[0]] + qs[1..];
    } else {
      WireEmpty(ps);
      WireEmpty(qs);
    }
  }

  /** From pos on, b consists of whole packets: whole headers, sizes that include the header, and an exact end. */
  predicate Whole(b: seq<Byte>, pos: nat)
    decreases |b| - pos
  {
    pos == |b| || (HasHeader(b, pos) && SizeAt(b, pos) >= HEADER && Whole(b, pos + SizeAt(b, pos)))
  }

  /** Two bytes are determined by the number they make. */
  lemma Bytes16Of(x: Byte, y: Byte)
    ensures x + 0x100 * y < 0x1_0000 && Bytes16(x + 0x100 * y) == [x, y]
  {
  }

  /** The packet at pos. */
  lemma PacketAt(b: seq<Byte>, pos: nat) returns (p: Packet)
    requires HasHeader(b, pos) && HEADER <= SizeAt(b, pos) <= |b| - pos
    ensures Fits(p) && Encode(p) == b[pos..pos + SizeAt(b, pos)]
  {
    var n := SizeAt(b, pos);
    p := Packet(IdAt(b, pos), b[pos + HEADER..pos + n]);
    Bytes16Of(b[pos], b[pos + 1]);
    Bytes16Of(b[pos + 2], b[pos + 3]);
    assert SizeField(|p.payload|) == n;
    assert b[pos..pos + n] == [b[pos], b[pos + 1]] + [b[pos + 2], b[pos + 3]] + b[pos + HEADER..pos + n];
  }

  lemma WholeEnds(b: seq<Byte>, pos: nat)
    requires Whole(b, pos)
    ensures pos <= |b|
    decreases |b| - pos
  {
  }

  /** Bytes in whole packets are the bytes of some packets. */
  lemma {:induction false} PacketsOf(b: seq<Byte>, pos: nat) returns (ps: seq<Packet>)
    requires Whole(b, pos)
    ensures pos <= |b| && AllFit(ps) && Wire(ps) == b[pos..]
    decreases |b| - pos
  {
    if pos == |b| {
      ps := [];
    } else {
      var next := pos + SizeAt(b, pos);
      WholeEnds(b, next);
      var p := PacketAt(b, pos);
      var rest := PacketsOf(b, next);
      hide Encode, SizeAt, IdAt;
      ps := [p] + rest;
      assert ps[1..] == rest;
      assert b[pos..] == b[pos..next] + b[next..];
    }
  }

  lemma {:induction false} WireIsWhole(pre: seq<Byte>, ps: seq<Packet>)
    requires AllFit(ps)
    ensures Whole(pre + Wire(ps), |pre|)
    decreases |ps|
  {
    hide Encode, SizeAt, IdAt;
    if ps != [] {
      var head, rest := Encode(ps[0]), Wire(ps[1..]);
      EncodeHeader(pre, ps[0], rest);
      assert pre + Wire(ps) == pre + head + rest;
      WireIsWhole(pre + head, ps[1..]);
    }
  }

  /** The receive loop is given what some sender could have sent, exactly if its bytes are in whole packets. */
  lemma SentIffWhole(b: seq<Byte>)
    ensures Whole(b, 0) <==> exists ps :: AllFit(ps) && Wire(ps) == b
  {
    if Whole(b, 0) {
      var ps := PacketsOf(b, 0);
      assert b[0..] == b;
    }
    if ps :| AllFit(ps) && Wire(ps) == b {
      WireIsWhole([], ps);
      assert [] + Wire(ps) == b;
    }
  }

  /** Four zero bytes keep the loop for ever, and a single byte makes it read past the end. */
  method BadInputs() returns (zeros: Outcome, short: Outcome)
    ensures zeros == Spins && short == ReadsPastEnd
  {
    var end, calls;
    zeros, end, calls := OnRecv([0, 0, 0, 0]);
    short, end, calls := OnRecv([1]);
  }

  /** The layout of the wire: total size, then id, both with the low byte first, then the payload. */
  lemma WireExample()
    ensures Encode(Packet(0x0201, [7, 8, 9])) == [7, 0, 0x01, 0x02, 7, 8, 9]
    ensures |Encode(Packet(1, seq(0x0300, _ => 0)))| == 0x0304
    ensures Encode(Packet(1, seq(0x0300, _ => 0)))[..4] == [0x04, 0x03, 0x01, 0x00]
  {
  }

  /** The size field tells the truth exactly up to 65531 payload bytes; beyond that it is too small. */
  lemma SizeFieldExact(n: nat)
    ensures SizeField(n) == HEADER + n <==> n <= 65531
  {
  }
}
