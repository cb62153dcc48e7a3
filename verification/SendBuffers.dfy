/** Per-thread send buffers: `SendBuffer::Reserve`, `SendBufferManager::Reserve` and `PacketWrapper::Serialize`. */
module SendBuffers {
  import opened Framing

  const MAX_BUFFER_SIZE := 0x1000

  function Zeros(n: nat): (z: seq<Byte>)
    ensures |z| == n
  {
    seq(n, _ => 0)
  }

  /** s with d written over it from position at on. */
  function Written(s: seq<Byte>, at: nat, d: seq<Byte>): seq<Byte>
    requires at + |d| <= |s|
  {
    s[..at] + d + s[at + |d|..]
  }

  lemma NothingWritten(s: seq<Byte>, at: nat)
    requires at <= |s|
    ensures Written(s, at, []) == s && Zeros(0) == []
  {
  }

  lemma OneMoreZero(n: nat)
    ensures |Zeros(n)| == n && Zeros(n) + [0] == Zeros(n + 1)
  {
  }

  lemma WrittenNext(s: seq<Byte>, at: nat, d: seq<Byte>, x: Byte)
    requires at + |d| < |s|
    ensures |Written(s, at, d)| == |s| && Written(s, at, d)[at + |d| := x] == Written(s, at, d + [x])
  {
  }

  /** What becomes of a reservation: it gets its place, or trips the size assertion, or leaves the buffer, after which
      nothing is promised. */
  datatype Outcome = Stored(at: nat) | Crashed | Overrun

  class SendBuffer {
    const bytes: array<Byte>
    var used: nat

    ghost predicate Valid()
      reads this
    {
      bytes.Length == MAX_BUFFER_SIZE && used <= MAX_BUFFER_SIZE
    }

    constructor ()
      ensures Valid() && used == 0 && fresh(bytes)
    {
      bytes := new Byte[MAX_BUFFER_SIZE](_ => 0);
      used := 0;
    }

    function FreeSize(): nat
      requires Valid()
      reads this
    {
      MAX_BUFFER_SIZE - used
    }

    /** Zero-fills the next `size` bytes and hands them out.  A request beyond the buffer size crashes, one beyond the
        free size is not noticed. */
    method Reserve(size: nat) returns (out: Outcome)
      requires Valid()
      modifies this`used, bytes
      ensures Valid()
      ensures out == if size > MAX_BUFFER_SIZE then Crashed
                     else if size > old(FreeSize()) then Overrun else Stored(old(used))
      ensures out.Crashed? ==> used == old(used) && bytes[..] == old(bytes[..])
      ensures out.Stored? ==> used == old(used) + size && bytes[..] == Written(old(bytes[..]), out.at, Zeros(size))
    {
      if size > MAX_BUFFER_SIZE { return Crashed; }
      if size > FreeSize() { return Overrun; }
      hide Written, Zeros;
      var i, at := 0, used;
      ghost var s := bytes[..];
      NothingWritten(s, at);
      while i < size
        invariant i <= size && used == at
        invariant |Zeros(i)| == i && bytes[..] == Written(s, at, Zeros(i))
      {
        OneMoreZero(i);
        WrittenNext(s, at, Zeros(i), 0);
        bytes[at + i] := 0;
        i := i + 1;
      }
      used := used + size;
      out := Stored(at);
    }
  }

  /** `memcpy` of data to a[at..]. */
  method Copy(a: array<Byte>, at: nat, data: seq<Byte>)
    requires at + |data| <= a.Length
    modifies a
    ensures a[..] == Written(old(a[..]), at, data)
  {
    hide Written;
    var i := 0;
    ghost var s := a[..];
    NothingWritten(s, at);
    while i < |data|
      invariant i <= |data|
      invariant a[..] == Written(s, at, data[..i])
    {
      WrittenNext(s, at, data[..i], data[i]);
      assert data[..i] + [data[i]] == data[..i + 1];
      a[at + i] := data[i];
      i := i + 1;
    }
    assert data[..i] == data;
  }

  /** How a packet with n payload bytes fares in a buffer with the given room. */
  function Fate(n: nat, room: nat, at: nat): Outcome {
    if SizeField(n) > MAX_BUFFER_SIZE then Crashed else if HEADER + n > room then Overrun else Stored(at)
  }

  /** Reserves room in b and writes header and payload there, and nothing anywhere else. */
  method WritePacket(b: SendBuffer, id: U16, data: seq<Byte>) returns (out: Outcome)
    requires b.Valid() && |data| < 0x1_0000
    modifies b`used, b.bytes
    ensures b.Valid() && out == Fate(|data|, old(b.FreeSize()), old(b.used))
    ensures out.Stored? ==> b.used == out.at + |Encode(Packet(id, data))|
    ensures out.Stored? ==> b.bytes[..] == Written(old(b.bytes[..]), out.at, Encode(Packet(id, data)))
    ensures out.Crashed? ==> b.used == old(b.used) && b.bytes[..] == old(b.bytes[..])
  {
    hide Encode, Written;
    var size := SizeField(|data|);
    ghost var s := b.bytes[..];
    EncodeIs(id, data);
    out := b.Reserve(size);
    if out.Stored? {
      if out.at + HEADER + |data| > MAX_BUFFER_SIZE { return Overrun; }
      var at, header := out.at, Bytes16(size) + Bytes16(id);
      Copy(b.bytes, at, header);
      Copy(b.bytes, at + HEADER, data);
      Layered(s, at, Zeros(size), header, data);
    }
  }

  /** Header and payload together cover the zeros. */
  lemma Layered(s: seq<Byte>, at: nat, zeros: seq<Byte>, header: seq<Byte>, data: seq<Byte>)
    requires at + |zeros| <= |s| && |zeros| == |header| + |data|
    ensures |Written(s, at, zeros)| == |s| && |Written(Written(s, at, zeros), at, header)| == |s|
    ensures Written(Written(Written(s, at, zeros), at, header), at + |header|, data) == Written(s, at, header + data)
  {
  }

  /** Reading back: what is below the written range is as before, and the range holds what was written. */
  lemma ReadBack(s: seq<Byte>, at: nat, d: seq<Byte>)
    requires at + |d| <= |s|
    ensures |Written(s, at, d)| == |s| && Written(s, at, d)[at..at + |d|] == d
    ensures forall i, j :: 0 <= i <= j <= at ==> Written(s, at, d)[i..j] == s[i..j]
  {
  }

  lemma EncodeIs(id: U16, data: seq<Byte>)
    ensures Encode(Packet(id, data)) == Bytes16(SizeField(|data|)) + Bytes16(id) + data
  {
  }

  /** A packet handed to the send path: where it was written, and its bytes. */
  datatype Packed = Packed(buf: SendBuffer, at: nat, data: seq<Byte>)

  ghost predicate Intact(w: Packed)
    reads w.buf, w.buf.bytes
  {
    w.buf.Valid() && w.at + |w.data| <= w.buf.used && w.buf.bytes[w.at..w.at + |w.data|] == w.data
  }

  /** b has its own memory, as every buffer does. */
  ghost predicate Owned(log: seq<Packed>, b: SendBuffer) {
    forall i :: 0 <= i < |log| && log[i].buf != b ==> log[i].buf.bytes != b.bytes
  }

  /** Writes a packet into b beside those already there: unless b is overrun, all of them stay intact, and the new one
      lies above theirs. */
  method WriteBeside(b: SendBuffer, id: U16, data: seq<Byte>, ghost log: seq<Packed>) returns (out: Outcome)
    requires b.Valid() && |data| < 0x1_0000 && Owned(log, b)
    modifies b`used, b.bytes
    ensures b.Valid() && out == Fate(|data|, old(b.FreeSize()), old(b.used))
    ensures out.Stored? ==> b.used == out.at + |Encode(Packet(id, data))|
    ensures out.Stored? ==> Intact(Packed(b, out.at, Encode(Packet(id, data))))
    ensures out.Crashed? ==> b.used == old(b.used) && b.bytes[..] == old(b.bytes[..])
    ensures !out.Overrun? ==> forall i :: 0 <= i < |log| && old(Intact(log[i])) ==> Intact(log[i])
    ensures forall i :: 0 <= i < |log| && old(Intact(log[i])) && log[i].buf == b ==>
              log[i].at + |log[i].data| <= old(b.used)
  {
    hide Encode, Written;
    ghost var s, d := b.bytes[..], Encode(Packet(id, data));
    out := WritePacket(b, id, data);
    if out.Overrun? { return; }
    if out.Stored? {
      ReadBack(s, out.at, d);
      assert b.bytes[out.at..out.at + |d|] == b.bytes[..][out.at..out.at + |d|] == d;
    }
    forall i | 0 <= i < |log| && old(Intact(log[i])) ensures Intact(log[i]) {
      if log[i].buf == b {
        var w := log[i];
        assert w.buf.bytes[w.at..w.at + |w.data|] == b.bytes[..][w.at..w.at + |w.data|];
        assert old(w.buf.bytes[w.at..w.at + |w.data|]) == s[w.at..w.at + |w.data|];
      }
    }
  }

  /** No two packets share a byte; within a buffer they lie in the order they were written. */
  ghost predicate Disjoint(log: seq<Packed>) {
    && (forall i, j :: 0 <= i < j < |log| && log[i].buf == log[j].buf ==> log[i].at + |log[i].data| <= log[j].at)
    && forall i, j :: 0 <= i < j < |log| && log[i].buf != log[j].buf ==> log[i].buf.bytes != log[j].buf.bytes
  }

  lemma DisjointAppend(log: seq<Packed>, w: Packed)
    requires Disjoint(log) && Owned(log, w.buf)
    requires forall i :: 0 <= i < |log| && log[i].buf == w.buf ==> log[i].at + |log[i].data| <= w.at
    ensures Disjoint(log + [w]) && Owned(log + [w], w.buf)
  {
  }

  /** A sending thread: its current buffer, and the packets it has serialized so far. */
  class Sender {
    var tls: SendBuffer // TLS_SendBuffer
    ghost var log: seq<Packed>

    /** Every packet serialized so far still reads as it was written, in a range that no other packet shares. */
    ghost predicate Valid()
      reads this, tls, set w | w in log :: w.buf
      reads set w | w in log :: w.buf.bytes
    {
      && tls.Valid()
      && (forall i :: 0 <= i < |log| ==> Intact(log[i]))
      && Disjoint(log) && Owned(log, tls)
    }

    constructor (b: SendBuffer)
      requires b.Valid()
      ensures Valid() && tls == b && log == []
    {
      tls := b;
      log := [];
    }

    /** `SendBufferManager::Reserve` without room in the current buffer: takes the popped one. */
    method Switch(popped: SendBuffer)
      requires Valid() && popped.Valid() && Owned(log, popped)
      modifies this`tls
      ensures Valid() && tls == popped
    {
      tls := popped;
    }

    /** Serializes into the current buffer.  `others` stands for packets of any threads, such as earlier users of the
        buffer: unless it is overrun, they stay as they are. */
    method Append(id: U16, data: seq<Byte>, ghost others: seq<Packed>) returns (out: Outcome)
      requires Valid() && |data| < 0x1_0000 && Owned(others, tls)
      modifies this`log, tls`used, tls.bytes
      ensures tls.Valid() && out == Fate(|data|, old(tls.FreeSize()), old(tls.used))
      ensures !out.Overrun? ==> Valid()
      ensures !out.Overrun? ==> forall i :: 0 <= i < |others| && old(Intact(others[i])) ==> Intact(others[i])
      ensures out.Stored? ==> tls.used == out.at + |Encode(Packet(id, data))|
      ensures out.Crashed? ==> tls.used == old(tls.used) && tls.bytes[..] == old(tls.bytes[..])
      ensures log == if out.Stored? then old(log) + [Packed(tls, out.at, Encode(Packet(id, data)))] else old(log)
    {
      hide Encode, Disjoint, Intact;
      ghost var all := log + others;
      assert forall i :: 0 <= i < |log| ==> all[i] == log[i];
      assert forall i :: 0 <= i < |others| ==> all[|log| + i] == others[i];
      out := WriteBeside(tls, id, data, all);
      if out.Stored? {
        ghost var w := Packed(tls, out.at, Encode(Packet(id, data)));
        DisjointAppend(log, w);
        log := log + [w];
      }
    }

    /** `PacketWrapper::Serialize` on top of `SendBufferManager::Reserve`.  `popped` is what the manager's pool gives,
        new or used before, by this thread or another.  No call changes a packet that an earlier call of any thread
        has written, unless it leaves its buffer; and a buffer that does not become the current one is not touched. */
    method Serialize(id: U16, data: seq<Byte>, popped: SendBuffer, ghost others: seq<Packed>) returns (out: Outcome)
      requires Valid() && popped.Valid() && |data| < 0x1_0000
      requires popped != tls ==> popped.bytes != tls.bytes
      requires Owned(log, popped) && Owned(others, tls) && Owned(others, popped)
      modifies this, tls`used, tls.bytes, popped`used, popped.bytes
      ensures tls == if SizeField(|data|) > old(tls.FreeSize()) then popped else old(tls)
      ensures var b := tls; tls.Valid() && out == Fate(|data|, old(b.FreeSize()), old(b.used))
      ensures !out.Overrun? ==> Valid()
      ensures !out.Overrun? ==> forall i :: 0 <= i < |others| && old(Intact(others[i])) ==> Intact(others[i])
      ensures out.Stored? ==> tls.used == out.at + |Encode(Packet(id, data))|
      ensures out.Crashed? ==> var b := tls; tls.used == old(b.used) && tls.bytes[..] == old(b.bytes[..])
      ensures forall b :: b in {old(tls), popped} && b != tls ==>
                b.used == old(b.used) && b.bytes[..] == old(b.bytes[..])
      ensures log == if out.Stored? then old(log) + [Packed(tls, out.at, Encode(Packet(id, data)))] else old(log)
    {
      hide Encode;
      if SizeField(|data|) > tls.FreeSize() {
        Switch(popped);
      }
      out := Append(id, data, others);
    }
  }

  /** Serializing leaves the buffer exactly if the size field wraps, or if the popped buffer has less room than the
      packet needs; up to 65531 bytes the current buffer never overruns, and only packets over 4096 bytes crash. */
  lemma OverrunsIff(n: nat, free: nat, room: nat, at: nat)
    requires n < 0x1_0000 && free <= MAX_BUFFER_SIZE && room <= MAX_BUFFER_SIZE
    ensures var r := if SizeField(n) > free then room else free;
            && (Fate(n, r, at).Overrun? <==> n > 65531 || (free < HEADER + n <= MAX_BUFFER_SIZE && room < HEADER + n))
            && (Fate(n, r, at).Crashed? <==> n <= 65531 && HEADER + n > MAX_BUFFER_SIZE)
  {
  }

  /** Nothing resets `_usedSize`, so that a buffer comes back from the pool as full as it was: two packets of 4000 bytes
      fill buffers a and b, a is popped again, and a packet of 100 bytes is written past its end. */
  method RecycledBufferOverruns() returns (first: Outcome, second: Outcome, third: Outcome)
    ensures first == Stored(0) && second == Stored(0) && third == Overrun
  {
    hide Encode, Disjoint, Written, Intact;
    var a := new SendBuffer();
    var b := new SendBuffer();
    var s := new Sender(a);
    EncodeIs(1, Repeated(4000));
    first := s.Serialize(1, Repeated(4000), b, []);
    assert s.tls == a && a.used == 4004 && b.used == 0;
    second := s.Serialize(1, Repeated(4000), b, []);
    assert s.tls == b && a.used == 4004 && b.used == 4004;
    third := s.Serialize(1, Repeated(100), a, []);
  }

  function Repeated(n: nat): (data: seq<Byte>)
    ensures |data| == n
  {
    seq(n, _ => 1)
  }
}
