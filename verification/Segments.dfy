/**
 Acknowledgement bitmaps, and the coalesced buffers a window of datagrams is sent in.
 */
module Segments {
  import opened Graph
  import opened Blocks
  import opened UdpServer
  import opened UdpProtocol
  import opened UdpSender
  import Wire

  // ---- Bitmaps ----

  function Pow2(i: nat): nat
    requires i < 8
  {
    [1, 2, 4, 8, 16, 32, 64, 128][i]
  }

  predicate HasBit(b: byte, i: nat)
    requires i < 8
  {
    b / Pow2(i) % 2 == 1
  }

  lemma SplitBit(b: byte, i: nat)
    requires i < 8
    ensures !HasBit(b, i) ==> b + Pow2(i) < 256
    ensures !HasBit(b, i) ==> HasBit(b + Pow2(i), i)
  {
    if !HasBit(b, i) {
      FreeBit(b, Pow2(i), [128, 64, 32, 16, 8, 4, 2, 1][i]);
    }
  }

  lemma FreeBit(b: byte, p: nat, k: nat)
    requires p > 0 && k * (2 * p) == 256 && b / p % 2 == 0
    ensures b + p < 256 && (b + p) / p % 2 == 1
  {
    var u, r := b / p / 2, b % p;
    assert b == p * (2 * u) + r;
    Double(p, u);
    if u >= k { Scale(k, u, 2 * p); } else { Scale(u + 1, k, 2 * p); }
    DivUnique(b + p, p, 2 * u + 1, r);
  }

  lemma Double(p: nat, u: nat)
    ensures p * (2 * u) == u * (2 * p) && p * (2 * u + 1) == u * (2 * p) + p
    ensures (u + 1) * (2 * p) == u * (2 * p) + 2 * p
  {
  }

  function SetBit(b: byte, i: nat): byte
    requires i < 8
  {
    SplitBit(b, i);
    if HasBit(b, i) then b else b + Pow2(i)
  }

  /** Or-ing one bit in sets that bit and no other. */
  lemma SetBitSets(b: byte, i: nat, j: nat)
    requires i < 8 && j < 8
    ensures HasBit(SetBit(b, i), j) == (i == j || HasBit(b, j))
  {
    SplitBit(b, i);
    if !HasBit(b, i) && i != j {
      OtherBit(b, i, j);
    }
  }

  lemma OtherBit(b: byte, i: nat, j: nat)
    requires i < 8 && j < 8 && i != j && b / Pow2(i) % 2 == 0
    ensures (b + Pow2(i)) / Pow2(j) % 2 == b / Pow2(j) % 2
  {
    hide Pow2;
    if i < j {
      var m := Ratio(i, j);
      LowerBit(b, Pow2(i), Pow2(j), m);
    } else {
      var h := Ratio(j, i);
      Swap(Pow2(j), h);
      HigherBit(b, Pow2(i), Pow2(j), h);
    }
  }

  lemma Swap(p: nat, h: nat)
    ensures 2 * p * h == p * (2 * h)
  {
  }

  lemma NextPow(i: nat)
    requires i < 7
    ensures Pow2(i) > 0 && Pow2(i + 1) == 2 * Pow2(i)
  {
  }

  /** A higher power is an even multiple of a lower one. */
  lemma {:induction false} Ratio(i: nat, j: nat) returns (m: nat)
    requires i < j < 8
    ensures Pow2(i) > 0 && m > 0 && Pow2(j) == 2 * Pow2(i) * m
    decreases j
  {
    hide Pow2;
    NextPow(i);
    m := 1;
    if i + 1 < j {
      var n := Ratio(i, j - 1);
      NextPow(j - 1);
      m := 2 * n;
      Swap(Pow2(i), n);
      assert 2 * (2 * Pow2(i) * n) == 2 * Pow2(i) * (2 * n);
    }
  }

  lemma LowerBit(b: byte, p: nat, q: nat, m: nat)
    requires p > 0 && m > 0 && q == 2 * p * m && b / p % 2 == 0
    ensures (b + p) / q == b / q
  {
    var d, u, r := 2 * p, b / p / 2, b % p;
    assert b == d * u + r;
    DivUnique(b, d, u, r);
    DivUnique(b + p, d, u, r + p);
    DivDiv(b, d, m);
    DivDiv(b + p, d, m);
  }

  lemma DivDiv(n: nat, d: nat, m: nat)
    requires d > 0 && m > 0
    ensures d * m > 0 && n / (d * m) == n / d / m
  {
    var u, r := n / d, n % d;
    var x, y := u / m, u % m;
    Compose(n, d, m, u, r, x, y);
    DivUnique(n, d * m, x, d * y + r);
  }

  lemma Compose(n: nat, d: nat, m: nat, u: nat, r: nat, x: nat, y: nat)
    requires n == d * u + r && r < d && u == m * x + y && y < m
    ensures d * m > 0 && n == d * m * x + (d * y + r) && d * y + r < d * m
  {
    Regroup(d, m, x, y, r);
    Scale(y + 1, m, d);
    assert d * m == m * d && d * y == y * d;
  }

  lemma Regroup(d: nat, m: nat, x: nat, y: nat, r: nat)
    ensures d * (m * x + y) + r == d * m * x + (d * y + r)
  {
  }

  lemma HigherBit(b: byte, p: nat, q: nat, h: nat)
    requires q > 0 && p == q * (2 * h)
    ensures (b + p) / q % 2 == b / q % 2
  {
    HigherQuotient(b, p, q, 2 * h);
    EvenShift(b / q, h);
  }

  lemma HigherQuotient(b: nat, p: nat, q: nat, y: nat)
    requires q > 0 && p == q * y
    ensures (b + p) / q == b / q + y
  {
    var x, r := b / q, b % q;
    Distribute(q, x, y);
    DivUnique(b + p, q, x + y, r);
  }

  lemma EvenShift(x: nat, h: nat)
    ensures (x + 2 * h) % 2 == x % 2
  {
  }

  lemma Distribute(q: nat, x: nat, y: nat)
    ensures q * (x + y) == q * x + q * y
  {
  }

  lemma DivUnique(n: nat, q: nat, x: nat, r: nat)
    requires q > 0 && n == q * x + r && r < q
    ensures n / q == x
  {
    var y := n / q;
    assert n == q * y + n % q;
    if x < y { Scale(x + 1, y, q); } else if y < x { Scale(y + 1, x, q); }
  }

  predicate Contains(bitmap: seq<byte>, index: nat)
    requires |bitmap| == 32
  {
    index < ACK_BITS && HasBit(bitmap[index / 8], index % 8)
  }

  /** Bit `i` of a byte, the least significant first. */
  predicate BitOf(b: byte, i: nat)
    requires i < 8
  {
    (b as nat) / (if i == 0 then 1 else if i == 1 then 2 else if i == 2 then 4 else if i == 3 then 8
                  else if i == 4 then 16 else if i == 5 then 32 else if i == 6 then 64 else 128) % 2 == 1
  }

  lemma BitsAre(b: byte, i: nat)
    requires i < 8
    ensures HasBit(b, i) <==> BitOf(b, i)
  {
  }

  /** The three parts of an ACK or NACK payload. */
  function ParseBitmap(payload: seq<byte>): Option<(nat, seq<byte>, nat)> {
    if |payload| != 38 then None
    else Some((Wire.FromBytes(payload[..4]), payload[4..36], Wire.FromBytes(payload[36..38])))
  }

  /** Whatever the flags, what is parsed back is the base, exactly the first 256 flags, and the clamped window. */
  method BitmapPayload(base: Wire.U32, bits: seq<bool>, window: nat) returns (payload: seq<byte>)
    ensures ParseBitmap(payload).Some? && |payload| == 38
    ensures ParseBitmap(payload).value.0 == base && ParseBitmap(payload).value.2 == Least(window, 65535)
    ensures forall i: nat :: Contains(ParseBitmap(payload).value.1, i) <==> i < ACK_BITS && i < |bits| && bits[i]
    ensures Wire.Four(payload, 0, base) && Wire.Two(payload, 36, if window <= 65535 then window else 65535)
    ensures forall i: nat | i < 256 :: BitOf(payload[4 + i / 8], i % 8) <==> i < |bits| && bits[i]
  {
    var bitmap: seq<byte> := seq(32, _ => 0);
    var n := Least(|bits|, ACK_BITS);
    for index := 0 to n
      invariant |bitmap| == 32
      invariant forall i: nat | i < ACK_BITS :: HasBit(bitmap[i / 8], i % 8) <==> i < index && bits[i]
    {
      if bits[index] {
        ghost var before := bitmap;
        bitmap := bitmap[index / 8 := SetBit(bitmap[index / 8], index % 8)];
        forall i: nat | i < ACK_BITS ensures HasBit(bitmap[i / 8], i % 8) <==> i == index || HasBit(before[i / 8], i % 8) {
          if i / 8 == index / 8 { SetBitSets(before[i / 8], index % 8, i % 8); }
        }
      }
    }
    payload := Wire.ToBytes(base, 4) + bitmap + Wire.ToBytes(Least(window, 65535), 2);
    hide HasBit, BitOf;
    ParsedBack(base, bitmap, Least(window, 65535), payload);
    forall i: nat | i < 256 ensures BitOf(payload[4 + i / 8], i % 8) <==> i < |bits| && bits[i] {
      BitsAre(bitmap[i / 8], i % 8);
      assert HasBit(bitmap[i / 8], i % 8) <==> i < n && bits[i];
    }
  }

  lemma ParsedBack(base: Wire.U32, bitmap: seq<byte>, window: nat, payload: seq<byte>)
    requires |bitmap| == 32 && window < 0x1_0000 && payload == Wire.ToBytes(base, 4) + bitmap + Wire.ToBytes(window, 2)
    ensures |payload| == 38 && ParseBitmap(payload) == Some((base, bitmap, window))
    ensures Wire.Four(payload, 0, base) && Wire.Two(payload, 36, window)
    ensures forall k: nat | k < 32 :: payload[4 + k] == bitmap[k]
  {
    Wire.Widths();
    hide Wire.FromBytes, Wire.ToBytes, Wire.Pow256, Wire.Four, Wire.Two;
    Wire.FromTo(base, 4);
    Wire.FromTo(window, 2);
    NumbersAround(payload, base, bitmap, window);
    assert payload[..4] == Wire.ToBytes(base, 4) && payload[4..36] == bitmap && payload[36..38] == Wire.ToBytes(window, 2);
  }

  lemma NumbersAround(payload: seq<byte>, base: Wire.U32, bitmap: seq<byte>, window: nat)
    requires |bitmap| == 32 && window < 0x1_0000 && payload == Wire.ToBytes(base, 4) + bitmap + Wire.ToBytes(window, 2)
    ensures Wire.Four(payload, 0, base) && Wire.Two(payload, 36, window)
  {
    assert payload[0..4] == Wire.ToBytes(base, 4) && payload[36..38] == Wire.ToBytes(window, 2);
    Wire.FourAt(payload, 0, base);
    Wire.TwoAt(payload, 36, window);
  }

  // ---- Coalesced buffers ----

  const MAX_GSO_SEGMENTS: nat := 64
  const MAX_GSO_BYTES: nat := 65535

  function MaxSegments(segment: nat): (r: nat)
    requires 0 < segment <= MAX_GSO_BYTES
    ensures 0 < r <= MAX_GSO_SEGMENTS && r * segment <= MAX_GSO_BYTES
    ensures r < MAX_GSO_SEGMENTS ==> (r + 1) * segment > MAX_GSO_BYTES
  {
    var byBytes := MAX_GSO_BYTES / segment;
    assert byBytes * segment + MAX_GSO_BYTES % segment == MAX_GSO_BYTES;
    if byBytes < MAX_GSO_SEGMENTS then byBytes
    else
      Scale(MAX_GSO_SEGMENTS, byBytes, segment);
      MAX_GSO_SEGMENTS
  }

  /** Splitting a received buffer at the segment size. */
  function Chunks(s: seq<byte>, segment: nat): seq<seq<byte>>
    requires segment > 0
  {
    if s == [] then [] else if |s| <= segment then [s] else [s[..segment]] + Chunks(s[segment..], segment)
  }

  function Joined(wires: seq<seq<byte>>): seq<byte> {
    if wires == [] then [] else wires[0] + Joined(wires[1..])
  }

  /** Only the final datagram may be short. */
  predicate Segmented(wires: seq<seq<byte>>, segment: nat) {
    && (forall i | 0 <= i < |wires| - 1 :: |wires[i]| == segment)
    && (wires != [] ==> 0 < |wires[|wires| - 1]| <= segment)
  }

  /** A coalesced buffer splits back into exactly the datagrams it was made of. */
  lemma {:induction false} ChunksOfJoined(wires: seq<seq<byte>>, segment: nat)
    requires segment > 0 && Segmented(wires, segment)
    ensures Chunks(Joined(wires), segment) == wires
  {
    if wires == [] {
    } else if |wires| == 1 {
      assert wires[1..] == [];
      assert Joined(wires) == wires[0];
      assert wires == [wires[0]];
    } else {
      var tail := wires[1..];
      assert forall i | 0 <= i < |tail| :: tail[i] == wires[i + 1];
      ChunksOfJoined(tail, segment);
      assert tail[0] == wires[1];
      NonEmpty(tail, segment);
      FirstChunk(wires[0], Joined(tail), segment);
      assert wires == [wires[0]] + tail;
    }
  }

  lemma FirstChunk(first: seq<byte>, rest: seq<byte>, segment: nat)
    requires segment > 0 && |first| == segment && rest != []
    ensures Chunks(first + rest, segment) == [first] + Chunks(rest, segment)
  {
    var s := first + rest;
    assert s[..segment] == first && s[segment..] == rest;
  }

  lemma {:induction false} JoinedLength(wires: seq<seq<byte>>, segment: nat)
    requires forall i | 0 <= i < |wires| :: |wires[i]| <= segment
    ensures |Joined(wires)| <= |wires| * segment
  {
    if wires != [] {
      JoinedLength(wires[1..], segment);
      Scale(|wires| - 1, |wires| - 1, segment);
    }
  }

  lemma NonEmpty(wires: seq<seq<byte>>, segment: nat)
    requires segment > 0 && Segmented(wires, segment) && wires != []
    ensures Joined(wires) != []
  {
  }

  lemma {:induction false} JoinedAppend(a: seq<seq<byte>>, w: seq<byte>)
    ensures Joined(a + [w]) == Joined(a) + w
  {
    if a == [] {
      assert a + [w] == [w] && [w][1..] == [];
    } else {
      JoinedAppend(a[1..], w);
      assert (a + [w])[1..] == a[1..] + [w];
    }
  }

  function AllChunks(batches: seq<seq<byte>>, segment: nat): seq<seq<byte>>
    requires segment > 0
  {
    if batches == [] then [] else AllChunks(batches[..|batches| - 1], segment) + Chunks(batches[|batches| - 1], segment)
  }

  lemma AllChunksAppend(batches: seq<seq<byte>>, b: seq<byte>, segment: nat)
    requires segment > 0
    ensures AllChunks(batches + [b], segment) == AllChunks(batches, segment) + Chunks(b, segment)
  {
    assert (batches + [b])[..|batches|] == batches;
  }

  predicate WithinLimits(batches: seq<seq<byte>>, segment: nat)
    requires segment > 0
  {
    forall i | 0 <= i < |batches| :: |batches[i]| <= MAX_GSO_BYTES && |Chunks(batches[i], segment)| <= MAX_GSO_SEGMENTS
  }

  /**
   Coalesces datagrams into buffers. Split at the segment size, the buffers give back exactly
   the datagrams, in order; each buffer respects the byte and the segment limit.
   */
  method Coalesce(wires: seq<seq<byte>>, segment: nat) returns (batches: seq<seq<byte>>)
    requires 0 < segment <= MAX_GSO_BYTES && Segmented(wires, segment)
    ensures AllChunks(batches, segment) == wires && WithinLimits(batches, segment)
  {
    hide MaxSegments, Joined, AllChunks, Chunks, WithinLimits, Segmented;
    var limit := MaxSegments(segment);
    batches := [];
    NothingSent(segment);
    var encoded: seq<byte>, segments := [], 0;
    for i := 0 to |wires|
      invariant segments < limit && segments <= i
      invariant AllChunks(batches, segment) == wires[..i - segments] && WithinLimits(batches, segment)
      invariant encoded == Joined(wires[i - segments..i])
    {
      ghost var from := i - segments;
      assert wires[from..i + 1] == wires[from..i] + [wires[i]];
      JoinedAppend(wires[from..i], wires[i]);
      encoded, segments := encoded + wires[i], segments + 1;
      if segments == limit {
        Flush(wires, batches, from, i + 1, segment);
        batches := batches + [encoded];
        encoded, segments := [], 0;
        assert wires[i + 1..i + 1] == [];
      }
    }
    if segments > 0 {
      Flush(wires, batches, |wires| - segments, |wires|, segment);
      batches := batches + [encoded];
    }
    assert wires[..|wires|] == wires;
  }

  lemma NothingSent(segment: nat)
    requires segment > 0
    ensures AllChunks([], segment) == [] && WithinLimits([], segment) && Joined([]) == []
  {
  }

  lemma Flush(wires: seq<seq<byte>>, batches: seq<seq<byte>>, from: nat, to: nat, segment: nat)
    requires 0 < segment <= MAX_GSO_BYTES && Segmented(wires, segment) && from < to <= |wires|
    requires to - from <= MaxSegments(segment)
    requires AllChunks(batches, segment) == wires[..from] && WithinLimits(batches, segment)
    ensures AllChunks(batches + [Joined(wires[from..to])], segment) == wires[..to]
    ensures WithinLimits(batches + [Joined(wires[from..to])], segment)
  {
    hide MaxSegments, Chunks, AllChunks, Joined;
    var part := wires[from..to];
    assert Segmented(part, segment);
    ChunksOfJoined(part, segment);
    JoinedLength(part, segment);
    AllChunksAppend(batches, Joined(part), segment);
    assert wires[..to] == wires[..from] + part;
    Scale(to - from, MaxSegments(segment), segment);
  }

  // ---- The sender's datagrams ----

  /** Only the payload's final packet is short. */
  lemma FullUnlessLast(sd: Sender, q: nat)
    requires sd.packet > 0 && q < Packets(sd)
    ensures q + 1 < Packets(sd) ==> End(sd, q) - Begin(sd, q) == sd.packet
    ensures 0 < End(sd, q) - Begin(sd, q) <= sd.packet
  {
    Tiles(sd, q);
    Scale(q, q, sd.packet);
    if q + 1 < Packets(sd) {
      Tiles(sd, q + 1);
    }
  }

  /** Numbers and offsets fit their fields, and a full packet its datagram; otherwise encoding fails. */
  predicate Encodable(sd: Sender, header: Wire.Packet) {
    && sd.packet > 0 && Wire.HEADER_LEN + sd.packet <= Wire.MAX_DATAGRAM
    && Packets(sd) <= 0x1_0000_0000 && header.offset + |sd.payload| < 0x1_0000_0000_0000_0000
  }

  /** DATA packet number `q` of a transfer whose other fields are those of `header`. */
  function DataPacket(sd: Sender, header: Wire.Packet, q: nat): Wire.Packet
    requires Encodable(sd, header) && q < Packets(sd)
  {
    Tiles(sd, q);
    header.(kind := Wire.DataKind, sequence := q, offset := header.offset + Begin(sd, q), payload := sd.payload[Begin(sd, q)..End(sd, q)])
  }

  function DataWire(sd: Sender, header: Wire.Packet, k: Wire.Crypto, q: nat): (w: seq<byte>)
    requires Encodable(sd, header) && q < Packets(sd)
    ensures |w| == Wire.HEADER_LEN + (End(sd, q) - Begin(sd, q))
    ensures Wire.Decode(w, k) == Some(DataPacket(sd, header, q))
  {
    Tiles(sd, q);
    FullUnlessLast(sd, q);
    var p := DataPacket(sd, header, q);
    Wire.EncodedLength(p, k);
    Wire.DecodeEncode(p, k);
    Wire.Encode(p, k).value
  }

  /** The datagrams of a round: the encodings of the unacknowledged packets of the window. */
  function Wires(sd: Sender, header: Wire.Packet, k: Wire.Crypto, qs: seq<nat>): seq<seq<byte>>
    requires Encodable(sd, header) && Numbers(qs, Packets(sd))
  {
    seq(|qs|, i requires 0 <= i < |qs| => DataWire(sd, header, k, qs[i]))
  }

  /** Packet numbers of the transfer, of which only the last may be the last packet. */
  predicate Numbers(qs: seq<nat>, count: nat) {
    forall i | 0 <= i < |qs| :: qs[i] < count && (i + 1 < |qs| ==> qs[i] + 1 < count)
  }

  lemma InWindow(sd: Sender, acked: seq<bool>, base: nat, end: nat)
    requires sd.packet > 0 && base <= end <= |acked| == Packets(sd)
    ensures Numbers(Unacked(acked, base, end), Packets(sd))
  {
    hide Packets;
    var qs := Unacked(acked, base, end);
    UnackedExact(acked, base, end);
    forall i | 0 <= i < |qs| ensures qs[i] < Packets(sd) && (i + 1 < |qs| ==> qs[i] + 1 < Packets(sd)) {
      assert qs[i] in qs;
      if i + 1 < |qs| { assert qs[i + 1] in qs; }
    }
  }

  /** For every set of unacknowledged packets, the datagrams of a round can be coalesced losslessly. */
  lemma RoundIsSegmented(sd: Sender, header: Wire.Packet, k: Wire.Crypto, acked: seq<bool>, base: nat, end: nat)
    requires Encodable(sd, header) && base <= end <= |acked| == Packets(sd)
    ensures var qs := Unacked(acked, base, end);
            && Numbers(qs, Packets(sd))
            && Segmented(Wires(sd, header, k, qs), Wire.HEADER_LEN + sd.packet)
  {
    hide Unacked, Packets, Begin, End;
    InWindow(sd, acked, base, end);
    WireSizes(sd, header, k, Unacked(acked, base, end));
  }

  lemma WireSizes(sd: Sender, header: Wire.Packet, k: Wire.Crypto, qs: seq<nat>)
    requires Encodable(sd, header) && Numbers(qs, Packets(sd))
    ensures Segmented(Wires(sd, header, k, qs), Wire.HEADER_LEN + sd.packet)
  {
    hide Packets, Begin, End;
    var wires := Wires(sd, header, k, qs);
    forall i | 0 <= i < |wires|
      ensures 0 < |wires[i]| <= Wire.HEADER_LEN + sd.packet && (i + 1 < |wires| ==> |wires[i]| == Wire.HEADER_LEN + sd.packet)
    {
      FullUnlessLast(sd, qs[i]);
    }
  }

  /**
   A whole round on the wire: encoded, coalesced, and split at the segment size by the receiver,
   it decodes to exactly the unacknowledged packets, in order.
   */
  method SendRound(sd: Sender, header: Wire.Packet, k: Wire.Crypto, acked: seq<bool>, base: nat, end: nat) returns (batches: seq<seq<byte>>)
    requires Encodable(sd, header) && base <= end <= |acked| == Packets(sd)
    ensures var qs, segment := Unacked(acked, base, end), Wire.HEADER_LEN + sd.packet;
            && WithinLimits(batches, segment) && |AllChunks(batches, segment)| == |qs|
            && forall i | 0 <= i < |qs| ::
                 qs[i] < Packets(sd) && Wire.Decode(AllChunks(batches, segment)[i], k) == Some(DataPacket(sd, header, qs[i]))
  {
    hide Unacked, WithinLimits, AllChunks, Segmented, DataPacket, Wire.Decode;
    RoundIsSegmented(sd, header, k, acked, base, end);
    batches := Coalesce(Wires(sd, header, k, Unacked(acked, base, end)), Wire.HEADER_LEN + sd.packet);
  }
}
