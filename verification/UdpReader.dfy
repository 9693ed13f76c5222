/**
 The client side of a UDP read: collecting the packets of one payload from a network that
 loses, duplicates and reorders, until a FIN finds everything there. A duplicated START is
 ignored here, and silent periods are counted over the whole read.
 */
module UdpReader {
  import opened Graph
  import opened Blocks
  import opened UdpServer
  import opened UdpProtocol
  import opened UdpSafety

  /** A datagram from the peer. `Garbled` does not decode; `Foreign` belongs to another transfer; `Stop` is ABORT or ERROR. */
  datatype Incoming =
    | Garbled
    | Foreign
    | Packet(sequence: nat, payload: seq<byte>)
    | Done(checksum: Digest)
    | Stop
    | Ignored

  /** What one wait brings: nothing, a batch from the peer, or a batch from somebody else. */
  datatype Event =
    | Quiet
    | Batch(ours: bool, datagrams: seq<Incoming>)

  /** What the reader notices, in order. */
  datatype Heard = Tick | Got(d: Incoming)

  datatype Verdict = Reading | Returned | Broken | TimedOut

  datatype Collected = Collected(buffer: seq<byte>, received: seq<bool>, receivedCount: nat)

  /** What a read was announced to be. */
  datatype Announced = Announced(length: nat, count: nat, packet: nat, retries: nat, checksum: Digest)

  function Notices(e: Event): seq<Heard> {
    match e
    case Quiet => [Tick]
    case Batch(ours, datagrams) => if ours then Wrapped(datagrams) else []
  }

  function Wrapped(datagrams: seq<Incoming>): (r: seq<Heard>)
    ensures |r| == |datagrams|
  {
    seq(|datagrams|, i requires 0 <= i < |datagrams| => Got(datagrams[i]))
  }

  function Flat(script: seq<Event>): seq<Heard> {
    if script == [] then [] else Flat(script[..|script| - 1]) + Notices(script[|script| - 1])
  }

  // ---- What a read should do ----

  predicate Arrived(heard: seq<Heard>, q: nat) {
    exists i :: 0 <= i < |heard| && heard[i].Got? && heard[i].d.Packet? && heard[i].d.sequence == q
  }

  predicate AllArrived(heard: seq<Heard>, count: nat) {
    forall q: nat | q < count :: Arrived(heard, q)
  }

  function Ticks(heard: seq<Heard>): (r: nat)
    ensures r <= |heard|
  {
    if heard == [] then 0 else Ticks(heard[..|heard| - 1]) + if heard[|heard| - 1].Tick? then 1 else 0
  }

  /** The FIN at `k` finds every packet there. */
  predicate FinishedAt(heard: seq<Heard>, count: nat, k: nat) {
    k < |heard| && heard[k].Got? && heard[k].d.Done? && AllArrived(heard[..k], count)
  }

  /** It does so before too many silent periods have passed. */
  predicate FinishedInTime(heard: seq<Heard>, a: Announced, k: nat) {
    FinishedAt(heard, a.count, k) && Ticks(heard[..k]) <= a.retries
  }

  /** The peer announced `sd.payload`. */
  predicate Announces(a: Announced, sd: Sender, digest: seq<byte> -> Digest) {
    && sd.packet == a.packet > 0 && |sd.payload| == a.length > 0
    && a.count == Packets(sd) && a.checksum == digest(sd.payload)
  }

  /** The datagram is one the peer sends while transferring `sd.payload`. */
  predicate FromPeer(sd: Sender, digest: seq<byte> -> Digest, h: Heard) {
    sd.packet > 0 &&
    match h
    case Tick => true
    case Got(Packet(q, payload)) => q < Packets(sd) && Begin(sd, q) <= End(sd, q) && payload == sd.payload[Begin(sd, q)..End(sd, q)]
    case Got(Done(checksum)) => checksum == digest(sd.payload)
    case Got(Garbled) => false
    case Got(Stop) => false
    case _ => true
  }

  /** The peer announced `sd.payload` and sends nothing but its transfer. */
  ghost predicate Peer(a: Announced, sd: Sender, digest: seq<byte> -> Digest, heard: seq<Heard>) {
    Announces(a, sd, digest) && forall i | 0 <= i < |heard| :: FromPeer(sd, digest, heard[i])
  }

  /** A reply claims only packets that have arrived. */
  predicate Truthful(reply: Reply, count: nat, heard: seq<Heard>) {
    forall q: nat | q < count && Reports(reply, q) :: Arrived(heard, q)
  }

  ghost predicate AllTruthful(replies: seq<Reply>, count: nat, heard: seq<Heard>) {
    forall i | 0 <= i < |replies| :: Truthful(replies[i], count, heard)
  }

  // ---- Growth ----

  lemma ArrivedAppend(heard: seq<Heard>, more: seq<Heard>, q: nat)
    requires Arrived(heard, q)
    ensures Arrived(heard + more, q)
  {
    var i :| 0 <= i < |heard| && heard[i].Got? && heard[i].d.Packet? && heard[i].d.sequence == q;
    assert (heard + more)[i] == heard[i];
  }

  lemma ArrivedStep(heard: seq<Heard>, h: Heard, q: nat)
    ensures Arrived(heard + [h], q) <==> Arrived(heard, q) || (h.Got? && h.d.Packet? && h.d.sequence == q)
  {
    if Arrived(heard, q) { ArrivedAppend(heard, [h], q); }
    if h.Got? && h.d.Packet? && h.d.sequence == q { assert (heard + [h])[|heard|] == h; }
    if Arrived(heard + [h], q) {
      var i :| 0 <= i < |heard + [h]| && (heard + [h])[i].Got? && (heard + [h])[i].d.Packet? && (heard + [h])[i].d.sequence == q;
      if i < |heard| { assert heard[i] == (heard + [h])[i]; }
    }
  }

  lemma TruthfulAppend(replies: seq<Reply>, count: nat, heard: seq<Heard>, more: seq<Heard>)
    requires AllTruthful(replies, count, heard)
    ensures AllTruthful(replies, count, heard + more)
  {
    forall i, q: nat | 0 <= i < |replies| && q < count && Reports(replies[i], q) ensures Arrived(heard + more, q) {
      assert Truthful(replies[i], count, heard);
      ArrivedAppend(heard, more, q);
    }
  }

  lemma {:induction false} TicksPrefix(heard: seq<Heard>, k: nat)
    requires k <= |heard|
    ensures Ticks(heard[..k]) <= Ticks(heard)
    decreases |heard|
  {
    if k < |heard| {
      assert heard[..|heard| - 1][..k] == heard[..k];
      TicksPrefix(heard[..|heard| - 1], k);
    } else {
      assert heard[..k] == heard;
    }
  }

  lemma TicksStep(heard: seq<Heard>, h: Heard)
    ensures Ticks(heard + [h]) == Ticks(heard) + if h.Tick? then 1 else 0
  {
    assert (heard + [h])[..|heard|] == heard;
  }

  /** No FIN so far has found everything there. */
  predicate Unfinished(heard: seq<Heard>, count: nat) {
    forall k: nat | k < |heard| :: !FinishedAt(heard, count, k)
  }

  lemma UnfinishedStep(heard: seq<Heard>, h: Heard, count: nat)
    requires Unfinished(heard, count) && !(h.Got? && h.d.Done? && AllArrived(heard, count))
    ensures Unfinished(heard + [h], count)
  {
    hide AllArrived;
    forall k: nat | k < |heard + [h]| ensures !FinishedAt(heard + [h], count, k) {
      assert (heard + [h])[..k] == if k < |heard| then heard[..k] else heard;
      if k < |heard| { assert !FinishedAt(heard, count, k); }
    }
  }

  lemma {:induction false} FlatPrefix(script: seq<Event>, n: nat)
    requires n <= |script|
    ensures Flat(script[..n]) <= Flat(script)
    decreases |script|
  {
    if n < |script| {
      assert script[..|script| - 1][..n] == script[..n];
      FlatPrefix(script[..|script| - 1], n);
    } else {
      assert script[..n] == script;
    }
  }

  lemma FlatStep(script: seq<Event>, n: nat)
    requires n < |script|
    ensures Flat(script[..n + 1]) == Flat(script[..n]) + Notices(script[n])
    ensures Flat(script[..n + 1]) <= Flat(script)
  {
    assert script[..n + 1][..n] == script[..n];
    FlatPrefix(script, n + 1);
  }

  // ---- Collecting ----

  /** The flags say which packets have arrived, and are counted. */
  ghost predicate Knows(a: Announced, c: Collected, heard: seq<Heard>) {
    && |c.buffer| == a.length && |c.received| == a.count && c.receivedCount == Count(c.received)
    && forall q: nat | q < a.count :: c.received[q] <==> Arrived(heard, q)
  }

  predicate SliceHeld(sd: Sender, c: Collected, q: nat)
    requires sd.packet > 0
  {
    Begin(sd, q) <= End(sd, q) <= |c.buffer| <= |sd.payload| && c.buffer[Begin(sd, q)..End(sd, q)] == sd.payload[Begin(sd, q)..End(sd, q)]
  }

  ghost predicate SlicesHeld(sd: Sender, c: Collected)
    requires sd.packet > 0
  {
    |c.buffer| == |sd.payload| && forall q: nat | q < |c.received| && c.received[q] :: SliceHeld(sd, c, q)
  }

  predicate Fits(a: Announced, c: Collected, d: Incoming)
    requires d.Packet?
  {
    d.sequence < a.count && d.sequence * a.packet + |d.payload| <= |c.buffer|
  }

  function Keep(a: Announced, c: Collected, d: Incoming): Collected
    requires d.Packet? && Fits(a, c, d) && |c.received| == a.count
  {
    if c.received[d.sequence] then c
    else Collected(Splice(c.buffer, d.sequence * a.packet, d.payload), c.received[d.sequence := true], c.receivedCount + 1)
  }

  lemma KeepKnows(a: Announced, c: Collected, d: Incoming, heard: seq<Heard>)
    requires Knows(a, c, heard) && d.Packet? && Fits(a, c, d)
    ensures Knows(a, Keep(a, c, d), heard + [Got(d)])
  {
    hide Arrived, Splice;
    var after := Keep(a, c, d);
    if !c.received[d.sequence] { CountSet(c.received, d.sequence); }
    forall q: nat | q < a.count ensures after.received[q] <==> Arrived(heard + [Got(d)], q) {
      ArrivedStep(heard, Got(d), q);
    }
  }

  lemma SkipKnows(a: Announced, c: Collected, h: Heard, heard: seq<Heard>)
    requires Knows(a, c, heard) && !(h.Got? && h.d.Packet?)
    ensures Knows(a, c, heard + [h])
  {
    hide Arrived;
    forall q: nat | q < a.count ensures c.received[q] <==> Arrived(heard + [h], q) {
      ArrivedStep(heard, h, q);
    }
  }

  /** As long as the peer sends nothing else, the buffer holds its slices. */
  ghost predicate Held(a: Announced, sd: Sender, digest: seq<byte> -> Digest, c: Collected, heard: seq<Heard>) {
    Peer(a, sd, digest, heard) ==> SlicesHeld(sd, c)
  }

  lemma PeerPrefix(a: Announced, sd: Sender, digest: seq<byte> -> Digest, heard: seq<Heard>, more: seq<Heard>)
    requires Peer(a, sd, digest, heard + more)
    ensures Peer(a, sd, digest, heard) && forall i | 0 <= i < |more| :: FromPeer(sd, digest, more[i])
  {
    hide FromPeer, Announces;
    assert forall i | 0 <= i < |heard| :: (heard + more)[i] == heard[i];
    assert forall i | 0 <= i < |more| :: (heard + more)[|heard| + i] == more[i];
  }

  lemma PeerStep(a: Announced, sd: Sender, digest: seq<byte> -> Digest, heard: seq<Heard>, h: Heard)
    requires Peer(a, sd, digest, heard + [h])
    ensures Peer(a, sd, digest, heard) && FromPeer(sd, digest, h)
  {
    hide FromPeer, Announces;
    PeerPrefix(a, sd, digest, heard, [h]);
    assert FromPeer(sd, digest, [h][0]);
  }

  lemma SkipHolds(a: Announced, sd: Sender, digest: seq<byte> -> Digest, c: Collected, h: Heard, heard: seq<Heard>)
    requires Held(a, sd, digest, c, heard)
    ensures Held(a, sd, digest, c, heard + [h])
  {
    hide Peer, SlicesHeld;
    if Peer(a, sd, digest, heard + [h]) { PeerStep(a, sd, digest, heard, h); }
  }

  lemma KeepHolds(a: Announced, sd: Sender, digest: seq<byte> -> Digest, c: Collected, d: Incoming)
    requires Announces(a, sd, digest) && |c.received| == a.count && SlicesHeld(sd, c)
    requires d.Packet? && FromPeer(sd, digest, Got(d))
    ensures Fits(a, c, d) && SlicesHeld(sd, Keep(a, c, d))
  {
    var w := d.sequence;
    Tiles(sd, w);
    var after := Keep(a, c, d);
    if !c.received[w] {
      forall q: nat | q < a.count && after.received[q] ensures SliceHeld(sd, after, q) {
        hide Begin, End, Packets;
        Tiles(sd, q);
        if q == w {
          SpliceAt(c.buffer, Begin(sd, w), d.payload);
        } else {
          assert SliceHeld(sd, c, q);
          if q < w { Disjoint(sd, q, w); } else { Disjoint(sd, w, q); }
          SpliceElsewhere(c.buffer, Begin(sd, w), d.payload, Begin(sd, q), End(sd, q));
        }
      }
    }
  }

  lemma PacketHolds(a: Announced, sd: Sender, digest: seq<byte> -> Digest, c: Collected, d: Incoming, heard: seq<Heard>)
    requires Knows(a, c, heard) && Held(a, sd, digest, c, heard) && d.Packet?
    ensures Fits(a, c, d) ==> Held(a, sd, digest, Keep(a, c, d), heard + [Got(d)])
    ensures !Fits(a, c, d) ==> !Peer(a, sd, digest, heard + [Got(d)])
  {
    hide Fits, Keep, SlicesHeld, FromPeer, Announces, Arrived;
    if Peer(a, sd, digest, heard + [Got(d)]) {
      PeerStep(a, sd, digest, heard, Got(d));
      KeepHolds(a, sd, digest, c, d);
    }
  }

  /** A peer that sends nothing else never makes a complete read fail. */
  lemma FinFits(a: Announced, sd: Sender, digest: seq<byte> -> Digest, c: Collected, d: Incoming, heard: seq<Heard>)
    requires Knows(a, c, heard) && Held(a, sd, digest, c, heard) && d.Done? && c.receivedCount == a.count
    requires Peer(a, sd, digest, heard + [Got(d)])
    ensures d.checksum == a.checksum == digest(c.buffer)
  {
    hide SlicesHeld, Arrived;
    PeerStep(a, sd, digest, heard, Got(d));
    AllKnown(a, c, heard);
    WholePayload(sd, c);
  }

  lemma Refused(a: Announced, sd: Sender, digest: seq<byte> -> Digest, d: Incoming, heard: seq<Heard>)
    requires d.Garbled? || d.Stop?
    ensures !Peer(a, sd, digest, heard + [Got(d)])
  {
    if Peer(a, sd, digest, heard + [Got(d)]) {
      PeerStep(a, sd, digest, heard, Got(d));
    }
  }

  /** Every packet held means the payload is there. */
  lemma WholePayload(sd: Sender, c: Collected)
    requires sd.packet > 0 && SlicesHeld(sd, c) && |c.received| == Packets(sd) && AllSet(c.received)
    ensures c.buffer == sd.payload
  {
    forall x | 0 <= x < |sd.payload| ensures c.buffer[x] == sd.payload[x] {
      hide Begin, End, Packets;
      var q := Covers(sd, x);
      assert SliceHeld(sd, c, q);
      assert c.buffer[Begin(sd, q)..End(sd, q)][x - Begin(sd, q)] == c.buffer[x];
      assert sd.payload[Begin(sd, q)..End(sd, q)][x - Begin(sd, q)] == sd.payload[x];
    }
  }

  lemma AllKnown(a: Announced, c: Collected, heard: seq<Heard>)
    requires Knows(a, c, heard)
    ensures c.receivedCount == a.count <==> AllArrived(heard, a.count)
    ensures c.receivedCount == a.count <==> AllSet(c.received)
  {
    CountAll(c.received);
  }

  /** Reports the block of packets around `sequence`. */
  function AckFor(c: Collected, sequence: nat): Reply {
    var base := BlockBase(sequence);
    Ack(base, seq(ACK_BITS, i requires 0 <= i < ACK_BITS => base + i < |c.received| && c.received[base + i]))
  }

  /** Names the missing packets among the first 256. */
  function NackFor(c: Collected): Reply {
    Nack(0, seq(Least(|c.received|, ACK_BITS), i requires 0 <= i < Least(|c.received|, ACK_BITS) => !c.received[i]))
  }

  function Least(x: nat, y: nat): nat { if x <= y then x else y }

  lemma AckReports(c: Collected, sequence: nat, q: nat)
    ensures Reports(AckFor(c, sequence), q) <==>
              BlockBase(sequence) <= q < BlockBase(sequence) + ACK_BITS && q < |c.received| && c.received[q]
  {
    hide BlockBase;
  }

  lemma NackReports(c: Collected, q: nat)
    ensures Reports(NackFor(c), q) <==> q < ACK_BITS && q < |c.received| && c.received[q]
  {
  }

  lemma InItsBlock(q: nat)
    ensures BlockBase(q) <= q < BlockBase(q) + ACK_BITS
  {
  }

  /** Within its reach a reply reports exactly the packets that have arrived. */
  lemma RepliesTruthful(a: Announced, c: Collected, heard: seq<Heard>, sequence: nat)
    requires Knows(a, c, heard)
    ensures Truthful(AckFor(c, sequence), a.count, heard) && Truthful(NackFor(c), a.count, heard)
    ensures forall q: nat | q < a.count && BlockBase(q) == BlockBase(sequence) && Arrived(heard, q) :: Reports(AckFor(c, sequence), q)
    ensures forall q: nat | q < a.count && q < ACK_BITS && Arrived(heard, q) :: Reports(NackFor(c), q)
  {
    hide Arrived, Count, Reports, AckFor, NackFor, BlockBase;
    forall q: nat | q < a.count
      ensures Reports(AckFor(c, sequence), q) ==> Arrived(heard, q)
      ensures BlockBase(q) == BlockBase(sequence) && Arrived(heard, q) ==> Reports(AckFor(c, sequence), q)
      ensures Reports(NackFor(c), q) ==> Arrived(heard, q)
      ensures q < ACK_BITS && Arrived(heard, q) ==> Reports(NackFor(c), q)
    {
      AckReports(c, sequence, q);
      NackReports(c, q);
      InItsBlock(q);
      assert c.received[q] <==> Arrived(heard, q);
    }
  }

  /** The reply tells exactly what has arrived of the first 256 packets. */
  predicate TellsArrived(r: Reply, count: nat, heard: seq<Heard>) {
    r.Nack? && forall q: nat | q < count && q < ACK_BITS :: Reports(r, q) <==> Arrived(heard, q)
  }

  /** Every FIN among the first `n` datagrams, none of which completes the read, is told what has arrived before it. */
  ghost predicate FinsTold(replies: seq<Reply>, count: nat, heard: seq<Heard>, batch: seq<Incoming>, n: nat)
    requires n <= |batch|
  {
    forall i | 0 <= i < n && batch[i].Done? :: FinTold(replies, count, heard + Wrapped(batch[..i]))
  }

  ghost predicate FinTold(replies: seq<Reply>, count: nat, heard: seq<Heard>) {
    exists r :: r in replies && TellsArrived(r, count, heard)
  }

  lemma NackTells(a: Announced, c: Collected, heard: seq<Heard>)
    requires Knows(a, c, heard)
    ensures TellsArrived(NackFor(c), a.count, heard)
  {
    hide Arrived, Count;
    forall q: nat | q < a.count && q < ACK_BITS ensures Reports(NackFor(c), q) <==> Arrived(heard, q) {
      NackReports(c, q);
      assert c.received[q] <==> Arrived(heard, q);
    }
  }

  lemma FinsStep(replies: seq<Reply>, more: seq<Reply>, count: nat, heard: seq<Heard>, batch: seq<Incoming>, n: nat)
    requires n < |batch| && FinsTold(replies, count, heard, batch, n)
    requires batch[n].Done? ==> exists r :: r in more && TellsArrived(r, count, heard + Wrapped(batch[..n]))
    ensures FinsTold(replies + more, count, heard, batch, n + 1)
  {
    hide TellsArrived, Wrapped;
    forall i | 0 <= i < n + 1 && batch[i].Done? ensures FinTold(replies + more, count, heard + Wrapped(batch[..i])) {
      if i < n {
        assert FinTold(replies, count, heard + Wrapped(batch[..i]));
        var r :| r in replies && TellsArrived(r, count, heard + Wrapped(batch[..i]));
        assert r in replies + more;
      } else {
        var r :| r in more && TellsArrived(r, count, heard + Wrapped(batch[..n]));
        assert r in replies + more;
      }
    }
  }

  lemma FinsStart(count: nat, heard: seq<Heard>, batch: seq<Incoming>)
    ensures FinsTold([], count, heard, batch, 0)
  {
  }

  lemma FinsMore(replies: seq<Reply>, more: seq<Reply>, count: nat, heard: seq<Heard>, batch: seq<Incoming>, n: nat)
    requires n <= |batch| && FinsTold(replies, count, heard, batch, n)
    ensures FinsTold(replies + more, count, heard, batch, n)
  {
    hide TellsArrived, Wrapped;
    forall i | 0 <= i < n && batch[i].Done? ensures FinTold(replies + more, count, heard + Wrapped(batch[..i])) {
      assert FinTold(replies, count, heard + Wrapped(batch[..i]));
      var r :| r in replies && TellsArrived(r, count, heard + Wrapped(batch[..i]));
      assert r in replies + more;
    }
  }

  lemma WrappedStep(heard: seq<Heard>, batch: seq<Incoming>, i: nat)
    requires i < |batch|
    ensures heard + Wrapped(batch[..i + 1]) == heard + Wrapped(batch[..i]) + [Got(batch[i])]
  {
  }

  lemma NoReplies(count: nat, heard: seq<Heard>)
    ensures AllTruthful([], count, heard)
  {
  }

  lemma ReplyStep(replies: seq<Reply>, reply: Reply, count: nat, heard: seq<Heard>)
    requires AllTruthful(replies, count, heard) && Truthful(reply, count, heard)
    ensures AllTruthful(replies + [reply], count, heard)
  {
    hide Truthful;
  }

  lemma KnowsSize(a: Announced, c: Collected, heard: seq<Heard>)
    requires Knows(a, c, heard)
    ensures |c.received| == a.count && |c.buffer| == a.length
  {
  }

  /**
   One batch from the peer. `n` datagrams of it were taken in; the read ends inside the batch
   on a FIN that finds everything there, on an inconsistency, or at the peer's request.
   */
  method TakeBatch(a: Announced, digest: seq<byte> -> Digest, start: Collected, batch: seq<Incoming>, ghost heard: seq<Heard>,
                   ghost sd: Sender)
    returns (c: Collected, verdict: Verdict, replies: seq<Reply>, ghost n: nat)
    requires Knows(a, start, heard) && Unfinished(heard, a.count) && Held(a, sd, digest, start, heard)
    ensures n <= |batch| && Knows(a, c, heard + Wrapped(batch[..n])) && Unfinished(heard + Wrapped(batch[..n]), a.count)
    ensures Held(a, sd, digest, c, heard + Wrapped(batch[..n]))
    ensures AllTruthful(replies, a.count, heard + Wrapped(batch[..n]))
    ensures verdict != TimedOut
    ensures verdict == Reading <==> n == |batch|
    ensures verdict == Returned ==> batch[n].Done? && c.receivedCount == a.count && digest(c.buffer) == a.checksum
    ensures verdict == Returned <==> Complete in replies
    ensures verdict == Broken ==> !Peer(a, sd, digest, heard + Wrapped(batch[..n]) + [Got(batch[n])])
    ensures verdict == Reading && (|batch| > 1 || start.receivedCount < c.receivedCount == a.count)
              && (exists i :: 0 <= i < |batch| && batch[i].Packet?)
            ==> exists i :: 0 <= i < |batch| && batch[i].Packet? && AckFor(c, batch[i].sequence) in replies
    ensures FinsTold(replies, a.count, heard, batch, n)
    ensures verdict == Reading && |batch| == 1 && batch[0].Packet? ==>
              batch[0].sequence < |start.received| &&
              replies == if start.received[batch[0].sequence] || c.receivedCount % 8 == 0 || c.receivedCount == a.count
                         then [AckFor(c, batch[0].sequence)] else []
  {
    hide Knows, Unfinished, AllTruthful, AllArrived, AllSet, Held, Peer, Truthful, Fits, Keep, Wrapped, FinsTold, AckFor, NackFor, TellsArrived;
    c, verdict, replies, n := start, Reading, [], 0;
    var answer: Option<nat> := None;
    assert heard + Wrapped(batch[..0]) == heard;
    NoReplies(a.count, heard);
    FinsStart(a.count, heard, batch);
    for i := 0 to |batch|
      invariant n == i && verdict == Reading
      invariant Knows(a, c, heard + Wrapped(batch[..n])) && Unfinished(heard + Wrapped(batch[..n]), a.count)
      invariant Held(a, sd, digest, c, heard + Wrapped(batch[..n]))
      invariant AllTruthful(replies, a.count, heard + Wrapped(batch[..n]))
      invariant Complete !in replies && FinsTold(replies, a.count, heard, batch, n)
      invariant i == 0 ==> c == start
      invariant |batch| == 1 && i == 1 && batch[0].Packet? ==>
                  replies == [] && batch[0].sequence < |start.received| &&
                  answer == if start.received[batch[0].sequence] || c.receivedCount % 8 == 0 || c.receivedCount == a.count
                            then Some(batch[0].sequence) else None
      invariant |batch| == 1 && i == 0 ==> replies == [] && answer.None?
      invariant answer.Some? ==> exists j :: 0 <= j < i && batch[j].Packet? && batch[j].sequence == answer.value
      invariant (|batch| > 1 && exists j :: 0 <= j < i && batch[j].Packet?) || start.receivedCount < c.receivedCount == a.count ==> answer.Some?
    {
      ghost var now, d := heard + Wrapped(batch[..i]), batch[i];
      var more: seq<Reply> := [];
      WrappedStep(heard, batch, i);
      KnowsSize(a, c, now);
      match batch[i] {
      case Garbled =>
        verdict := Broken;
        Refused(a, sd, digest, d, now);
        return;
      case Stop =>
        verdict := Broken;
        Refused(a, sd, digest, d, now);
        return;
      case Packet(sequence, payload) =>
        PacketHolds(a, sd, digest, c, d, now);
        if !Fits(a, c, batch[i]) {
          verdict := Broken;
          return;
        }
        KeepKnows(a, c, d, now);
        FitsBelow(a, c, d);
        var isNew := !c.received[sequence];
        c := Keep(a, c, batch[i]);
        if !isNew || |batch| > 1 || c.receivedCount % 8 == 0 || c.receivedCount == a.count { answer := Some(sequence); }
      case Done(checksum) =>
        AllKnown(a, c, now);
        if c.receivedCount == a.count {
          if checksum != a.checksum || digest(c.buffer) != a.checksum {
            verdict := Broken;
            if Peer(a, sd, digest, now + [Got(d)]) { FinFits(a, sd, digest, c, d, now); }
            return;
          }
          verdict := Returned;
          ReplyStep(replies, Complete, a.count, now) by { CompleteClaimsNothing(a.count, now); }
          FinsMore(replies, [Complete], a.count, heard, batch, n);
          replies := replies + [Complete];
          return;
        }
        RepliesTruthful(a, c, now, 0);
        NackTells(a, c, now);
        ReplyStep(replies, NackFor(c), a.count, now);
        more := [NackFor(c)];
        assert NackFor(c) in more;
        assert !NackFor(c).Complete? by { NackIsNack(c); }
        SkipKnows(a, c, Got(d), now);
        SkipHolds(a, sd, digest, c, Got(d), now);
      case _ =>
        SkipKnows(a, c, Got(d), now);
        SkipHolds(a, sd, digest, c, Got(d), now);
      }
      FinsStep(replies, more, a.count, heard, batch, n);
      assert more == [] ==> replies + more == replies;
      replies := replies + more;
      UnfinishedStep(now, Got(d), a.count);
      TruthfulAppend(replies, a.count, now, [Got(d)]);
      n := n + 1;
    }
    if answer.Some? {
      RepliesTruthful(a, c, heard + Wrapped(batch[..n]), answer.value);
      ReplyStep(replies, AckFor(c, answer.value), a.count, heard + Wrapped(batch[..n]));
      AckIsAck(c, answer.value);
      FinsMore(replies, [AckFor(c, answer.value)], a.count, heard, batch, n);
      replies := replies + [AckFor(c, answer.value)];
    }
  }

  lemma AckIsAck(c: Collected, sequence: nat)
    ensures AckFor(c, sequence).Ack?
  {
  }

  lemma NackIsNack(c: Collected)
    ensures NackFor(c).Nack?
  {
  }

  lemma CompleteClaimsNothing(count: nat, heard: seq<Heard>)
    ensures Truthful(Complete, count, heard) && Truthful(StartAck, count, heard)
  {
  }

  lemma FitsBelow(a: Announced, c: Collected, d: Incoming)
    requires d.Packet? && Fits(a, c, d)
    ensures d.sequence < a.count
  {
  }

  lemma NothingYet(a: Announced, sd: Sender, digest: seq<byte> -> Digest)
    ensures var c := Collected(seq(a.length, _ => 0), seq(a.count, _ => false), 0);
            Knows(a, c, []) && Held(a, sd, digest, c, []) && Unfinished([], a.count)
  {
    CountNone(a.count);
  }

  lemma TickStep(a: Announced, sd: Sender, digest: seq<byte> -> Digest, c: Collected, heard: seq<Heard>)
    requires Knows(a, c, heard) && Held(a, sd, digest, c, heard) && Unfinished(heard, a.count)
    ensures Knows(a, c, heard + [Tick]) && Held(a, sd, digest, c, heard + [Tick]) && Unfinished(heard + [Tick], a.count)
  {
    hide Knows, Held, Unfinished;
    SkipKnows(a, c, Tick, heard);
    SkipHolds(a, sd, digest, c, Tick, heard);
    UnfinishedStep(heard, Tick, a.count);
  }

  lemma {:induction false} TicksJoin(heard: seq<Heard>, batch: seq<Incoming>)
    ensures Ticks(heard + Wrapped(batch)) == Ticks(heard)
    decreases |batch|
  {
    if batch == [] {
      assert heard + Wrapped(batch) == heard;
    } else {
      var n := |batch| - 1;
      WrappedStep(heard, batch, n);
      assert batch[..n + 1] == batch;
      TicksStep(heard + Wrapped(batch[..n]), Got(batch[n]));
      TicksJoin(heard, batch[..n]);
    }
  }

  /** A read that finished in the middle of what was heard, in time. */
  lemma FinishedInside(a: Announced, heard: seq<Heard>, fin: Heard, all: seq<Heard>)
    requires heard + [fin] <= all && fin.Got? && fin.d.Done? && AllArrived(heard, a.count) && Ticks(heard) <= a.retries
    ensures FinishedInTime(all, a, |heard|)
  {
    assert all[..|heard|] == heard;
    assert all[|heard|] == (heard + [fin])[|heard|];
  }

  /** Once the silent periods are used up, no later FIN is in time. */
  lemma NeverInTime(a: Announced, heard: seq<Heard>, all: seq<Heard>)
    requires heard <= all && Unfinished(heard, a.count) && (heard == all || Ticks(heard) > a.retries)
    ensures forall k: nat | k < |all| :: !FinishedInTime(all, a, k)
  {
    hide AllArrived;
    forall k: nat | k < |all| ensures !FinishedInTime(all, a, k) {
      if k < |heard| {
        assert heard[..k] == all[..k] && heard[k] == all[k];
        assert !FinishedAt(heard, a.count, k);
      } else if heard != all {
        assert all[..k][..|heard|] == heard;
        TicksPrefix(all[..k], |heard|);
      }
    }
  }

  lemma PeerInside(a: Announced, sd: Sender, digest: seq<byte> -> Digest, heard: seq<Heard>, all: seq<Heard>)
    requires heard <= all && Peer(a, sd, digest, all)
    ensures Peer(a, sd, digest, heard)
  {
    hide Peer;
    assert all == heard + all[|heard|..];
    PeerPrefix(a, sd, digest, heard, all[|heard|..]);
  }

  lemma NothingAnnounced(a: Announced, sd: Sender, digest: seq<byte> -> Digest, heard: seq<Heard>)
    requires a.count == 0
    ensures !Peer(a, sd, digest, heard)
  {
    if sd.packet > 0 && |sd.payload| > 0 { DivCeilBounds(|sd.payload|, sd.packet); }
  }

  lemma NoScript(script: seq<Event>)
    ensures Flat(script[..0]) == [] && Ticks([]) == 0
  {
  }

  lemma TruthfulJoin(xs: seq<Reply>, ys: seq<Reply>, count: nat, heard: seq<Heard>)
    requires AllTruthful(xs, count, heard) && AllTruthful(ys, count, heard)
    ensures AllTruthful(xs + ys, count, heard)
  {
    hide Truthful;
  }

  lemma TruthfulInside(replies: seq<Reply>, count: nat, heard: seq<Heard>, all: seq<Heard>)
    requires AllTruthful(replies, count, heard) && heard <= all
    ensures AllTruthful(replies, count, all)
  {
    hide AllTruthful;
    assert all == heard + all[|heard|..];
    TruthfulAppend(replies, count, heard, all[|heard|..]);
  }

  lemma Inside(heard: seq<Heard>, batch: seq<Incoming>, n: nat, all: seq<Heard>)
    requires n < |batch| && heard + Wrapped(batch) <= all
    ensures heard + Wrapped(batch[..n]) + [Got(batch[n])] <= all
  {
    var part := heard + Wrapped(batch[..n]) + [Got(batch[n])];
    assert part == (heard + Wrapped(batch))[..|part|];
  }

  /** The read ended without a verdict of its own, or timed out. */
  lemma Ended(a: Announced, heard: seq<Heard>, all: seq<Heard>, replies: seq<Reply>)
    requires heard <= all && Unfinished(heard, a.count) && (heard == all || Ticks(heard) > a.retries)
    requires AllTruthful(replies, a.count, heard)
    ensures AllTruthful(replies, a.count, all) && !exists k :: FinishedInTime(all, a, k)
    ensures Ticks(all) >= Ticks(heard)
  {
    hide AllTruthful, AllArrived, Unfinished, Ticks;
    TruthfulInside(replies, a.count, heard, all);
    NeverInTime(a, heard, all);
    assert all[..|heard|] == heard;
    TicksPrefix(all, |heard|);
  }

  /** The read ended at datagram `d`, completely or because something was wrong. */
  lemma Stopped(a: Announced, sd: Sender, digest: seq<byte> -> Digest, c: Collected, now: seq<Heard>, h: Heard, all: seq<Heard>,
                verdict: Verdict, replies: seq<Reply>)
    requires now + [h] <= all && Knows(a, c, now) && Held(a, sd, digest, c, now) && Ticks(now) <= a.retries
    requires verdict == Returned ==> h.Got? && h.d.Done? && c.receivedCount == a.count
    requires verdict == Broken ==> !Peer(a, sd, digest, now + [h])
    requires AllTruthful(replies, a.count, now) && (verdict == Returned || verdict == Broken)
    ensures AllTruthful(replies, a.count, all) && |c.buffer| == a.length
    ensures Peer(a, sd, digest, all) ==> verdict == Returned && c.buffer == sd.payload
    ensures verdict == Returned ==> exists k :: FinishedInTime(all, a, k)
  {
    hide AllTruthful, AllArrived, Ticks, SlicesHeld, Knows, AllSet, FinishedInTime;
    TruthfulInside(replies, a.count, now, all);
    AllKnown(a, c, now);
    KnowsSize(a, c, now);
    if Peer(a, sd, digest, all) {
      PeerInside(a, sd, digest, now + [h], all);
      PeerStep(a, sd, digest, now, h);
      WholePayload(sd, c);
    }
    if verdict == Returned { FinishedInside(a, now, h, all); }
  }

  /**
   A whole read of at most `chunk` bytes. What is returned always has the announced digest.
   From a peer that sends nothing but its transfer it is exactly the payload, and it is
   returned exactly when a FIN finds every packet there before too many silent periods;
   nothing else ends the read early.
   */
  method ReceivePayload(chunk: nat, a: Announced, digest: seq<byte> -> Digest, script: seq<Event>, ghost sd: Sender)
    returns (buffer: seq<byte>, verdict: Verdict, replies: seq<Reply>)
    ensures verdict == Returned ==> |buffer| == a.length && digest(buffer) == a.checksum
    ensures verdict == Returned <==> Complete in replies
    ensures AllTruthful(replies, a.count, Flat(script))
    ensures Peer(a, sd, digest, Flat(script)) ==> (verdict == Broken <==> a.length > chunk)
    ensures Peer(a, sd, digest, Flat(script)) && verdict == Returned ==> buffer == sd.payload
    ensures verdict == Returned ==> exists k :: FinishedInTime(Flat(script), a, k)
    ensures (exists k :: FinishedInTime(Flat(script), a, k)) ==> verdict == Returned || verdict == Broken
    ensures a.count > 0 && a.length <= chunk ==> replies != [] && replies[0] == StartAck
    ensures verdict == TimedOut ==> Ticks(Flat(script)) > a.retries
    ensures verdict == Reading ==> Ticks(Flat(script)) <= a.retries
  {
    hide Knows, Unfinished, AllTruthful, AllArrived, AllSet, Held, Peer, Truthful, Flat, Wrapped, Ticks, FinishedInTime;
    var c := Collected(seq(a.length, _ => 0), seq(a.count, _ => false), 0);
    ghost var all, heard: seq<Heard> := Flat(script), [];
    var retries := 0;
    NothingYet(a, sd, digest);
    NoReplies(a.count, all);
    if a.count == 0 || a.length > chunk {
      if a.count == 0 { NothingAnnounced(a, sd, digest, all); }
      return c.buffer, Broken, [];
    }
    replies, verdict := [StartAck], Reading;
    NoReplies(a.count, []);
    CompleteClaimsNothing(a.count, []);
    ReplyStep([], StartAck, a.count, []);
    assert [] + [StartAck] == [StartAck];
    NoScript(script);
    for i := 0 to |script|
      invariant verdict == Reading && heard == Flat(script[..i]) && heard <= all
      invariant retries == Ticks(heard) <= a.retries
      invariant Knows(a, c, heard) && Held(a, sd, digest, c, heard) && Unfinished(heard, a.count)
      invariant AllTruthful(replies, a.count, heard) && Complete !in replies && replies != [] && replies[0] == StartAck
    {
      FlatStep(script, i);
      match script[i]
      case Quiet =>
        TickStep(a, sd, digest, c, heard);
        TicksStep(heard, Tick);
        TruthfulAppend(replies, a.count, heard, [Tick]);
        heard := heard + [Tick];
        retries := retries + 1;
        if retries > a.retries {
          verdict, buffer := TimedOut, c.buffer;
          Ended(a, heard, all, replies);
          return;
        }
      case Batch(ours, datagrams) =>
        if ours {
          var more;
          ghost var n;
          c, verdict, more, n := TakeBatch(a, digest, c, datagrams, heard, sd);
          ghost var now := heard + Wrapped(datagrams[..n]);
          TruthfulAppend(replies, a.count, heard, Wrapped(datagrams[..n]));
          TruthfulJoin(replies, more, a.count, now);
          replies := replies + more;
          TicksJoin(heard, datagrams[..n]);
          if verdict != Reading {
            buffer := c.buffer;
            Inside(heard, datagrams, n, all);
            Stopped(a, sd, digest, c, now, Got(datagrams[n]), all, verdict, replies);
            return;
          }
          assert datagrams[..n] == datagrams;
          heard := now;
        } else {
          assert heard + [] == heard;
        }
    }
    assert script[..|script|] == script;
    buffer := c.buffer;
    Ended(a, heard, all, replies);
  }

  predicate TwoQuietInARow(script: seq<Event>) {
    exists i :: 0 <= i < |script| && script[i].Quiet? && i + 1 < |script| && script[i + 1].Quiet?
  }

  /** A packet after each single silence, and all there in the end. */
  function Scattered(x: byte, y: byte, checksum: Digest): (script: seq<Event>)
    ensures !TwoQuietInARow(script)
  {
    [Batch(true, [Packet(0, [x])]), Quiet, Batch(true, [Packet(1, [y])]), Quiet, Batch(true, [Done(checksum)])]
  }

  /**
   Silent periods count over the whole read: with one retry, this read of two packets times out
   although no two silent periods are adjacent and its FIN finds everything there.
   */
  method ScatteredSilence(digest: seq<byte> -> Digest, x: byte, y: byte) returns (verdict: Verdict)
    ensures verdict == TimedOut
    ensures !TwoQuietInARow(Scattered(x, y, digest([x, y]))) && FinishedAt(Flat(Scattered(x, y, digest([x, y]))), 2, 4)
  {
    hide Flat, Ticks, FinishedAt, Peer;
    var a := Announced(2, 2, 1, 1, digest([x, y]));
    var script := Scattered(x, y, a.checksum);
    ghost var sd := Sender(Target(0, 1, 0, 2), 0, [x, y], 1, Sending, []);
    ScatteredFlat(x, y, a.checksum);
    ScatteredPeer(a, sd, digest, x, y);
    ScatteredFinish(x, y, a);
    var buffer, replies;
    buffer, verdict, replies := ReceivePayload(2, a, digest, script, sd);
  }

  lemma ScatteredFlat(x: byte, y: byte, checksum: Digest)
    ensures Flat(Scattered(x, y, checksum)) == [Got(Packet(0, [x])), Tick, Got(Packet(1, [y])), Tick, Got(Done(checksum))]
  {
    var s := Scattered(x, y, checksum);
    FlatStep(s, 0);
    FlatStep(s, 1);
    FlatStep(s, 2);
    FlatStep(s, 3);
    FlatStep(s, 4);
    assert s[..5] == s && s[..0] == [];
  }

  lemma ScatteredPeer(a: Announced, sd: Sender, digest: seq<byte> -> Digest, x: byte, y: byte)
    requires a == Announced(2, 2, 1, 1, digest([x, y])) && sd.packet == 1 && sd.payload == [x, y]
    ensures Peer(a, sd, digest, [Got(Packet(0, [x])), Tick, Got(Packet(1, [y])), Tick, Got(Done(a.checksum))])
  {
    assert [x, y][0..1] == [x] && [x, y][1..2] == [y];
  }

  lemma ScatteredFinish(x: byte, y: byte, a: Announced)
    requires a.count == 2 && a.retries == 1
    ensures var heard := [Got(Packet(0, [x])), Tick, Got(Packet(1, [y])), Tick, Got(Done(a.checksum))];
            FinishedAt(heard, 2, 4) && Ticks(heard) == 2 && !exists k :: FinishedInTime(heard, a, k)
  {
    var heard := [Got(Packet(0, [x])), Tick, Got(Packet(1, [y])), Tick, Got(Done(a.checksum))];
    assert heard[..4][0] == heard[0] && heard[..4][2] == heard[2];
    assert heard[..0] == [] && heard[..1] == heard[..0] + [heard[0]] && heard[..2] == heard[..1] + [Tick];
    assert heard[..3] == heard[..2] + [heard[2]] && heard[..4] == heard[..3] + [Tick] && heard == heard[..4] + [heard[4]];
    TicksStep(heard[..0], heard[0]);
    TicksStep(heard[..1], Tick);
    TicksStep(heard[..2], heard[2]);
    TicksStep(heard[..3], Tick);
    TicksStep(heard[..4], heard[4]);
  }
}
