/**
 The receiving side of a UDP write: live sessions, the `finishing` set, the `completed`
 cache, and the blocks that finished sessions are appended to. Every function below is one
 lock-protected section; the class performs the sections in place.
 */
module UdpServer {
  import opened Graph
  import opened Blocks

  const ACK_BITS: nat := 256

  datatype Config = Config(payloadBytes: nat, chunkBytes: nat, maxSessions: nat)

  datatype Key = Key(source: nat, transfer: nat, block: nat)

  datatype Datagram =
    | Start(target: Target, offset: nat, length: nat, count: nat, checksum: Digest)
    | Data(target: Target, offset: nat, sequence: nat, payload: seq<byte>)
    | Fin(target: Target, offset: nat, checksum: Digest)
    | Abort

  datatype Reply =
    | StartAck
    | Ack(base: nat, bits: seq<bool>)
    | Nack(base: nat, bits: seq<bool>)
    | Complete
    | Error
    | Silent

  datatype Session = Session(
    target: Target, baseOffset: nat, packetCount: nat, checksum: Digest, buffer: seq<byte>,
    received: seq<bool>, receivedCount: nat, lastSequence: Option<nat>)

  datatype Server = Server(
    incoming: map<Key, Session>, finishing: set<Key>, completed: set<(Key, nat)>, blocks: map<nat, Block>)

  function DivCeil(n: nat, d: nat): (r: nat)
    requires d > 0
  {
    (n + d - 1) / d
  }

  function Count(flags: seq<bool>): (r: nat)
    ensures r <= |flags|
  {
    if flags == [] then 0 else Count(flags[..|flags| - 1]) + if flags[|flags| - 1] then 1 else 0
  }

  predicate AllSet(flags: seq<bool>) {
    forall k | 0 <= k < |flags| :: flags[k]
  }

  // ---- START ----

  predicate StartValid(c: Config, d: Datagram)
    requires d.Start? && c.payloadBytes > 0
  {
    0 < d.length <= c.chunkBytes && d.count == DivCeil(d.length, c.payloadBytes) && d.offset + d.length <= d.target.totalSize
  }

  predicate StartAdmitted(c: Config, blocks: map<nat, Block>, key: Key, d: Datagram, live: bool)
    requires d.Start? && c.payloadBytes > 0
  {
    && StartValid(c, d) && key.block in blocks
    && var b := blocks[key.block];
       Authorized(b, d.target.lease, live) && b.job == d.target.job && b.generation == d.target.generation
       && |b.bytes| == d.target.totalSize && !b.ready && b.written == d.offset
  }

  function NewSession(d: Datagram): Session
    requires d.Start?
  {
    Session(d.target, d.offset, d.count, d.checksum, seq(d.length, _ => 0), seq(d.count, _ => false), 0, None)
  }

  /** `room`: the RAM accounting could reserve the session's bytes. */
  function OpenSession(c: Config, incoming: map<Key, Session>, key: Key, d: Datagram, room: bool): (map<Key, Session>, Reply)
    requires d.Start?
  {
    if key in incoming then (incoming, StartAck)
    else if |incoming| >= c.maxSessions || !room then (incoming, Error)
    else (incoming[key := NewSession(d)], StartAck)
  }

  // ---- DATA ----

  predicate DataCompleted(c: Config, completed: set<(Key, nat)>, key: Key, d: Datagram)
    requires d.Data?
  {
    d.offset >= d.sequence * c.payloadBytes && (key, d.offset - d.sequence * c.payloadBytes) in completed
  }

  function BlockBase(sequence: nat): nat {
    sequence / ACK_BITS * ACK_BITS
  }

  /** Acknowledges everything around `d`: its transfer has been, or is being, applied. */
  function AckAll(d: Datagram): Reply
    requires d.Data?
  {
    Ack(BlockBase(d.sequence), seq(ACK_BITS, _ => true))
  }

  function AckOf(s: Session, sequence: nat): Reply {
    var base := BlockBase(sequence);
    Ack(base, seq(ACK_BITS, i requires 0 <= i < ACK_BITS => base + i < |s.received| && s.received[base + i]))
  }

  predicate DataFits(c: Config, s: Session, d: Datagram)
    requires d.Data?
  {
    && d.target == s.target && d.sequence < s.packetCount
    && d.offset == s.baseOffset + d.sequence * c.payloadBytes
    && d.sequence * c.payloadBytes + |d.payload| <= |s.buffer|
  }

  /** Copies one packet into the session, unless it is already there. */
  function Store(c: Config, s: Session, d: Datagram): (r: Session)
    requires d.Data? && DataFits(c, s, d) && s.packetCount == |s.received|
  {
    if s.received[d.sequence] then s
    else s.(buffer := Splice(s.buffer, d.sequence * c.payloadBytes, d.payload),
            received := s.received[d.sequence := true], receivedCount := s.receivedCount + 1, lastSequence := Some(d.sequence))
  }

  /** Packets up to the first one that does not fit. */
  function StoreAll(c: Config, s: Session, ds: seq<Datagram>): (r: (Session, bool))
    requires s.packetCount == |s.received| && forall k | 0 <= k < |ds| :: ds[k].Data?
    ensures r.0.packetCount == |r.0.received| == |s.received|
  {
    if ds == [] then (s, true)
    else
      var (front, ok) := StoreAll(c, s, ds[..|ds| - 1]);
      var d := ds[|ds| - 1];
      if ok && DataFits(c, front, d) then (Store(c, front, d), true) else (front, false)
  }

  /** Whether a lone packet that fits is acknowledged at once. */
  predicate AcksNow(s: Session, after: Session, d: Datagram)
    requires d.Data? && d.sequence < |s.received|
  {
    || s.received[d.sequence]
    || (s.lastSequence.Some? && d.sequence < s.lastSequence.value)
    || after.receivedCount % 8 == 0 || after.receivedCount == after.packetCount
  }

  /** The section a DATA batch runs under the session lock; one packet may go unacknowledged. */
  function StoreBatch(c: Config, s: Session, ds: seq<Datagram>): (Session, Reply)
    requires ds != [] && s.packetCount == |s.received| && forall k | 0 <= k < |ds| :: ds[k].Data?
  {
    var (after, ok) := StoreAll(c, s, ds);
    var last := ds[|ds| - 1];
    if !ok then (after, Error)
    else if |ds| == 1 && last.sequence < |s.received| && !AcksNow(s, after, last) then (after, Silent)
    else (after, AckOf(after, last.sequence))
  }

  // ---- FIN ----

  function FirstMissing(flags: seq<bool>): (r: nat)
    ensures r < |flags| ==> !flags[r]
    ensures forall k | 0 <= k < r && k < |flags| :: flags[k]
    ensures r <= |flags|
  {
    if flags == [] then 0
    else
      var r := FirstMissing(flags[..|flags| - 1]);
      if r < |flags| - 1 then r else if flags[|flags| - 1] then |flags| else |flags| - 1
  }

  /** Set bits name missing packets. */
  function NackOf(s: Session): Reply {
    var first := FirstMissing(s.received);
    var base := BlockBase(if first < |s.received| then first else 0);
    Nack(base, seq(ACK_BITS, i requires 0 <= i < ACK_BITS => base + i < |s.received| && !s.received[base + i]))
  }

  predicate FinMatches(s: Session, d: Datagram, digest: seq<byte> -> Digest)
    requires d.Fin?
  {
    d.checksum == s.checksum && digest(s.buffer) == s.checksum
  }

  function FinishStep(key: Key, d: Datagram, s: Session, live: bool): Step
    requires d.Fin?
  {
    Finish(Target(s.target.job, d.target.lease, s.target.generation, s.target.totalSize), key.transfer, s.baseOffset, s.buffer, live)
  }

  // ---- Sessions ----

  /** `received_count` is the number of set flags, and the buffer has room for every packet. */
  predicate SessionOk(c: Config, s: Session) {
    && |s.received| == s.packetCount && s.receivedCount == Count(s.received)
    && c.payloadBytes > 0 && |s.buffer| > 0 && s.packetCount == DivCeil(|s.buffer|, c.payloadBytes)
  }

  lemma {:induction false} CountSet(flags: seq<bool>, k: nat)
    requires k < |flags| && !flags[k]
    ensures Count(flags[k := true]) == Count(flags) + 1
  {
    var n := |flags| - 1;
    if k < n {
      assert flags[k := true][..n] == flags[..n][k := true];
      CountSet(flags[..n], k);
    } else {
      assert flags[k := true][..n] == flags[..n];
    }
  }

  lemma {:induction false} CountAll(flags: seq<bool>)
    ensures Count(flags) == |flags| <==> AllSet(flags)
  {
    if flags != [] {
      var n := |flags| - 1;
      CountAll(flags[..n]);
      assert forall k | 0 <= k < n :: flags[..n][k] == flags[k];
      assert Count(flags[..n]) <= n;
      if flags[n] && Count(flags[..n]) == n {
        forall k | 0 <= k < |flags| ensures flags[k] {
          assert k < n ==> flags[..n][k];
        }
      }
    }
  }

  lemma {:induction false} CountNone(n: nat)
    ensures Count(seq(n, _ => false)) == 0
  {
    if n > 0 {
      assert seq(n, _ => false)[..n - 1] == seq(n - 1, _ => false);
      CountNone(n - 1);
    }
  }

  lemma NewSessionOk(c: Config, d: Datagram)
    requires d.Start? && c.payloadBytes > 0 && StartValid(c, d)
    ensures SessionOk(c, NewSession(d))
  {
    CountNone(d.count);
  }

  lemma StoreKeepsOk(c: Config, s: Session, d: Datagram)
    requires d.Data? && SessionOk(c, s) && DataFits(c, s, d)
    ensures SessionOk(c, Store(c, s, d))
  {
    hide Splice, DivCeil;
    if !s.received[d.sequence] {
      CountSet(s.received, d.sequence);
    }
  }

  lemma {:induction false} StoreAllKeepsOk(c: Config, s: Session, ds: seq<Datagram>)
    requires SessionOk(c, s) && forall k | 0 <= k < |ds| :: ds[k].Data?
    ensures SessionOk(c, StoreAll(c, s, ds).0)
  {
    hide SessionOk, Store, DataFits;
    assert |s.received| == s.packetCount by { SessionLength(c, s); }
    if ds != [] {
      StoreAllKeepsOk(c, s, ds[..|ds| - 1]);
      var (front, ok) := StoreAll(c, s, ds[..|ds| - 1]);
      if ok && DataFits(c, front, ds[|ds| - 1]) {
        StoreKeepsOk(c, front, ds[|ds| - 1]);
      }
    }
  }

  lemma SessionLength(c: Config, s: Session)
    requires SessionOk(c, s)
    ensures |s.received| == s.packetCount
  {
  }

  // ---- What a batch stores, and what is answered ----

  /** `r` acknowledges exactly what has been received of the 256 packets around `sequence`. */
  predicate AcksAround(r: Reply, s: Session, sequence: nat) {
    && r.Ack? && r.base % 256 == 0 && r.base <= sequence < r.base + 256 && |r.bits| == 256
    && forall i | 0 <= i < 256 :: r.bits[i] <==> r.base + i < |s.received| && s.received[r.base + i]
  }

  /** `r` names exactly what is missing among 256 packets, and the first missing packet is one of them. */
  predicate NamesMissing(r: Reply, s: Session) {
    && r.Nack? && r.base % 256 == 0 && |r.bits| == 256
    && (forall i | 0 <= i < 256 :: r.bits[i] <==> r.base + i < |s.received| && !s.received[r.base + i])
    && exists first :: 0 <= first < |s.received| && !s.received[first] && (forall q | 0 <= q < first :: s.received[q])
                       && r.base <= first < r.base + 256
  }

  /** A lone packet that is new, in order, and neither completes the session nor makes the count a multiple of eight. */
  predicate StaysQuiet(before: Session, after: Session, sequence: nat) {
    && sequence < |before.received| && !before.received[sequence]
    && (before.lastSequence.Some? ==> before.lastSequence.value <= sequence)
    && after.receivedCount % 8 != 0 && after.receivedCount != after.packetCount
  }

  predicate ArrivedIn(ds: seq<Datagram>, n: nat, q: nat)
    requires n <= |ds| && forall k | 0 <= k < |ds| :: ds[k].Data?
  {
    exists k :: 0 <= k < n && ds[k].sequence == q
  }

  /** The first `n` packets of the batch fit, and the next one, if there is one, does not. */
  predicate FitUpTo(c: Config, s: Session, ds: seq<Datagram>, n: nat)
    requires forall k | 0 <= k < |ds| :: ds[k].Data?
  {
    n <= |ds| && (forall k | 0 <= k < n :: DataFits(c, s, ds[k])) && (n < |ds| ==> !DataFits(c, s, ds[n]))
  }

  /** Exactly the packets up to the first that does not fit are received besides what was. */
  ghost predicate StoredUpTo(c: Config, s: Session, s': Session, ds: seq<Datagram>)
    requires forall k | 0 <= k < |ds| :: ds[k].Data?
  {
    exists n: nat :: FitUpTo(c, s, ds, n) && |s'.received| == |s.received|
                     && forall q: nat | q < |s.received| :: s'.received[q] <==> s.received[q] || ArrivedIn(ds, n, q)
  }

  predicate SameShape(s: Session, s': Session) {
    && s'.target == s.target && s'.baseOffset == s.baseOffset && s'.packetCount == s.packetCount && s'.checksum == s.checksum
    && |s'.buffer| == |s.buffer| && |s'.received| == |s.received|
  }

  lemma {:induction false} StoreAllExact(c: Config, s: Session, ds: seq<Datagram>) returns (n: nat)
    requires s.packetCount == |s.received| && forall k | 0 <= k < |ds| :: ds[k].Data?
    ensures FitUpTo(c, s, ds, n) && (StoreAll(c, s, ds).1 <==> n == |ds|)
    ensures var s' := StoreAll(c, s, ds).0;
            SameShape(s, s') && forall q: nat | q < |s.received| :: s'.received[q] <==> s.received[q] || ArrivedIn(ds, n, q)
  {
    hide DataFits, ArrivedIn, Store;
    n := 0;
    if ds == [] {
      forall q: nat ensures !ArrivedIn(ds, 0, q) { NoneArrived(ds, q); }
    } else {
      var last, front := |ds| - 1, ds[..|ds| - 1];
      n := StoreAllExact(c, s, front);
      var (before, ok) := StoreAll(c, s, front);
      SameFits(c, s, before, ds[last]);
      assert forall k | 0 <= k < last :: ds[k] == front[k];
      forall q: nat ensures ArrivedIn(ds, n, q) <==> ArrivedIn(front, n, q) { ArrivedFront(ds, n, q); }
      if n == last && DataFits(c, s, ds[last]) {
        StoreExact(c, before, ds[last]);
        forall q: nat ensures ArrivedIn(ds, n + 1, q) <==> ArrivedIn(ds, n, q) || q == ds[n].sequence { ArrivedLast(ds, n, q); }
        n := n + 1;
      }
    }
  }

  lemma NoneArrived(ds: seq<Datagram>, q: nat)
    requires forall k | 0 <= k < |ds| :: ds[k].Data?
    ensures !ArrivedIn(ds, 0, q)
  {
  }

  lemma ArrivedFront(ds: seq<Datagram>, n: nat, q: nat)
    requires n < |ds| && forall k | 0 <= k < |ds| :: ds[k].Data?
    ensures ArrivedIn(ds, n, q) <==> ArrivedIn(ds[..|ds| - 1], n, q)
  {
    if k :| 0 <= k < n && ds[k].sequence == q { assert ds[..|ds| - 1][k].sequence == q; }
  }

  lemma ArrivedLast(ds: seq<Datagram>, n: nat, q: nat)
    requires n < |ds| && forall k | 0 <= k < |ds| :: ds[k].Data?
    ensures ArrivedIn(ds, n + 1, q) <==> ArrivedIn(ds, n, q) || q == ds[n].sequence
  {
    if k :| 0 <= k < n + 1 && ds[k].sequence == q { assert k < n ==> ds[k].sequence == q; }
  }

  /** Whether a packet fits depends on nothing that storing packets changes. */
  lemma SameFits(c: Config, s: Session, s': Session, d: Datagram)
    requires d.Data? && SameShape(s, s')
    ensures DataFits(c, s', d) <==> DataFits(c, s, d)
  {
  }

  lemma StoreExact(c: Config, s: Session, d: Datagram)
    requires d.Data? && DataFits(c, s, d) && s.packetCount == |s.received|
    ensures d.sequence < |s.received| && SameShape(s, Store(c, s, d)) && Store(c, s, d).received == s.received[d.sequence := true]
  {
    hide Splice;
  }

  lemma BatchExact(c: Config, s: Session, ds: seq<Datagram>)
    requires s.packetCount == |s.received| && ds != [] && forall k | 0 <= k < |ds| :: ds[k].Data?
    ensures var (s', reply) := StoreBatch(c, s, ds);
            && StoredUpTo(c, s, s', ds) && (reply.Error? <==> exists k :: 0 <= k < |ds| && !DataFits(c, s, ds[k]))
            && (reply.Error? || reply.Silent? || AcksAround(reply, s', ds[|ds| - 1].sequence))
            && (reply.Silent? ==> |ds| == 1 && StaysQuiet(s, s', ds[0].sequence))
            && (|ds| == 1 && !reply.Error? && StaysQuiet(s, s', ds[0].sequence) ==> reply.Silent?)
  {
    hide StoreAll, DataFits, AckOf, AcksAround;
    var n := StoreAllExact(c, s, ds);
    var after := StoreAll(c, s, ds).0;
    AckExact(after, ds[|ds| - 1].sequence);
    if n < |ds| { assert !DataFits(c, s, ds[n]); }
    assert StoredUpTo(c, s, after, ds);
  }

  lemma AckExact(s: Session, sequence: nat)
    ensures AcksAround(AckOf(s, sequence), s, sequence) && !AckOf(s, sequence).Error? && !AckOf(s, sequence).Silent?
  {
    assert sequence / 256 * 256 % 256 == 0;
  }

  lemma NackExact(s: Session)
    requires !AllSet(s.received)
    ensures NamesMissing(NackOf(s), s)
  {
    var first := FirstMissing(s.received);
    assert first < |s.received|;
    assert first / 256 * 256 % 256 == 0;
  }

  // ---- The server in memory ----

  class Receiver {
    const c: Config
    const digest: seq<byte> -> Digest
    var incoming: map<Key, Session>
    var finishing: set<Key>
    var completed: set<(Key, nat)>
    var blocks: map<nat, Block>

    ghost function Abs(): Server
      reads this
    {
      Server(incoming, finishing, completed, blocks)
    }

    ghost predicate Valid()
      reads this
    {
      c.payloadBytes > 0 && forall k | k in incoming :: SessionOk(c, incoming[k])
    }

    constructor (c: Config, digest: seq<byte> -> Digest)
      requires c.payloadBytes > 0
      ensures Valid() && this.c == c && this.digest == digest && Abs() == Server(map[], {}, {}, map[])
    {
      this.c, this.digest := c, digest;
      incoming, finishing, completed, blocks := map[], {}, {}, map[];
    }

    /**
     A START that was admitted. A live session is left as it is and confirmed again, however full the
     server is; otherwise an empty session is opened if there is room for one.
     */
    method Open(key: Key, d: Datagram, room: bool) returns (reply: Reply)
      requires Valid() && d.Start? && StartValid(c, d)
      modifies this`incoming
      ensures Valid() && (incoming, reply) == OpenSession(c, old(incoming), key, d, room)
      ensures key in old(incoming) ==> reply == StartAck && incoming == old(incoming)
      ensures key !in old(incoming) && room && |old(incoming)| < c.maxSessions ==>
                && reply == StartAck && key in incoming && incoming - {key} == old(incoming)
                && incoming[key].target == d.target && incoming[key].baseOffset == d.offset
                && incoming[key].packetCount == d.count && incoming[key].checksum == d.checksum
                && |incoming[key].buffer| == d.length && |incoming[key].received| == d.count && incoming[key].receivedCount == 0
                && incoming[key].lastSequence == None && forall q | 0 <= q < d.count :: !incoming[key].received[q]
      ensures key !in old(incoming) && !(room && |old(incoming)| < c.maxSessions) ==> reply == Error && incoming == old(incoming)
    {
      if key in incoming { return StartAck; }
      if |incoming| >= c.maxSessions || !room { return Error; }
      NewSessionOk(c, d);
      incoming := incoming[key := NewSession(d)];
      reply := StartAck;
    }

    /** One packet of a batch. */
    method StorePacket(key: Key, d: Datagram) returns (ok: bool)
      requires Valid() && key in incoming && d.Data?
      modifies this`incoming
      ensures Valid() && ok == DataFits(c, old(incoming[key]), d)
      ensures incoming == if ok then old(incoming)[key := Store(c, old(incoming[key]), d)] else old(incoming)
      ensures var s, at := old(incoming[key]), d.sequence * c.payloadBytes;
              ok <==> d.target == s.target && d.sequence < s.packetCount && d.offset == s.baseOffset + at && at + |d.payload| <= |s.buffer|
      ensures ok ==> var s, s', at := old(incoming[key]), incoming[key], d.sequence * c.payloadBytes;
                     && s' == s.(buffer := s'.buffer, received := s'.received, receivedCount := s'.receivedCount, lastSequence := s'.lastSequence)
                     && s'.received == s.received[d.sequence := true] && |s'.buffer| == |s.buffer|
                     && (s.received[d.sequence] ==> s' == s)
                     && (!s.received[d.sequence] ==>
                           s'.receivedCount == s.receivedCount + 1 && s'.lastSequence == Some(d.sequence)
                           && s'.buffer[at..at + |d.payload|] == d.payload
                           && s'.buffer[..at] == s.buffer[..at] && s'.buffer[at + |d.payload|..] == s.buffer[at + |d.payload|..])
    {
      var s := incoming[key];
      ok := d.target == s.target && d.sequence < s.packetCount && d.offset == s.baseOffset + d.sequence * c.payloadBytes
            && d.sequence * c.payloadBytes + |d.payload| <= |s.buffer|;
      if !ok { return; }
      StoreKeepsOk(c, s, d);
      if !s.received[d.sequence] {
        s := s.(buffer := Splice(s.buffer, d.sequence * c.payloadBytes, d.payload));
        s := s.(received := s.received[d.sequence := true]);
        s := s.(receivedCount := s.receivedCount + 1);
        s := s.(lastSequence := Some(d.sequence));
      }
      incoming := incoming[key := s];
    }

    /** A run of packets that arrived together; the first bad one ends it, what came before stays stored. */
    method StorePackets(key: Key, ds: seq<Datagram>) returns (reply: Reply)
      requires Valid() && key in incoming && ds != [] && forall k | 0 <= k < |ds| :: ds[k].Data?
      modifies this`incoming
      ensures Valid() && incoming == old(incoming)[key := StoreBatch(c, old(incoming[key]), ds).0]
      ensures reply == StoreBatch(c, old(incoming[key]), ds).1
      ensures reply.Error? <==> exists k :: 0 <= k < |ds| && !DataFits(c, old(incoming[key]), ds[k])
      ensures reply.Error? || reply.Silent? || AcksAround(reply, incoming[key], ds[|ds| - 1].sequence)
      ensures reply.Silent? ==> |ds| == 1 && StaysQuiet(old(incoming[key]), incoming[key], ds[0].sequence)
      ensures |ds| == 1 && !reply.Error? && StaysQuiet(old(incoming[key]), incoming[key], ds[0].sequence) ==> reply.Silent?
      ensures StoredUpTo(c, old(incoming[key]), incoming[key], ds)
    {
      hide SessionOk, DataFits, Store, AckOf, AcksAround, StaysQuiet, StoredUpTo;
      ghost var before := incoming[key];
      SessionLength(c, before);
      BatchExact(c, before, ds);
      var last := ds[|ds| - 1];
      var quiet := false;
      for k := 0 to |ds|
        invariant Valid() && key in incoming
        invariant StoreAll(c, before, ds[..k]) == (incoming[key], true)
        invariant incoming == old(incoming)[key := incoming[key]]
        invariant quiet == (k == 1 == |ds| && last.sequence < |before.received| && !AcksNow(before, incoming[key], last))
      {
        SessionLength(c, incoming[key]);
        assert ds[..k + 1][..k] == ds[..k];
        var s := incoming[key];
        var ok := StorePacket(key, ds[k]);
        if !ok {
          StopsAt(c, before, ds, k);
          return Error;
        }
        quiet := |ds| == 1 && last.sequence < |s.received| && !AcksNow(s, incoming[key], last);
      }
      assert ds[..|ds|] == ds;
      reply := if quiet then Silent else AckOf(incoming[key], last.sequence);
    }

    /** Looks for the session a FIN closes; a complete, intact one is taken out and marked as finishing. */
    method Take(key: Key, d: Datagram) returns (taken: Option<Session>, reply: Reply)
      requires Valid() && key in incoming && d.Fin?
      modifies this`incoming, this`finishing
      ensures Valid()
      ensures taken.Some? <==> AllSet(old(incoming[key]).received) && FinMatches(old(incoming[key]), d, digest)
      ensures taken.Some? ==> taken.value == old(incoming[key]) && incoming == old(incoming) - {key} && finishing == old(finishing) + {key}
      ensures taken.None? ==> incoming == old(incoming) && finishing == old(finishing)
      ensures taken.None? ==>
                reply == if AllSet(incoming[key].received) then Error else NackOf(incoming[key])
      ensures taken.None? && !AllSet(incoming[key].received) ==> NamesMissing(reply, incoming[key])
    {
      hide NamesMissing, NackOf;
      var s := incoming[key];
      CountAll(s.received);
      if s.receivedCount != s.packetCount {
        NackExact(s);
        return None, NackOf(s);
      }
      if d.checksum != s.checksum || digest(s.buffer) != s.checksum { return None, Error; }
      finishing := finishing + {key};
      incoming := incoming - {key};
      return Some(s), Silent;
    }

    /** Moves a finished session into its block. */
    method Finalize(key: Key, d: Datagram, s: Session, live: bool) returns (ok: bool)
      requires Valid() && d.Fin?
      modifies this`blocks
      ensures Valid()
      ensures ok == (key.block in old(blocks) && FinishAllowed(old(blocks)[key.block], FinishStep(key, d, s, live)))
      ensures blocks == if ok then old(blocks)[key.block := Apply(old(blocks)[key.block], FinishStep(key, d, s, live), digest)]
                        else old(blocks)
      ensures ok <==> key.block in old(blocks) &&
                      var b := old(blocks)[key.block];
                      d.target.lease == b.lease && live && b.generation == s.target.generation && !b.ready
                      && b.written == s.baseOffset && s.baseOffset + |s.buffer| <= |b.bytes|
      ensures ok ==> key.block in blocks && blocks - {key.block} == old(blocks) - {key.block} && Grown(old(blocks)[key.block], blocks[key.block], key.transfer, s.buffer)
    {
      if key.block !in blocks { return false; }
      var b := blocks[key.block];
      ok := d.target.lease == b.lease && live && b.generation == s.target.generation && !b.ready
            && b.written == s.baseOffset && s.baseOffset + |s.buffer| <= |b.bytes|;
      if ok {
        blocks := blocks[key.block := Append(b, key.transfer, s.baseOffset, s.buffer)];
      }
    }
  }

  /** Once a packet does not fit, nothing after it is stored. */
  lemma {:induction false} StopsAt(c: Config, s: Session, ds: seq<Datagram>, k: nat)
    requires s.packetCount == |s.received| && k < |ds| && forall j | 0 <= j < |ds| :: ds[j].Data?
    requires StoreAll(c, s, ds[..k]).1 && !DataFits(c, StoreAll(c, s, ds[..k]).0, ds[k])
    ensures StoreAll(c, s, ds) == (StoreAll(c, s, ds[..k]).0, false)
    decreases |ds|
  {
    hide Store, DataFits;
    var n := |ds| - 1;
    if k < n {
      assert ds[..n][..k] == ds[..k];
      StopsAt(c, s, ds[..n], k);
    }
  }
}
