/**
 The other side of safety: a write that nothing disturbs succeeds. From every state, whatever else
 is going on in it, a new sender whose block is waiting for exactly its bytes gets START, DATA and
 FIN answered so that it finishes, with its payload appended and nothing else touched.
 */
module UdpDelivery {
  import opened Graph
  import opened Blocks
  import opened UdpServer
  import opened UdpProtocol
  import opened UdpSafety

  /** The protocol can go from `s` to `t`. */
  ghost predicate Leads(c: Config, digest: seq<byte> -> Digest, s: State, t: State) {
    exists states, events :: Goes(c, digest, s, states, events, t)
  }

  ghost predicate Goes(c: Config, digest: seq<byte> -> Digest, s: State, states: seq<State>, events: seq<Event>, t: State) {
    && |states| == |events| + 1 && states[0] == s && states[|events|] == t
    && forall i | 0 <= i < |events| ::
         Typed(c, states[i]) && Enabled(states[i], events[i]) && states[i + 1] == Next(c, digest, states[i], events[i])
  }

  ghost predicate Gone(c: Config, digest: seq<byte> -> Digest, s: State, t: State) {
    Typed(c, t) && Leads(c, digest, s, t)
  }

  lemma Nowhere(c: Config, digest: seq<byte> -> Digest, s: State)
    requires Typed(c, s)
    ensures Gone(c, digest, s, s)
  {
    var states, events: seq<Event> := [s], [];
    assert Goes(c, digest, s, states, events, s);
  }

  lemma Onward(c: Config, digest: seq<byte> -> Digest, s: State, t: State, e: Event)
    requires Gone(c, digest, s, t) && Enabled(t, e)
    ensures Leads(c, digest, s, Next(c, digest, t, e))
  {
    hide Typed, Enabled, Next;
    var states, events :| Goes(c, digest, s, states, events, t);
    var states', events' := states + [Next(c, digest, t, e)], events + [e];
    forall i | 0 <= i < |events'|
      ensures Typed(c, states'[i]) && Enabled(states'[i], events'[i]) && states'[i + 1] == Next(c, digest, states'[i], events'[i])
    {
      if i < |events| { assert states'[i] == states[i] && states'[i + 1] == states[i + 1] && events'[i] == events[i]; }
    }
    assert Goes(c, digest, s, states', events', Next(c, digest, t, e));
  }

  lemma Take(c: Config, digest: seq<byte> -> Digest, s: State, t: State, e: Section, t': State)
    requires Gone(c, digest, s, t) && SectionEnabled(t, e)
    requires Typed(c, t) ==> t' == NextSection(c, digest, t, e)
    ensures Gone(c, digest, s, t')
  {
    hide Typed, NextSection, SectionEnabled, Leads;
    Onward(c, digest, s, t, Receiver(e));
    TypedAfterSection(c, digest, t, e);
  }

  lemma Meet(c: Config, digest: seq<byte> -> Digest, s: State, t: State, e: Happening, t': State)
    requires Gone(c, digest, s, t) && HappeningEnabled(t, e)
    requires Typed(c, t) ==> t' == NextHappening(digest, t, e)
    ensures Gone(c, digest, s, t')
  {
    hide Typed, NextHappening, HappeningEnabled, Leads;
    Onward(c, digest, s, t, Elsewhere(e));
    TypedAfterHappening(c, digest, t, e);
    assert AllAlive(t) by { TypedAlive(c, t); }
  }

  lemma TypedAlive(c: Config, s: State)
    requires Typed(c, s)
    ensures AllAlive(s)
  {
  }

  // ---- The sender and its session after `done` packets ----

  function Flags(count: nat, done: nat): (r: seq<bool>)
    ensures |r| == count
  {
    seq(count, q => q < done)
  }

  function After(w: Sender, phase: Phase, done: nat): Sender
    requires w.packet > 0
  {
    w.(phase := phase, acknowledged := Flags(Packets(w), done))
  }

  function UpTo(w: Sender, done: nat): (n: nat)
    ensures n <= |w.payload|
  {
    if done * w.packet <= |w.payload| then done * w.packet else |w.payload|
  }

  function Arrived(w: Sender, done: nat): (r: seq<byte>)
    ensures |r| == |w.payload|
  {
    w.payload[..UpTo(w, done)] + seq(|w.payload| - UpTo(w, done), _ => 0)
  }

  function SessionAt(w: Sender, digest: seq<byte> -> Digest, done: nat): Session
    requires w.packet > 0
  {
    Session(w.target, w.offset, Packets(w), digest(w.payload), Arrived(w, done), Flags(Packets(w), done), done,
            if done == 0 then None else Some(done - 1))
  }

  /** A sender that has not begun, of a size the receiver takes. */
  predicate Starts(c: Config, w: Sender) {
    && w.packet == c.payloadBytes > 0 && 0 < |w.payload| <= c.chunkBytes
    && w.phase == Handshake && w.acknowledged == Flags(Packets(w), 0)
    && w.offset + |w.payload| <= w.target.totalSize
  }

  /** The block is waiting for exactly these bytes. */
  predicate Awaits(b: Block, w: Sender) {
    && b.lease == w.target.lease && b.job == w.target.job && b.generation == w.target.generation && |b.bytes| == w.target.totalSize
    && !b.ready && b.written == w.offset
  }

  /** Between sections: everything is as in `s0`, except the sender and its session. */
  ghost predicate On(s0: State, s: State, key: Key, sd: Sender, session: Option<Session>) {
    && s.tasks == s0.tasks && s.senders == s0.senders[key := sd]
    && s.server == s0.server.(incoming := if session.Some? then s0.server.incoming[key := session.value] else s0.server.incoming)
    && s.log == s0.log && s.made == s0.made && s.current == s0.current && s.dropped == s0.dropped
  }

  lemma Sendables(c: Config, w: Sender, phase: Phase, done: nat)
    requires Starts(c, w) && phase != Succeeded
    ensures SenderOk(After(w, phase, done)) && Packets(w) > 0
  {
    DivCeilBounds(|w.payload|, w.packet);
  }

  // ---- START ----

  lemma FirstSession(c: Config, digest: seq<byte> -> Digest, w: Sender)
    requires Starts(c, w)
    ensures NewSession(StartOf(w, digest)) == SessionAt(w, digest, 0) && StartValid(c, StartOf(w, digest))
  {
    assert Arrived(w, 0) == seq(|w.payload|, _ => 0);
    assert Flags(Packets(w), 0) == seq(Packets(w), _ => false);
  }

  lemma Begins(c: Config, digest: seq<byte> -> Digest, s0: State, key: Key, w: Sender) returns (s: State)
    requires Typed(c, s0) && Starts(c, w) && Unused(s0, key)
    ensures Gone(c, digest, s0, s) && On(s0, s, key, w, None) && (key, StartOf(w, digest)) in s.net
  {
    hide Gone, Typed, StartOf, Packets, Unused;
    Nowhere(c, digest, s0);
    Sendables(c, w, Handshake, 0);
    assert w == After(w, Handshake, 0);
    s := Sent(WithSender(s0, key, w), key, StartOf(w, digest));
    Meet(c, digest, s0, s0, NewSender(key, w), s);
  }

  lemma Opens(c: Config, digest: seq<byte> -> Digest, s0: State, s: State, key: Key, w: Sender, id: nat) returns (s': State)
    requires Starts(c, w) && Gone(c, digest, s0, s) && On(s0, s, key, w, None) && (key, StartOf(w, digest)) in s.net
    requires id !in s0.tasks && key !in s0.server.incoming && |s0.server.incoming| < c.maxSessions
    requires key.block in s0.server.blocks && Awaits(s0.server.blocks[key.block], w)
    ensures Gone(c, digest, s0, s') && On(s0, s', key, w, Some(SessionAt(w, digest, 0))) && (key, StartAck) in s'.replies
  {
    hide Gone, Typed, Packets, SessionAt;
    var d := StartOf(w, digest);
    FirstSession(c, digest, w);
    var s1 := Begun(s, id, Opening(key, d));
    Take(c, digest, s0, s, RecvStart(id, key, d, true), s1);
    s' := Answered(WithServer(s1, s1.server.incoming[key := SessionAt(w, digest, 0)], s1.server.finishing), id, StartAck);
    Take(c, digest, s0, s1, OpenTask(id, true), s');
  }

  lemma ShakesHands(c: Config, digest: seq<byte> -> Digest, s0: State, s: State, key: Key, w: Sender) returns (s': State)
    requires Starts(c, w) && Gone(c, digest, s0, s) && On(s0, s, key, w, Some(SessionAt(w, digest, 0))) && (key, StartAck) in s.replies
    ensures Gone(c, digest, s0, s') && On(s0, s', key, After(w, Sending, 0), Some(SessionAt(w, digest, 0)))
  {
    hide Gone, Typed, Packets, SessionAt;
    Sendables(c, w, Handshake, 0);
    assert w == After(w, Handshake, 0);
    s' := WithSender(s, key, After(w, Sending, 0));
    Meet(c, digest, s0, s, Handshaken(key), s');
  }

  // ---- DATA ----

  lemma StoresOne(c: Config, digest: seq<byte> -> Digest, w: Sender, q: nat)
    requires Starts(c, w) && q < Packets(w)
    ensures var s, d := SessionAt(w, digest, q), DataOf(w, q);
            DataFits(c, s, d) && Store(c, s, d) == SessionAt(w, digest, q + 1)
  {
    Tiles(w, q);
    var s, d := SessionAt(w, digest, q), DataOf(w, q);
    assert UpTo(w, q) == Begin(w, q) && UpTo(w, q + 1) == End(w, q);
    assert Splice(s.buffer, Begin(w, q), d.payload) == Arrived(w, q + 1) by { Splices(w, q); }
    assert s.received[q := true] == Flags(Packets(w), q + 1);
  }

  lemma Splices(w: Sender, q: nat)
    requires w.packet > 0 && q < Packets(w) && Begin(w, q) <= End(w, q) <= |w.payload| && UpTo(w, q) == Begin(w, q) && UpTo(w, q + 1) == End(w, q)
    ensures Splice(Arrived(w, q), Begin(w, q), w.payload[Begin(w, q)..End(w, q)]) == Arrived(w, q + 1)
  {
    hide UpTo, Begin, End, Packets;
  }

  function Batch(w: Sender, lo: nat, hi: nat): (ds: seq<Datagram>)
    requires w.packet > 0 && lo <= hi <= Packets(w)
    ensures |ds| == hi - lo && forall k | 0 <= k < |ds| :: ds[k] == DataOf(w, lo + k) && ds[k].Data?
  {
    seq(hi - lo, k requires 0 <= k < hi - lo => DataOf(w, lo + k))
  }

  lemma {:induction false} StoresBatch(c: Config, digest: seq<byte> -> Digest, w: Sender, lo: nat, hi: nat)
    requires Starts(c, w) && lo <= hi <= Packets(w)
    ensures StoreAll(c, SessionAt(w, digest, lo), Batch(w, lo, hi)) == (SessionAt(w, digest, hi), true)
    decreases hi
  {
    hide Packets, DataOf, Store, DataFits, Arrived;
    if lo < hi {
      StoresBatch(c, digest, w, lo, hi - 1);
      StoresOne(c, digest, w, hi - 1);
      var ds := Batch(w, lo, hi);
      assert ds[..|ds| - 1] == Batch(w, lo, hi - 1);
    }
  }

  /** A batch that ends its block of 256, or the payload, is acknowledged at once. */
  lemma BatchIsAcked(c: Config, digest: seq<byte> -> Digest, w: Sender, lo: nat, hi: nat)
    requires Starts(c, w) && lo < hi <= Packets(w) && (hi == Packets(w) || hi == lo + ACK_BITS)
    ensures StoreBatch(c, SessionAt(w, digest, lo), Batch(w, lo, hi)) == (SessionAt(w, digest, hi), AckOf(SessionAt(w, digest, hi), hi - 1))
  {
    hide Packets, StoreAll, AckOf, Arrived;
    StoresBatch(c, digest, w, lo, hi);
    assert Batch(w, lo, hi)[hi - lo - 1] == DataOf(w, hi - 1) && DataOf(w, hi - 1).sequence == hi - 1;
  }

  lemma AckMarks(c: Config, digest: seq<byte> -> Digest, w: Sender, lo: nat, hi: nat)
    requires Starts(c, w) && lo < hi <= Packets(w) && lo % ACK_BITS == 0 && hi <= lo + ACK_BITS
    ensures AckOf(SessionAt(w, digest, hi), hi - 1).Ack?
    ensures Marked(Flags(Packets(w), lo), AckOf(SessionAt(w, digest, hi), hi - 1)) == Flags(Packets(w), hi)
  {
    hide Packets, Arrived;
    assert BlockBase(hi - 1) == lo by { SameBlock(lo, hi - 1); }
  }

  lemma SameBlock(lo: nat, q: nat)
    requires lo % ACK_BITS == 0 && lo <= q < lo + ACK_BITS
    ensures BlockBase(q) == lo
  {
  }

  lemma {:induction false} SendsAll(c: Config, digest: seq<byte> -> Digest, s0: State, s: State, key: Key, w: Sender, done: nat, lo: nat, hi: nat)
    returns (s': State)
    requires Starts(c, w) && lo <= hi <= Packets(w) && Gone(c, digest, s0, s)
    requires On(s0, s, key, After(w, Sending, done), Some(SessionAt(w, digest, done)))
    ensures Gone(c, digest, s0, s') && On(s0, s', key, After(w, Sending, done), Some(SessionAt(w, digest, done)))
    ensures forall q | lo <= q < hi :: (key, DataOf(w, q)) in s'.net
    decreases hi
  {
    hide Gone, Typed, Packets, SessionAt, DataOf;
    s' := s;
    if lo < hi {
      var s1 := SendsAll(c, digest, s0, s, key, w, done, lo, hi - 1);
      Sendables(c, w, Sending, done);
      s' := Sent(s1, key, DataOf(w, hi - 1));
      SameData(w, After(w, Sending, done), hi - 1);
      Meet(c, digest, s0, s1, SendData(key, hi - 1), s');
    }
  }

  lemma SameData(w: Sender, v: Sender, q: nat)
    requires w.packet > 0 && v == w.(phase := v.phase, acknowledged := v.acknowledged) && q < Packets(w)
    ensures Packets(v) == Packets(w) && DataOf(v, q) == DataOf(w, q)
  {
  }

  /** One block of packets is stored and acknowledged. */
  lemma Stores(c: Config, digest: seq<byte> -> Digest, s0: State, s: State, key: Key, w: Sender, id: nat, lo: nat, hi: nat) returns (s': State)
    requires Starts(c, w) && lo < hi <= Packets(w) && (hi == lo + ACK_BITS || hi == Packets(w))
    requires Gone(c, digest, s0, s) && On(s0, s, key, After(w, Sending, lo), Some(SessionAt(w, digest, lo)))
    requires id !in s0.tasks && (key, w.offset) !in s0.server.completed && forall q | lo <= q < hi :: (key, DataOf(w, q)) in s.net
    ensures Gone(c, digest, s0, s') && On(s0, s', key, After(w, Sending, lo), Some(SessionAt(w, digest, hi)))
    ensures (key, AckOf(SessionAt(w, digest, hi), hi - 1)) in s'.replies
  {
    hide Gone, Typed, Packets, SessionAt, DataOf, AckOf, After, StoreBatch, Batch;
    var ds, session := Batch(w, lo, hi), SessionAt(w, digest, hi);
    var ack := AckOf(session, hi - 1);
    NotCompleted(c, s0, key, w, lo, hi);
    var s1 := Begun(s, id, Storing(key, ds));
    Take(c, digest, s0, s, RecvData(id, key, ds), s1);
    BatchIsAcked(c, digest, w, lo, hi);
    s' := Answered(WithServer(s1, s1.server.incoming[key := session], s1.server.finishing), id, ack);
    Take(c, digest, s0, s1, StoreTask(id), s');
  }

  lemma Learns(c: Config, digest: seq<byte> -> Digest, s0: State, s: State, key: Key, w: Sender, lo: nat, hi: nat) returns (s': State)
    requires Starts(c, w) && lo < hi <= Packets(w) && lo % ACK_BITS == 0 && hi <= lo + ACK_BITS
    requires Gone(c, digest, s0, s) && On(s0, s, key, After(w, Sending, lo), Some(SessionAt(w, digest, hi)))
    requires (key, AckOf(SessionAt(w, digest, hi), hi - 1)) in s.replies
    ensures Gone(c, digest, s0, s') && On(s0, s', key, After(w, Sending, hi), Some(SessionAt(w, digest, hi)))
  {
    hide Gone, Typed, Packets, SessionAt, AckOf, Marked, Flags;
    AckMarks(c, digest, w, lo, hi);
    Sendables(c, w, Sending, lo);
    s' := WithSender(s, key, After(w, Sending, hi));
    Meet(c, digest, s0, s, TakeAck(key, AckOf(SessionAt(w, digest, hi), hi - 1)), s');
  }

  /** One block of packets is sent, stored, acknowledged and known to be. */
  lemma OneBlock(c: Config, digest: seq<byte> -> Digest, s0: State, s: State, key: Key, w: Sender, id: nat, lo: nat, hi: nat) returns (s': State)
    requires Starts(c, w) && lo < hi <= Packets(w) && lo % ACK_BITS == 0 && (hi == lo + ACK_BITS || (hi == Packets(w) && hi <= lo + ACK_BITS))
    requires Gone(c, digest, s0, s) && On(s0, s, key, After(w, Sending, lo), Some(SessionAt(w, digest, lo)))
    requires id !in s0.tasks && (key, w.offset) !in s0.server.completed
    ensures Gone(c, digest, s0, s') && On(s0, s', key, After(w, Sending, hi), Some(SessionAt(w, digest, hi)))
  {
    hide Gone, On, Packets, SessionAt, After, DataOf, AckOf, Starts;
    var s1 := SendsAll(c, digest, s0, s, key, w, lo, lo, hi);
    var s2 := Stores(c, digest, s0, s1, key, w, id, lo, hi);
    s' := Learns(c, digest, s0, s2, key, w, lo, hi);
  }

  lemma NotCompleted(c: Config, s0: State, key: Key, w: Sender, lo: nat, hi: nat)
    requires Starts(c, w) && lo < hi <= Packets(w) && (key, w.offset) !in s0.server.completed
    ensures !DataCompleted(c, s0.server.completed, key, Batch(w, lo, hi)[0])
  {
    assert Batch(w, lo, hi)[0] == DataOf(w, lo);
  }

  lemma {:induction false} AllBlocks(c: Config, digest: seq<byte> -> Digest, s0: State, s: State, key: Key, w: Sender, id: nat, lo: nat) returns (s': State)
    requires Starts(c, w) && lo <= Packets(w) && (lo % ACK_BITS == 0 || lo == Packets(w))
    requires Gone(c, digest, s0, s) && On(s0, s, key, After(w, Sending, lo), Some(SessionAt(w, digest, lo)))
    requires id !in s0.tasks && (key, w.offset) !in s0.server.completed
    ensures Gone(c, digest, s0, s') && On(s0, s', key, After(w, Sending, Packets(w)), Some(SessionAt(w, digest, Packets(w))))
    decreases Packets(w) - lo
  {
    hide Gone, On, Packets, SessionAt;
    s' := s;
    if lo < Packets(w) {
      var hi := if lo + ACK_BITS <= Packets(w) then lo + ACK_BITS else Packets(w);
      var s1 := OneBlock(c, digest, s0, s, key, w, id, lo, hi);
      s' := AllBlocks(c, digest, s0, s1, key, w, id, hi);
    }
  }

  // ---- FIN ----

  /** The session of a sender all of whose packets have arrived holds the payload. */
  lemma Whole(c: Config, digest: seq<byte> -> Digest, w: Sender)
    requires Starts(c, w)
    ensures var s := SessionAt(w, digest, Packets(w)); s.buffer == w.payload && AllSet(s.received) && FinMatches(s, FinOf(w, digest), digest)
    ensures AllSet(After(w, Sending, Packets(w)).acknowledged)
  {
    DivCeilBounds(|w.payload|, w.packet);
    assert UpTo(w, Packets(w)) == |w.payload|;
  }

  lemma Fins(c: Config, digest: seq<byte> -> Digest, s0: State, s: State, key: Key, w: Sender, id: nat) returns (s': State)
    requires Starts(c, w) && Gone(c, digest, s0, s) && id !in s0.tasks && (key, w.offset) !in s0.server.completed
    requires On(s0, s, key, After(w, Sending, Packets(w)), Some(SessionAt(w, digest, Packets(w))))
    ensures Gone(c, digest, s0, s') && s' == s.(tasks := s0.tasks[id := Finding(key, FinOf(w, digest))], net := s'.net)
  {
    hide Gone, Typed, Packets, SessionAt, After;
    Sendables(c, w, Sending, Packets(w));
    Whole(c, digest, w);
    SameFin(w, Sending, Packets(w), digest);
    var d := FinOf(w, digest);
    var s1 := Sent(s, key, d);
    Meet(c, digest, s0, s, SendFin(key), s1);
    s' := Begun(s1, id, Finding(key, d));
    Take(c, digest, s0, s1, RecvFin(id, key, d), s');
  }

  lemma Finds(c: Config, digest: seq<byte> -> Digest, s0: State, s: State, key: Key, w: Sender, id: nat) returns (s': State)
    requires Starts(c, w) && Gone(c, digest, s0, s) && key !in s0.server.incoming && s.tasks == s0.tasks[id := Finding(key, FinOf(w, digest))]
    requires On(s0, s.(tasks := s0.tasks), key, After(w, Sending, Packets(w)), Some(SessionAt(w, digest, Packets(w))))
    ensures Gone(c, digest, s0, s') && s'.tasks == s0.tasks[id := Finalizing(key, FinOf(w, digest), SessionAt(w, digest, Packets(w)))]
    ensures s'.senders == s0.senders[key := After(w, Sending, Packets(w))] && s'.server == s0.server.(finishing := s0.server.finishing + {key})
    ensures s'.log == s0.log && s'.made == s0.made && s'.current == s0.current && s'.dropped == s0.dropped
  {
    hide Gone, Typed, Packets, SessionAt, After;
    var d, session := FinOf(w, digest), SessionAt(w, digest, Packets(w));
    Whole(c, digest, w);
    s' := Begun(WithServer(s, s.server.incoming - {key}, s.server.finishing + {key}), id, Finalizing(key, d, session));
    Take(c, digest, s0, s, FindTask(id), s');
    assert s0.server.incoming[key := session] - {key} == s0.server.incoming;
  }

  lemma SameFin(w: Sender, phase: Phase, done: nat, digest: seq<byte> -> Digest)
    requires w.packet > 0
    ensures FinOf(After(w, phase, done), digest) == FinOf(w, digest) && FinOf(w, digest).Fin? && FinOf(w, digest).offset == w.offset
    ensures After(w, phase, done).phase == phase
  {
  }

  /** The block the payload has been moved into. */
  function Grows(b: Block, key: Key, w: Sender): Block
    requires w.offset + |w.payload| <= |b.bytes|
  {
    b.(bytes := b.bytes[..w.offset] + w.payload + b.bytes[w.offset + |w.payload|..], absorbed := b.absorbed + w.payload,
       transfer := Some(key.transfer), written := w.offset + |w.payload|)
  }

  lemma Moves(c: Config, digest: seq<byte> -> Digest, b: Block, key: Key, w: Sender)
    requires Starts(c, w) && Awaits(b, w)
    ensures var step := FinishStep(key, FinOf(w, digest), SessionAt(w, digest, Packets(w)), true);
            FinishAllowed(b, step) && Apply(b, step, digest) == Grows(b, key, w)
  {
    hide Packets;
    Whole(c, digest, w);
  }

  lemma Appends(c: Config, digest: seq<byte> -> Digest, s0: State, s: State, key: Key, w: Sender, id: nat) returns (s': State)
    requires Starts(c, w) && Gone(c, digest, s0, s) && id !in s0.tasks && Alive(s0, key.block)
    requires key.block in s0.server.blocks && Awaits(s0.server.blocks[key.block], w)
    requires s.tasks == s0.tasks[id := Finalizing(key, FinOf(w, digest), SessionAt(w, digest, Packets(w)))]
    requires s.server == s0.server.(finishing := s0.server.finishing + {key}) && s.log == s0.log && s.current == s0.current
    ensures Gone(c, digest, s0, s') && s'.tasks == s0.tasks[id := Marking(key, FinOf(w, digest))] && s'.senders == s.senders
    ensures s'.server == s.server.(blocks := s0.server.blocks[key.block := Grows(s0.server.blocks[key.block], key, w)])
    ensures s'.log == s0.log[s0.current[key.block] := s0.log[s0.current[key.block]] + [Entry(Some(key), w.offset, w.payload)]]
    ensures s'.made == s.made && s'.current == s.current && s'.dropped == s.dropped
  {
    hide Gone, Typed, Packets, SessionAt, FinishAllowed, Apply;
    var b, d, session := s0.server.blocks[key.block], FinOf(w, digest), SessionAt(w, digest, Packets(w));
    SameFin(w, Sending, 0, digest);
    Moves(c, digest, b, key, w);
    s' := Begun(WithBlock(s, key.block, Some(key), Grows(b, key, w)), id, Marking(key, d));
    Take(c, digest, s0, s, FinalizeTask(id, true), s');
    assert Grows(b, key, w).bytes[w.offset..w.offset + |w.payload|] == w.payload;
    assert |w.payload| > 0 && |Grows(b, key, w).bytes| == |b.bytes|;
  }

  lemma Completes(c: Config, digest: seq<byte> -> Digest, s0: State, s: State, key: Key, d: Datagram, id: nat) returns (s': State)
    requires Gone(c, digest, s0, s) && id !in s0.tasks && key !in s0.server.finishing && d.Fin?
    requires s.tasks == s0.tasks[id := Marking(key, d)] && s.server.finishing == s0.server.finishing + {key}
    ensures Gone(c, digest, s0, s') && s'.tasks == s0.tasks && s'.senders == s.senders && (key, Complete) in s'.replies
    ensures s'.server == s.server.(completed := s.server.completed + {(key, d.offset)}, finishing := s0.server.finishing)
    ensures s'.log == s.log && s'.made == s.made && s'.current == s.current && s'.dropped == s.dropped
  {
    hide Gone, Typed;
    var s1 := Begun(s.(server := s.server.(completed := s.server.completed + {(key, d.offset)})), id, Clearing(key, d));
    Take(c, digest, s0, s, MarkTask(id), s1);
    s' := Answered(WithServer(s1, s1.server.incoming, s1.server.finishing - {key}), id, Complete);
    Take(c, digest, s0, s1, ClearTask(id), s');
    assert s0.server.finishing + {key} - {key} == s0.server.finishing;
  }

  /**
   A write that nothing disturbs. The state may be any, with any other sessions, handlers and writers
   in it: if the sender's key is new, its block waits for these bytes and the server has room for one
   session, then START, DATA in blocks of 256 packets, FIN and their answers lead to a state in which
   the sender has succeeded, the block has grown by exactly the payload, and nothing else has changed.
   */
  lemma UndisturbedWrites(c: Config, digest: seq<byte> -> Digest, s0: State, key: Key, w: Sender, id: nat) returns (s: State)
    requires Typed(c, s0) && Starts(c, w) && Unused(s0, key) && id !in s0.tasks && |s0.server.incoming| < c.maxSessions
    requires key.block in s0.server.blocks && Awaits(s0.server.blocks[key.block], w)
    ensures Leads(c, digest, s0, s)
    ensures key in s.senders && s.senders[key].phase == Succeeded && s.senders == s0.senders[key := s.senders[key]]
    ensures s.tasks == s0.tasks && s.server.incoming == s0.server.incoming && s.server.finishing == s0.server.finishing
    ensures s.server.completed == s0.server.completed + {(key, w.offset)} && key.block in s.server.blocks
    ensures s.server.blocks == s0.server.blocks[key.block := s.server.blocks[key.block]]
    ensures Grown(s0.server.blocks[key.block], s.server.blocks[key.block], key.transfer, w.payload)
  {
    NothingOf(s0, key, w);
    TypedAlive(c, s0);
    Sendables(c, w, Sending, 0);
    SameFin(w, Sending, 0, digest);
    GrownBytes(c, s0.server.blocks[key.block], key, w);
    hide Typed, Unused, On, Packets, SessionAt, After, Awaits, Alive, Gone, Grown, Grows, FinOf, StartOf;
    var s1 := Begins(c, digest, s0, key, w);
    var s2 := Opens(c, digest, s0, s1, key, w, id);
    var s3 := ShakesHands(c, digest, s0, s2, key, w);
    var s4 := AllBlocks(c, digest, s0, s3, key, w, id, 0);
    var s5 := Fins(c, digest, s0, s4, key, w, id);
    OnBut(s0, s4, s5, key, After(w, Sending, Packets(w)), Some(SessionAt(w, digest, Packets(w))));
    var s6 := Finds(c, digest, s0, s5, key, w, id);
    var s7 := Appends(c, digest, s0, s6, key, w, id);
    var s8 := Completes(c, digest, s0, s7, key, FinOf(w, digest), id);
    s := Succeeds(c, digest, s0, s8, key, w);
  }

  lemma OnBut(s0: State, s: State, s': State, key: Key, sd: Sender, session: Option<Session>)
    requires On(s0, s, key, sd, session) && s' == s.(tasks := s'.tasks, net := s'.net)
    ensures On(s0, s'.(tasks := s0.tasks), key, sd, session)
  {
  }

  lemma NothingOf(s: State, key: Key, w: Sender)
    requires Unused(s, key)
    ensures key !in s.server.incoming && key !in s.server.finishing && (key, w.offset) !in s.server.completed
  {
  }

  lemma Succeeds(c: Config, digest: seq<byte> -> Digest, s0: State, s: State, key: Key, w: Sender) returns (s': State)
    requires Starts(c, w) && Gone(c, digest, s0, s) && s.senders == s0.senders[key := After(w, Sending, Packets(w))] && (key, Complete) in s.replies
    ensures Leads(c, digest, s0, s') && s' == s.(senders := s'.senders) && key in s'.senders
    ensures s'.senders == s0.senders[key := s'.senders[key]] && s'.senders[key].phase == Succeeded
  {
    hide Typed, Packets, Leads;
    Sendables(c, w, Sending, Packets(w));
    Whole(c, digest, w);
    s' := WithSender(s, key, After(w, Succeeded, Packets(w)));
    Meet(c, digest, s0, s, Succeed(key), s');
  }

  lemma GrownBytes(c: Config, b: Block, key: Key, w: Sender)
    requires Starts(c, w) && Awaits(b, w)
    ensures Grown(b, Grows(b, key, w), key.transfer, w.payload)
  {
  }

  // ---- What the receiver answers ----

  /** The count is the number of packets of at most `p` bytes that `length` bytes need. */
  predicate CountsPackets(count: nat, length: nat, p: nat) {
    (count - 1) * p < length <= count * p
  }

  /** A START is admitted exactly when it is well formed and the block is waiting for it; otherwise it is refused at once. */
  lemma StartAnswered(c: Config, digest: seq<byte> -> Digest, s: State, id: nat, key: Key, d: Datagram, live: bool)
    requires Typed(c, s) && SectionEnabled(s, RecvStart(id, key, d, live))
    ensures var s' := NextSection(c, digest, s, RecvStart(id, key, d, live));
            if && live && 0 < d.length <= c.chunkBytes && CountsPackets(d.count, d.length, c.payloadBytes)
               && d.offset + d.length <= d.target.totalSize && key.block in s.server.blocks
               && var b := s.server.blocks[key.block];
                  b.lease == d.target.lease && b.job == d.target.job && b.generation == d.target.generation
                  && |b.bytes| == d.target.totalSize && !b.ready && b.written == d.offset
            then s' == s.(tasks := s.tasks[id := Opening(key, d)])
            else s' == s.(replies := s.replies + {(key, Error)})
  {
    hide Typed;
    assert c.payloadBytes > 0 by { TypedPayload(c, s); }
    if d.length > 0 { OneCount(d.count, d.length, c.payloadBytes); }
  }

  lemma TypedPayload(c: Config, s: State)
    requires Typed(c, s)
    ensures c.payloadBytes > 0
  {
  }

  lemma OneCount(count: nat, length: nat, p: nat)
    requires p > 0 && length > 0
    ensures CountsPackets(count, length, p) <==> count == DivCeil(length, p)
  {
    DivCeilBounds(length, p);
    var n := DivCeil(length, p);
    assert (n - 1) * p == n * p - p;
    if count < n { Scale(count, n - 1, p); }
    if n < count { Scale(n, count - 1, p); }
  }

  /** The reply says of all 256 packets around `sequence` that they have arrived. */
  predicate AcksAll(r: Reply, sequence: nat) {
    r.Ack? && r.base % 256 == 0 && r.base <= sequence < r.base + 256 && |r.bits| == 256 && forall i | 0 <= i < 256 :: r.bits[i]
  }

  /** DATA of a transfer that has been applied is acknowledged and changes nothing; so is DATA of one that is just being applied; other DATA without a session is an error. */
  lemma LateDataAnswered(c: Config, digest: seq<byte> -> Digest, s: State, id: nat, key: Key, ds: seq<Datagram>)
    requires Typed(c, s)
    ensures SectionEnabled(s, RecvData(id, key, ds)) ==>
              var s', base := NextSection(c, digest, s, RecvData(id, key, ds)), ds[0].offset - ds[0].sequence * c.payloadBytes;
              if base >= 0 && (key, base) in s.server.completed
              then exists r :: AcksAll(r, ds[|ds| - 1].sequence) && s' == s.(replies := s.replies + {(key, r)})
              else s' == s.(tasks := s.tasks[id := Storing(key, ds)])
    ensures SectionEnabled(s, UnmatchedTask(id)) ==>
              var s', t := NextSection(c, digest, s, UnmatchedTask(id)), s.tasks[id];
              if t.key in s.server.finishing
              then exists r :: t.d.Data? && AcksAll(r, t.d.sequence) && s' == s.(tasks := s.tasks - {id}, replies := s.replies + {(t.key, r)})
              else s' == s.(tasks := s.tasks - {id}, replies := s.replies + {(t.key, Error)})
  {
    if SectionEnabled(s, RecvData(id, key, ds)) {
      var base := ds[0].offset - ds[0].sequence * c.payloadBytes;
      AllIsAcked(ds[|ds| - 1]);
      assert DataCompleted(c, s.server.completed, key, ds[0]) <==> base >= 0 && (key, base) in s.server.completed;
      if base >= 0 && (key, base) in s.server.completed {
        assert NextSection(c, digest, s, RecvData(id, key, ds)) == s.(replies := s.replies + {(key, AckAll(ds[|ds| - 1]))});
      }
    }
    if SectionEnabled(s, UnmatchedTask(id)) {
      assert TaskTyped(c, s.tasks[id]);
      AllIsAcked(s.tasks[id].d);
    }
    hide AckAll, AcksAll, Typed;
  }

  lemma AllIsAcked(d: Datagram)
    requires d.Data?
    ensures AcksAll(AckAll(d), d.sequence)
  {
    assert d.sequence / 256 * 256 % 256 == 0;
  }

  /**
   A repeated FIN of an applied transfer is confirmed again; while the transfer is being applied there
   is no answer yet. FIN of an incomplete session names what is missing and keeps the session; FIN of
   no session, or with another checksum, is an error.
   */
  lemma FinAnswered(c: Config, digest: seq<byte> -> Digest, s: State, id: nat, key: Key, d: Datagram)
    requires Typed(c, s)
    ensures SectionEnabled(s, RecvFin(id, key, d)) ==>
              NextSection(c, digest, s, RecvFin(id, key, d)) ==
                if (key, d.offset) in s.server.completed then s.(replies := s.replies + {(key, Complete)})
                else s.(tasks := s.tasks[id := Finding(key, d)])
    ensures SectionEnabled(s, FindTask(id)) ==>
              var s', t := NextSection(c, digest, s, FindTask(id)), s.tasks[id];
              if t.key !in s.server.incoming then s' == s.(tasks := s.tasks[id := Missing(t.key, t.d)])
              else if !AllSet(s.server.incoming[t.key].received)
              then exists r :: NamesMissing(r, s.server.incoming[t.key]) && s' == s.(tasks := s.tasks - {id}, replies := s.replies + {(t.key, r)})
              else if !(t.d.Fin? && t.d.checksum == s.server.incoming[t.key].checksum == digest(s.server.incoming[t.key].buffer))
              then s' == s.(tasks := s.tasks - {id}, replies := s.replies + {(t.key, Error)})
              else s'.tasks == s.tasks[id := Finalizing(t.key, t.d, s.server.incoming[t.key])] && s'.replies == s.replies
                   && s'.server == s.server.(incoming := s.server.incoming - {t.key}, finishing := s.server.finishing + {t.key})
    ensures SectionEnabled(s, MissingTask(id)) ==>
              NextSection(c, digest, s, MissingTask(id)) ==
                s.(tasks := s.tasks - {id},
                   replies := s.replies + {(s.tasks[id].key, if s.tasks[id].key in s.server.finishing then Silent else Error)})
  {
    if SectionEnabled(s, FindTask(id)) {
      var t := s.tasks[id];
      assert TaskTyped(c, t);
      if t.key in s.server.incoming && !AllSet(s.server.incoming[t.key].received) { NackExact(s.server.incoming[t.key]); }
    }
    hide NackOf, NamesMissing, Typed;
  }
}
