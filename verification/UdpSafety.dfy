/**
 What every run of the UDP protocol keeps: acknowledgements are sound, FIN meets a
 complete session, and a write that returns success has been applied exactly once.
 */
module UdpSafety {
  import opened Graph
  import opened Blocks
  import opened UdpServer
  import opened UdpProtocol

  // ---- Blocks and their logs ----

  /** Entries are non-empty and follow one another. */
  ghost predicate LogShape(es: seq<Entry>) {
    && (forall i | 0 <= i < |es| :: |es[i].data| > 0)
    && (forall i, j | 0 <= i < j < |es| :: es[i].offset + |es[i].data| <= es[j].offset)
  }

  /** The block still holds every logged entry where it was appended. */
  ghost predicate BlockHolds(b: Block, es: seq<Entry>) {
    forall i | 0 <= i < |es| ::
      es[i].offset + |es[i].data| <= b.written <= |b.bytes| && b.bytes[es[i].offset..es[i].offset + |es[i].data|] == es[i].data
  }

  ghost predicate BlocksOk(digest: seq<byte> -> Digest, s: State) {
    && s.made.Keys == s.log.Keys
    && (forall n | n in s.log :: LogShape(s.log[n]))
    && (forall b | b in s.server.blocks :: BlockOk(digest, s, b))
  }

  /** A live block is what its incarnation was allocated as, and holds what its log says. */
  ghost predicate BlockOk(digest: seq<byte> -> Digest, s: State, block: nat)
    requires block in s.server.blocks
  {
    var b := s.server.blocks[block];
    && Alive(s, block) && s.current[block] in s.made && s.made[s.current[block]] == Made(block, b.lease, b.generation)
    && Sound(b, digest) && BlockHolds(b, s.log[s.current[block]])
  }

  lemma LoggedOk(digest: seq<byte> -> Digest, es: seq<Entry>, who: Option<Key>, b: Block, after: Block)
    requires LogShape(es) && BlockHolds(b, es) && Sound(b, digest) && Extends(b, after)
    ensures LogShape(Logged(es, who, b, after)) && BlockHolds(after, Logged(es, who, b, after))
  {
    forall i | 0 <= i < |es|
      ensures after.bytes[es[i].offset..es[i].offset + |es[i].data|] == es[i].data
    {
      var lo, hi := es[i].offset, es[i].offset + |es[i].data|;
      assert after.bytes[..b.written][lo..hi] == after.bytes[lo..hi];
      assert b.bytes[..b.written][lo..hi] == b.bytes[lo..hi];
    }
  }

  lemma WithBlockOk(digest: seq<byte> -> Digest, s: State, block: nat, who: Option<Key>, step: Step)
    requires BlocksOk(digest, s) && Alive(s, block)
    ensures BlocksOk(digest, WithBlock(s, block, who, Apply(s.server.blocks[block], step, digest)))
  {
    hide Sound, Extends, LogShape, BlockHolds, Apply, Logged;
    var b := s.server.blocks[block];
    assert BlockOk(digest, s, block);
    ApplyExtends(b, step, digest);
    ApplyIdentity(b, step, digest);
    LoggedOk(digest, s.log[s.current[block]], who, b, Apply(b, step, digest));
    forall other | other in s.server.blocks && other != block
      ensures BlockOk(digest, WithBlock(s, block, who, Apply(b, step, digest)), other)
    {
      assert BlockOk(digest, s, other);
    }
  }

  /** No write changes what a block is. */
  lemma ApplyIdentity(b: Block, step: Step, digest: seq<byte> -> Digest)
    ensures Apply(b, step, digest).lease == b.lease && Apply(b, step, digest).generation == b.generation
  {
    hide Splice;
  }

  // ---- One honest sender ----

  ghost predicate Applied(s: State, k: Key) {
    AppliedIn(s.log, k)
  }

  ghost predicate AppliedIn(log: map<nat, seq<Entry>>, k: Key) {
    exists n, i :: EntryAt(log, k, n, i)
  }

  /** Entry `i` of incarnation `n` is `k`'s. */
  ghost predicate EntryAt(log: map<nat, seq<Entry>>, k: Key, n: int, i: int) {
    n >= 0 && n in log && 0 <= i < |log[n]| && log[n][i].who == Some(k)
  }

  /** The transfer's data has left the session and been applied, is being applied, or the session was dropped. */
  ghost predicate Held(s: State, k: Key) {
    k in s.dropped || k in s.server.finishing || Applied(s, k)
  }

  /** Packet `q` of `k` is in the receiver's hands. */
  ghost predicate Stored(s: State, k: Key, q: nat) {
    Held(s, k) || (k in s.server.incoming && q < |s.server.incoming[k].received| && s.server.incoming[k].received[q])
  }

  predicate SessionFor(c: Config, digest: seq<byte> -> Digest, sd: Sender, session: Session)
    requires SenderOk(sd)
  {
    && session.target == sd.target && session.baseOffset == sd.offset && session.checksum == digest(sd.payload)
    && |session.buffer| == |sd.payload| && |session.received| == session.packetCount == Packets(sd)
    && forall q | 0 <= q < |session.received| && session.received[q] :: PacketHeld(c, sd, session, q)
  }

  /** A set flag has its payload slice in the buffer. */
  predicate PacketHeld(c: Config, sd: Sender, session: Session, q: nat)
    requires sd.packet > 0 && |session.buffer| == |sd.payload| && q < Packets(sd)
  {
    Tiles(sd, q);
    Begin(sd, q) == q * c.payloadBytes && session.buffer[Begin(sd, q)..End(sd, q)] == sd.payload[Begin(sd, q)..End(sd, q)]
  }

  predicate Honest(digest: seq<byte> -> Digest, sd: Sender, d: Datagram)
    requires SenderOk(sd)
  {
    match d
    case Start(_, _, _, _, _) => d == StartOf(sd, digest)
    case Data(_, _, _, _) => d.sequence < Packets(sd) && d == DataOf(sd, d.sequence)
    case Fin(_, _, _) => d == FinOf(sd, digest) && AllSet(sd.acknowledged)
    case Abort => false
  }

  ghost predicate TaskFor(c: Config, digest: seq<byte> -> Digest, s: State, k: Key, sd: Sender, t: Task)
    requires SenderOk(sd)
  {
    match t
    case Opening(_, d) => Honest(digest, sd, d)
    case Storing(_, ds) => forall i | 0 <= i < |ds| :: Honest(digest, sd, ds[i])
    case Unmatched(_, d) => Honest(digest, sd, d)
    case Finding(_, d) => Honest(digest, sd, d)
    case Missing(_, d) => Honest(digest, sd, d)
    case Finalizing(_, d, session) => SessionFor(c, digest, sd, session) && AllSet(session.received) && Held(s, k) && Honest(digest, sd, d)
    case Marking(_, _) => Applied(s, k)
    case Clearing(_, _) => Applied(s, k)
    case Failing(_) => true
  }

  ghost predicate ReplyFor(s: State, k: Key, sd: Sender, r: Reply)
    requires SenderOk(sd)
  {
    && (r.Complete? ==> Applied(s, k))
    && (forall q: nat | q < Packets(sd) && Reports(r, q) :: Stored(s, k, q))
    && (r.Nack? ==> Held(s, k))
  }

  /** An entry of `k`'s is its payload at its offset, in an incarnation with its block, lease and generation. */
  predicate EntryFor(k: Key, sd: Sender, m: Made, e: Entry) {
    e.who == Some(k) ==> m == MadeFor(k, sd) && e.offset == sd.offset && e.data == sd.payload
  }

  function MadeFor(k: Key, sd: Sender): Made {
    Made(k.block, sd.target.lease, sd.target.generation)
  }

  ghost predicate EntriesOk(s: State, k: Key, sd: Sender) {
    EntriesIn(s.log, s.made, k, sd)
  }

  ghost predicate EntriesIn(log: map<nat, seq<Entry>>, made: map<nat, Made>, k: Key, sd: Sender) {
    forall n: nat, i: nat | n in log && i < |log[n]| :: EntryGood(log, made, k, sd, n, i)
  }

  predicate EntryGood(log: map<nat, seq<Entry>>, made: map<nat, Made>, k: Key, sd: Sender, n: nat, i: nat)
    requires n in log && i < |log[n]|
  {
    n in made && EntryFor(k, sd, made[n], log[n][i])
  }

  ghost predicate KeyInv(c: Config, digest: seq<byte> -> Digest, s: State, k: Key)
    requires k in s.senders
  {
    var sd := s.senders[k];
    && SenderOk(sd)
    && (forall d | (k, d) in s.net :: Honest(digest, sd, d))
    && (k in s.server.incoming ==> SessionFor(c, digest, sd, s.server.incoming[k]))
    && (forall id | id in s.tasks && s.tasks[id].key == k :: TaskFor(c, digest, s, k, sd, s.tasks[id]))
    && (forall o | (k, o) in s.server.completed :: Applied(s, k))
    && (forall r | (k, r) in s.replies :: ReplyFor(s, k, sd, r))
    && EntriesOk(s, k, sd)
    && (forall q: nat | q < |sd.acknowledged| && sd.acknowledged[q] :: Stored(s, k, q))
    && (sd.phase == Succeeded ==> Applied(s, k))
  }

  /** Nothing `k` has in the receiver's hands is lost by the step. */
  ghost predicate Progress(s: State, s': State, k: Key) {
    && (Applied(s, k) ==> Applied(s', k))
    && (Held(s, k) ==> Held(s', k))
    && (forall q: nat | Stored(s, k, q) :: Stored(s', k, q))
  }

  /** A step keeps `k`'s invariant if it loses nothing of `k`'s and everything new about `k` is right. */
  lemma KeyKept(c: Config, digest: seq<byte> -> Digest, s: State, s': State, k: Key)
    requires k in s.senders && k in s'.senders && KeyInv(c, digest, s, k) && s'.senders[k] == s.senders[k]
    requires Progress(s, s', k)
    requires forall d | (k, d) in s'.net && (k, d) !in s.net :: Honest(digest, s.senders[k], d)
    requires k in s'.server.incoming ==> SessionFor(c, digest, s.senders[k], s'.server.incoming[k])
    requires forall id | id in s'.tasks && s'.tasks[id].key == k ::
               (id in s.tasks && s'.tasks[id] == s.tasks[id]) || TaskFor(c, digest, s', k, s.senders[k], s'.tasks[id])
    requires forall o | (k, o) in s'.server.completed && (k, o) !in s.server.completed :: Applied(s', k)
    requires forall r | (k, r) in s'.replies && (k, r) !in s.replies :: ReplyFor(s', k, s.senders[k], r)
    requires EntriesOk(s', k, s.senders[k])
    ensures KeyInv(c, digest, s', k)
  {
    hide Honest, SessionFor, Applied, Held, Stored, SenderOk, EntriesOk, Reports;
    var sd := s.senders[k];
    forall id | id in s'.tasks && s'.tasks[id].key == k ensures TaskFor(c, digest, s', k, sd, s'.tasks[id]) {
      if id in s.tasks && s'.tasks[id] == s.tasks[id] {
        assert TaskFor(c, digest, s, k, sd, s.tasks[id]);
      }
    }
    forall r | (k, r) in s'.replies ensures ReplyFor(s', k, sd, r) {
      if (k, r) in s.replies { assert ReplyFor(s, k, sd, r); }
    }
  }

  // ---- Sessions of an honest sender ----

  lemma NewSessionFor(c: Config, digest: seq<byte> -> Digest, sd: Sender, d: Datagram)
    requires SenderOk(sd) && d.Start? && Honest(digest, sd, d)
    ensures SessionFor(c, digest, sd, NewSession(d))
  {
  }

  lemma StorePacketFor(c: Config, digest: seq<byte> -> Digest, sd: Sender, session: Session, d: Datagram)
    requires SenderOk(sd) && SessionFor(c, digest, sd, session) && d.Data? && Honest(digest, sd, d) && DataFits(c, session, d)
    ensures SessionFor(c, digest, sd, Store(c, session, d))
  {
    var after, w := Store(c, session, d), d.sequence;
    Tiles(sd, w);
    forall q | 0 <= q < |after.received| && after.received[q] ensures PacketHeld(c, sd, after, q) {
      hide Begin, End, Packets;
      if !session.received[w] {
        if q == w {
          SpliceAt(session.buffer, Begin(sd, w), d.payload);
        } else {
          assert PacketHeld(c, sd, session, q);
          Tiles(sd, q);
          if q < w { Disjoint(sd, q, w); } else { Disjoint(sd, w, q); }
          SpliceElsewhere(session.buffer, Begin(sd, w), d.payload, Begin(sd, q), End(sd, q));
        }
      } else {
        assert PacketHeld(c, sd, session, q);
      }
    }
  }

  lemma SpliceAt(bytes: seq<byte>, at: nat, data: seq<byte>)
    requires at + |data| <= |bytes|
    ensures Splice(bytes, at, data)[at..at + |data|] == data
  {
  }

  lemma SpliceElsewhere(bytes: seq<byte>, at: nat, data: seq<byte>, lo: nat, hi: nat)
    requires at + |data| <= |bytes| && lo <= hi <= |bytes| && (hi <= at || at + |data| <= lo)
    ensures Splice(bytes, at, data)[lo..hi] == bytes[lo..hi]
  {
  }

  lemma {:induction false} StoreAllFor(c: Config, digest: seq<byte> -> Digest, sd: Sender, session: Session, ds: seq<Datagram>)
    requires SenderOk(sd) && SessionFor(c, digest, sd, session)
    requires forall i | 0 <= i < |ds| :: ds[i].Data? && Honest(digest, sd, ds[i])
    ensures session.packetCount == |session.received|
    ensures var after := StoreAll(c, session, ds).0;
            SessionFor(c, digest, sd, after) && forall q | 0 <= q < |session.received| && session.received[q] :: after.received[q]
  {
    hide SenderOk, Honest, DataFits, PacketHeld;
    if ds != [] {
      StoreAllFor(c, digest, sd, session, ds[..|ds| - 1]);
      var (front, ok) := StoreAll(c, session, ds[..|ds| - 1]);
      if ok && DataFits(c, front, ds[|ds| - 1]) {
        StorePacketFor(c, digest, sd, front, ds[|ds| - 1]);
      }
    }
  }

  lemma AckReports(session: Session, sequence: nat, q: nat)
    requires Reports(AckOf(session, sequence), q)
    ensures q < |session.received| && session.received[q]
  {
  }

  lemma NackReports(session: Session, q: nat)
    requires Reports(NackOf(session), q) && q < |session.received|
    ensures session.received[q]
  {
  }

  /** A session with all packets has exactly the payload. */
  lemma CompleteIsPayload(c: Config, digest: seq<byte> -> Digest, sd: Sender, session: Session)
    requires SenderOk(sd) && SessionFor(c, digest, sd, session) && AllSet(session.received)
    ensures session.buffer == sd.payload
  {
    forall x | 0 <= x < |sd.payload| ensures session.buffer[x] == sd.payload[x] {
      hide Begin, End, Packets;
      var q := Covers(sd, x);
      Tiles(sd, q);
      assert PacketHeld(c, sd, session, q);
      assert session.buffer[Begin(sd, q)..End(sd, q)][x - Begin(sd, q)] == session.buffer[x];
      assert sd.payload[Begin(sd, q)..End(sd, q)][x - Begin(sd, q)] == sd.payload[x];
    }
  }

  // ---- Sections of the receiver ----

  lemma StartKeeps(c: Config, digest: seq<byte> -> Digest, s: State, k: Key, id: nat, key: Key, d: Datagram, live: bool)
    requires Typed(c, s) && k in s.senders && KeyInv(c, digest, s, k)
    requires id !in s.tasks && d.Start? && (key, d) in s.net
    ensures KeyInv(c, digest, NextStart(c, s, id, key, d, live), k)
  {
    hide Honest, SessionFor, SenderOk, StartAdmitted;
    KeyKept(c, digest, s, NextStart(c, s, id, key, d, live), k);
  }

  lemma OpenKeeps(c: Config, digest: seq<byte> -> Digest, s: State, k: Key, id: nat, room: bool)
    requires Typed(c, s) && k in s.senders && KeyInv(c, digest, s, k) && id in s.tasks && s.tasks[id].Opening?
    ensures KeyInv(c, digest, NextOpen(c, s, id, room), k)
  {
    hide Honest, SessionFor, SenderOk, NewSession, ReplyFor, SessionOk;
    var t := s.tasks[id];
    assert TaskTyped(c, t);
    PlainReplies(NextOpen(c, s, id, room), k, s.senders[k]);
    if t.key == k {
      assert TaskFor(c, digest, s, k, s.senders[k], t);
      NewSessionFor(c, digest, s.senders[k], t.d);
    }
    KeyKept(c, digest, s, NextOpen(c, s, id, room), k);
  }

  lemma DataKeeps(c: Config, digest: seq<byte> -> Digest, s: State, k: Key, id: nat, key: Key, ds: seq<Datagram>)
    requires Typed(c, s) && k in s.senders && KeyInv(c, digest, s, k) && id !in s.tasks && ds != []
    requires forall i | 0 <= i < |ds| :: ds[i].Data? && (key, ds[i]) in s.net
    ensures KeyInv(c, digest, NextData(c, s, id, key, ds), k)
  {
    hide Honest, SessionFor, SenderOk;
    KeyKept(c, digest, s, NextData(c, s, id, key, ds), k);
  }

  lemma StoreKeeps(c: Config, digest: seq<byte> -> Digest, s: State, k: Key, id: nat)
    requires Typed(c, s) && k in s.senders && KeyInv(c, digest, s, k) && id in s.tasks && s.tasks[id].Storing?
    ensures KeyInv(c, digest, NextStore(c, s, id), k)
  {
    hide Honest, SenderOk, StoreBatch, SessionOk, SessionFor;
    var t := s.tasks[id];
    var s' := NextStore(c, s, id);
    assert TaskTyped(c, t);
    if t.key == k && k in s.server.incoming {
      assert TaskFor(c, digest, s, k, s.senders[k], t);
      BatchFor(c, digest, s.senders[k], s.server.incoming[k], t.ds);
    }
    KeyKept(c, digest, s, s', k);
  }

  /** A batch keeps the session right, loses no packet, and is answered soundly. */
  lemma BatchFor(c: Config, digest: seq<byte> -> Digest, sd: Sender, session: Session, ds: seq<Datagram>)
    requires SenderOk(sd) && SessionFor(c, digest, sd, session) && ds != []
    requires forall i | 0 <= i < |ds| :: ds[i].Data? && Honest(digest, sd, ds[i])
    ensures session.packetCount == |session.received|
    ensures SessionFor(c, digest, sd, StoreBatch(c, session, ds).0)
    ensures var after := StoreBatch(c, session, ds).0;
            && |after.received| == |session.received|
            && (forall q | 0 <= q < |session.received| && session.received[q] :: after.received[q])
            && !StoreBatch(c, session, ds).1.Complete? && !StoreBatch(c, session, ds).1.Nack?
            && (forall q: nat | Reports(StoreBatch(c, session, ds).1, q) :: q < |after.received| && after.received[q])
  {
    hide Honest, SenderOk, StoreAll, AckOf, PacketHeld;
    StoreAllFor(c, digest, sd, session, ds);
    var after, last := StoreAll(c, session, ds).0, ds[|ds| - 1];
    forall q: nat | Reports(AckOf(after, last.sequence), q) ensures q < |after.received| && after.received[q] {
      AckReports(after, last.sequence, q);
    }
    assert AckOf(after, last.sequence).Ack? by { AckIsAck(after, last.sequence); }
  }

  lemma AckIsAck(session: Session, sequence: nat)
    ensures AckOf(session, sequence).Ack?
  {
  }

  lemma UnmatchedKeeps(c: Config, digest: seq<byte> -> Digest, s: State, k: Key, id: nat)
    requires Typed(c, s) && k in s.senders && KeyInv(c, digest, s, k) && id in s.tasks && s.tasks[id].Unmatched?
    ensures KeyInv(c, digest, NextUnmatched(c, s, id), k)
  {
    hide Honest, SessionFor, SenderOk;
    KeyKept(c, digest, s, NextUnmatched(c, s, id), k);
  }

  lemma FinKeeps(c: Config, digest: seq<byte> -> Digest, s: State, k: Key, id: nat, key: Key, d: Datagram)
    requires Typed(c, s) && k in s.senders && KeyInv(c, digest, s, k) && id !in s.tasks && d.Fin? && (key, d) in s.net
    ensures KeyInv(c, digest, NextFin(s, id, key, d), k)
  {
    hide Honest, SessionFor, SenderOk;
    KeyKept(c, digest, s, NextFin(s, id, key, d), k);
  }

  /** A handler that ends with a sound reply. */
  lemma AnswerKeeps(c: Config, digest: seq<byte> -> Digest, s: State, k: Key, id: nat, r: Reply)
    requires k in s.senders && KeyInv(c, digest, s, k) && id in s.tasks
    requires s.tasks[id].key == k ==> ReplyFor(Answered(s, id, r), k, s.senders[k], r)
    ensures KeyInv(c, digest, Answered(s, id, r), k)
  {
    hide Honest, SessionFor, SenderOk, ReplyFor, EntryFor;
    KeyKept(c, digest, s, Answered(s, id, r), k);
  }

  /** A complete session is taken out and marked as finishing. */
  lemma TakeKeeps(c: Config, digest: seq<byte> -> Digest, s: State, k: Key, id: nat, key: Key, d: Datagram)
    requires k in s.senders && KeyInv(c, digest, s, k) && id in s.tasks && s.tasks[id].key == key
    requires key in s.server.incoming && AllSet(s.server.incoming[key].received)
    requires key == k ==> SenderOk(s.senders[k]) && Honest(digest, s.senders[k], d)
    ensures KeyInv(c, digest, Begun(WithServer(s, s.server.incoming - {key}, s.server.finishing + {key}), id,
                                    Finalizing(key, d, s.server.incoming[key])), k)
  {
    hide Honest, SessionFor, SenderOk, ReplyFor, EntryFor, AllSet;
    KeyKept(c, digest, s, Begun(WithServer(s, s.server.incoming - {key}, s.server.finishing + {key}), id,
                                Finalizing(key, d, s.server.incoming[key])), k);
  }

  lemma FindKeeps(c: Config, digest: seq<byte> -> Digest, s: State, k: Key, id: nat)
    requires Typed(c, s) && k in s.senders && KeyInv(c, digest, s, k) && id in s.tasks && s.tasks[id].Finding?
    ensures KeyInv(c, digest, NextFind(c, s, id, digest), k)
  {
    hide Honest, SenderOk, NackOf, SessionFor, FinMatches, SessionOk, Reports, AllSet, ReplyFor, EntryFor, StoreBatch;
    var t := s.tasks[id];
    PlainReplies(Answered(s, id, Error), k, s.senders[k]);
    if t.key !in s.server.incoming {
      assert t.key == k ==> TaskFor(c, digest, s, k, s.senders[k], t);
      KeyKept(c, digest, s, NextFind(c, s, id, digest), k);
    } else if !AllSet(s.server.incoming[t.key].received) {
      TypedTask(c, s, id);
      if t.key == k { NackFor(c, digest, s, k, id); }
      AnswerKeeps(c, digest, s, k, id, NackOf(s.server.incoming[t.key]));
    } else if !FinMatches(s.server.incoming[t.key], t.d, digest) {
      AnswerKeeps(c, digest, s, k, id, Error);
    } else {
      if t.key == k { assert TaskFor(c, digest, s, k, s.senders[k], t); }
      TakeKeeps(c, digest, s, k, id, t.key, t.d);
    }
  }

  lemma PlainReplies(s: State, k: Key, sd: Sender)
    requires SenderOk(sd)
    ensures ReplyFor(s, k, sd, StartAck) && ReplyFor(s, k, sd, Error) && ReplyFor(s, k, sd, Silent)
  {
  }

  /** FIN is sent once everything is acknowledged, so an incomplete session is not the one that was acknowledged. */
  lemma NackFor(c: Config, digest: seq<byte> -> Digest, s: State, k: Key, id: nat)
    requires k in s.senders && k in s.server.incoming && KeyInv(c, digest, s, k) && id in s.tasks && s.tasks[id].Finding?
    requires s.tasks[id].key == k && s.tasks[id].d.Fin? && !AllSet(s.server.incoming[k].received)
    ensures ReplyFor(Answered(s, id, NackOf(s.server.incoming[k])), k, s.senders[k], NackOf(s.server.incoming[k]))
  {
    hide PacketHeld, NackOf, Packets;
    var session := s.server.incoming[k];
    assert NackOf(session).Nack? by { NackIsNack(session); }
    forall q: nat | q < |session.received| && Reports(NackOf(session), q) ensures session.received[q] {
      NackReports(session, q);
    }
    assert TaskFor(c, digest, s, k, s.senders[k], s.tasks[id]);
    var q :| 0 <= q < |session.received| && !session.received[q];
    assert s.senders[k].acknowledged[q];
    assert Stored(s, k, q);
  }

  lemma NackIsNack(session: Session)
    ensures NackOf(session).Nack?
  {
  }

  lemma MissingKeeps(c: Config, digest: seq<byte> -> Digest, s: State, k: Key, id: nat, r: Reply)
    requires Typed(c, s) && k in s.senders && KeyInv(c, digest, s, k) && id in s.tasks && (r == Silent || r == Error)
    ensures KeyInv(c, digest, Answered(s, id, r), k)
  {
    hide Honest, SessionFor, SenderOk;
    KeyKept(c, digest, s, Answered(s, id, r), k);
  }

  lemma MarkKeeps(c: Config, digest: seq<byte> -> Digest, s: State, k: Key, id: nat)
    requires Typed(c, s) && k in s.senders && KeyInv(c, digest, s, k) && id in s.tasks && s.tasks[id].Marking?
    ensures KeyInv(c, digest, NextMark(c, s, id), k)
  {
    hide Honest, SessionFor, SenderOk;
    if s.tasks[id].key == k { assert TaskFor(c, digest, s, k, s.senders[k], s.tasks[id]); }
    KeyKept(c, digest, s, NextMark(c, s, id), k);
  }

  lemma ClearKeeps(c: Config, digest: seq<byte> -> Digest, s: State, k: Key, id: nat)
    requires Typed(c, s) && k in s.senders && KeyInv(c, digest, s, k) && id in s.tasks && s.tasks[id].Clearing?
    ensures KeyInv(c, digest, Answered(WithServer(s, s.server.incoming, s.server.finishing - {s.tasks[id].key}), id, Complete), k)
  {
    hide Honest, SessionFor, SenderOk;
    if s.tasks[id].key == k { assert TaskFor(c, digest, s, k, s.senders[k], s.tasks[id]); }
    KeyKept(c, digest, s, Answered(WithServer(s, s.server.incoming, s.server.finishing - {s.tasks[id].key}), id, Complete), k);
  }

  lemma FailKeeps(c: Config, digest: seq<byte> -> Digest, s: State, k: Key, id: nat)
    requires Typed(c, s) && k in s.senders && KeyInv(c, digest, s, k) && id in s.tasks
    ensures KeyInv(c, digest, NextFail(s, id), k)
  {
    hide Honest, SessionFor, SenderOk;
    KeyKept(c, digest, s, NextFail(s, id), k);
  }

  /** A block's log grows by entries that are not `k`'s, or by exactly `k`'s payload. */
  lemma LogGrows(s: State, k: Key, block: nat, who: Option<Key>, after: Block)
    requires Alive(s, block)
    ensures Applied(s, k) ==> Applied(WithBlock(s, block, who, after), k)
    ensures Held(s, k) ==> Held(WithBlock(s, block, who, after), k)
    ensures forall q: nat | Stored(s, k, q) :: Stored(WithBlock(s, block, who, after), k, q)
  {
    var s' := WithBlock(s, block, who, after);
    if Applied(s, k) {
      var n, i :| EntryAt(s.log, k, n, i);
      assert EntryAt(s'.log, k, n, i);
    }
  }

  lemma FinalizeKeeps(c: Config, digest: seq<byte> -> Digest, s: State, k: Key, id: nat, live: bool)
    requires Typed(c, s) && k in s.senders && KeyInv(c, digest, s, k) && BlocksOk(digest, s)
    requires id in s.tasks && s.tasks[id].Finalizing?
    ensures KeyInv(c, digest, NextFinalize(c, s, id, live, digest), k)
  {
    hide Honest, SessionOk, SessionFor, SenderOk, FinishAllowed, Apply, BlocksOk, EntriesOk, Applied, Held, Stored;
    var t := s.tasks[id];
    TypedTask(c, s, id);
    MadeKeys(digest, s);
    var s' := NextFinalize(c, s, id, live, digest);
    var step := FinishStep(t.key, t.d, t.session, live);
    if t.key.block in s.server.blocks && FinishAllowed(s.server.blocks[t.key.block], step) {
      var after := Apply(s.server.blocks[t.key.block], step, digest);
      LogGrows(s, k, t.key.block, Some(t.key), after);
      SameLater(WithBlock(s, t.key.block, Some(t.key), after), s', k);
      if t.key == k {
        assert TaskFor(c, digest, s, k, s.senders[k], t);
        FinalizedEntry(c, digest, s, k, t.d, t.session, live);
      }
      EntriesFor(s, k, t.key.block, Some(t.key), after, s.senders[k]);
      SameEntriesOk(WithBlock(s, t.key.block, Some(t.key), after), s', k, s.senders[k]);
    } else {
      SameLater(s, s', k);
      SameEntriesOk(s, s', k, s.senders[k]);
    }
    KeyKept(c, digest, s, s', k);
  }

  lemma MadeKeys(digest: seq<byte> -> Digest, s: State)
    requires BlocksOk(digest, s)
    ensures s.made.Keys == s.log.Keys
  {
  }

  lemma SameLater(s: State, s': State, k: Key)
    requires s'.log == s.log && s'.dropped == s.dropped && s'.server.incoming == s.server.incoming && s'.server.finishing == s.server.finishing
    ensures Applied(s', k) == Applied(s, k) && Held(s', k) == Held(s, k) && forall q: nat :: Stored(s', k, q) == Stored(s, k, q)
  {
  }

  lemma SameEntriesOk(s: State, s': State, k: Key, sd: Sender)
    requires s'.log == s.log && s'.made == s.made && EntriesOk(s, k, sd)
    ensures EntriesOk(s', k, sd)
  {
  }

  /** Finalising `k`'s session logs `k`'s payload at `k`'s offset, in an incarnation made for it. */
  lemma FinalizedEntry(c: Config, digest: seq<byte> -> Digest, s: State, k: Key, d: Datagram, session: Session, live: bool)
    requires BlocksOk(digest, s) && k in s.senders && Alive(s, k.block) && d.Fin?
    requires SenderOk(s.senders[k]) && SessionFor(c, digest, s.senders[k], session) && AllSet(session.received) && Honest(digest, s.senders[k], d)
    requires FinishAllowed(s.server.blocks[k.block], FinishStep(k, d, session, live))
    ensures var b, n := s.server.blocks[k.block], s.current[k.block];
            && n in s.made && s.made[n] == MadeFor(k, s.senders[k])
            && Logged(s.log[n], Some(k), b, Apply(b, FinishStep(k, d, session, live), digest))
               == s.log[n] + [Entry(Some(k), s.senders[k].offset, s.senders[k].payload)]
    ensures Applied(WithBlock(s, k.block, Some(k), Apply(s.server.blocks[k.block], FinishStep(k, d, session, live), digest)), k)
  {
    hide Apply, Logged, LogShape, BlockHolds, Sound, Packets, DivCeil;
    assert BlockOk(digest, s, k.block);
    CompleteIsPayload(c, digest, s.senders[k], session);
    FinishedEntry(digest, s, k, d, session, live);
    var n := s.current[k.block];
    var s' := WithBlock(s, k.block, Some(k), Apply(s.server.blocks[k.block], FinishStep(k, d, session, live), digest));
    assert EntryAt(s'.log, k, n, |s.log[n]|);
  }

  /** Entries stay attributed correctly when the new one is not `k`'s, or is right. */
  lemma EntriesFor(s: State, k: Key, block: nat, who: Option<Key>, after: Block, sd: Sender)
    requires Alive(s, block) && EntriesOk(s, k, sd) && s.made.Keys == s.log.Keys
    requires who == Some(k) ==>
               && s.current[block] in s.made && s.made[s.current[block]] == MadeFor(k, sd)
               && Logged(s.log[s.current[block]], who, s.server.blocks[block], after) == s.log[s.current[block]] + [Entry(who, sd.offset, sd.payload)]
    ensures EntriesOk(WithBlock(s, block, who, after), k, sd)
  {
    var s' := WithBlock(s, block, who, after);
    forall n: nat, i: nat | n in s'.log && i < |s'.log[n]| ensures EntryGood(s'.log, s'.made, k, sd, n, i) {
      if i < |s.log[n]| { assert EntryGood(s.log, s.made, k, sd, n, i); }
    }
  }

  lemma TypedTask(c: Config, s: State, id: nat)
    requires Typed(c, s) && id in s.tasks
    ensures c.payloadBytes > 0 && TaskTyped(c, s.tasks[id])
  {
  }

  /** A session that may be finalised is appended as one entry at its offset. */
  lemma FinishedEntry(digest: seq<byte> -> Digest, s: State, k: Key, d: Datagram, session: Session, live: bool)
    requires BlocksOk(digest, s) && Alive(s, k.block) && d.Fin? && |session.buffer| > 0
    requires FinishAllowed(s.server.blocks[k.block], FinishStep(k, d, session, live))
    ensures var b, n := s.server.blocks[k.block], s.current[k.block];
            Logged(s.log[n], Some(k), b, Apply(b, FinishStep(k, d, session, live), digest))
            == s.log[n] + [Entry(Some(k), session.baseOffset, session.buffer)]
  {
    var b := s.server.blocks[k.block];
    SpliceAt(b.bytes, session.baseOffset, session.buffer);
  }

  // ---- Everything else ----

  /** The sender named by a happening, if it acts for one. */
  function Actor(e: Happening): Option<Key> {
    match e
    case NewSender(key, _) => Some(key)
    case Handshaken(key) => Some(key)
    case SendData(key, _) => Some(key)
    case TakeAck(key, _) => Some(key)
    case SendFin(key) => Some(key)
    case Succeed(key) => Some(key)
    case GiveUp(key) => Some(key)
    case _ => None
  }

  lemma BlockKeeps(c: Config, digest: seq<byte> -> Digest, s: State, k: Key, block: nat, after: Block)
    requires k in s.senders && KeyInv(c, digest, s, k) && Alive(s, block) && s.made.Keys == s.log.Keys
    ensures KeyInv(c, digest, WithBlock(s, block, None, after), k)
  {
    hide Honest, SessionFor, SenderOk, Logged, EntriesOk, Applied, Held, Stored;
    LogGrows(s, k, block, None, after);
    EntriesFor(s, k, block, None, after, s.senders[k]) by { assert None != Some(k); }
    KeyKept(c, digest, s, WithBlock(s, block, None, after), k);
  }

  lemma AllocateKeeps(c: Config, digest: seq<byte> -> Digest, s: State, k: Key, block: nat, n: nat, b: Block)
    requires k in s.senders && KeyInv(c, digest, s, k) && n !in s.log
    ensures KeyInv(c, digest, Allocated(s, block, n, b), k)
  {
    hide Honest, SessionFor, SenderOk;
    var s' := Allocated(s, block, n, b);
    if Applied(s, k) {
      var m, i :| EntryAt(s.log, k, m, i);
      assert EntryAt(s'.log, k, m, i);
    }
    forall x: nat, i: nat | x in s'.log && i < |s'.log[x]| ensures EntryGood(s'.log, s'.made, k, s.senders[k], x, i) {
      assert EntryGood(s.log, s.made, k, s.senders[k], x, i);
    }
    KeyKept(c, digest, s, s', k);
  }

  /** What is not done by a sender does not hurt one. */
  lemma WorldKeeps(c: Config, digest: seq<byte> -> Digest, s: State, k: Key, e: Happening)
    requires HappeningEnabled(s, e) && AllAlive(s) && Actor(e).None?
    requires k in s.senders && KeyInv(c, digest, s, k) && s.made.Keys == s.log.Keys
    ensures k in NextHappening(digest, s, e).senders && KeyInv(c, digest, NextHappening(digest, s, e), k)
  {
    hide Honest, SessionFor, SenderOk, Apply;
    if e.Other? {
      BlockKeeps(c, digest, s, k, e.block, Apply(s.server.blocks[e.block], e.step, digest));
    } else if e.Allocate? {
      AllocateKeeps(c, digest, s, k, e.block, e.incarnation, Fresh(e.job, e.lease, e.generation, e.size));
    } else {
      KeyKept(c, digest, s, NextHappening(digest, s, e), k);
    }
  }

  /** One sender's step leaves another alone. */
  lemma OthersKeep(c: Config, digest: seq<byte> -> Digest, s: State, k: Key, e: Happening)
    requires HappeningEnabled(s, e) && AllAlive(s) && Actor(e).Some? && Actor(e).value != k
    requires k in s.senders && KeyInv(c, digest, s, k)
    ensures k in NextHappening(digest, s, e).senders && KeyInv(c, digest, NextHappening(digest, s, e), k)
  {
    hide Honest, SessionFor, SenderOk, StartOf, DataOf, FinOf, Marked;
    KeyKept(c, digest, s, NextHappening(digest, s, e), k);
  }

  /** Sending an honest datagram. */
  lemma SendKeeps(c: Config, digest: seq<byte> -> Digest, s: State, k: Key, d: Datagram)
    requires k in s.senders && KeyInv(c, digest, s, k) && Honest(digest, s.senders[k], d)
    ensures KeyInv(c, digest, Sent(s, k, d), k)
  {
    hide Honest, SessionFor, SenderOk;
    KeyKept(c, digest, s, Sent(s, k, d), k);
  }

  /** The sender's own bookkeeping: it may only learn that stored packets are stored, and succeed once applied. */
  lemma LearnKeeps(c: Config, digest: seq<byte> -> Digest, s: State, k: Key, sd: Sender)
    requires k in s.senders && KeyInv(c, digest, s, k) && SenderOk(sd)
    requires sd == s.senders[k].(phase := sd.phase, acknowledged := sd.acknowledged)
    requires |sd.acknowledged| == |s.senders[k].acknowledged|
    requires forall q | 0 <= q < |sd.acknowledged| && s.senders[k].acknowledged[q] :: sd.acknowledged[q]
    requires forall q: nat | q < |sd.acknowledged| && sd.acknowledged[q] :: Stored(s, k, q)
    requires sd.phase == Succeeded ==> Applied(s, k)
    ensures KeyInv(c, digest, WithSender(s, k, sd), k)
  {
    hide Stored, Applied, Held, Reports;
    var old_, s' := s.senders[k], WithSender(s, k, sd);
    forall d | (k, d) in s.net ensures Honest(digest, sd, d) {
      assert Honest(digest, old_, d);
      SameDatagram(digest, old_, sd, d);
    }
    SamePlace(c, digest, s, k, sd);
    SameSender(s, s', k, old_, sd);
    forall id | id in s.tasks && s.tasks[id].key == k ensures TaskFor(c, digest, s', k, sd, s.tasks[id]) {
      assert TaskFor(c, digest, s, k, old_, s.tasks[id]);
      SameTask(c, digest, s, k, sd, s.tasks[id]);
    }
    forall r | (k, r) in s.replies ensures ReplyFor(s', k, sd, r) {
      assert ReplyFor(s, k, old_, r);
      assert forall q: nat :: Stored(s', k, q) == Stored(s, k, q) by { SamePlace(c, digest, s, k, sd); }
    }
  }

  lemma SameSender(s: State, s': State, k: Key, x: Sender, y: Sender)
    requires SameTransfer(x, y) && EntriesOk(s, k, x) && s'.log == s.log && s'.made == s.made
    ensures EntriesOk(s', k, y)
  {
    forall n: nat, i: nat | n in s'.log && i < |s'.log[n]| ensures EntryGood(s'.log, s'.made, k, y, n, i) {
      assert EntryGood(s.log, s.made, k, x, n, i);
    }
  }

  predicate SameTransfer(x: Sender, y: Sender) {
    && y == x.(phase := y.phase, acknowledged := y.acknowledged) && |y.acknowledged| == |x.acknowledged|
    && forall q | 0 <= q < |x.acknowledged| && x.acknowledged[q] :: y.acknowledged[q]
  }

  lemma SameDatagram(digest: seq<byte> -> Digest, x: Sender, y: Sender, d: Datagram)
    requires SenderOk(x) && SenderOk(y) && SameTransfer(x, y) && Honest(digest, x, d)
    ensures Honest(digest, y, d)
  {
  }

  lemma SamePlace(c: Config, digest: seq<byte> -> Digest, s: State, k: Key, sd: Sender)
    requires k in s.senders && SenderOk(s.senders[k]) && SenderOk(sd) && SameTransfer(s.senders[k], sd)
    ensures Applied(WithSender(s, k, sd), k) == Applied(s, k) && Held(WithSender(s, k, sd), k) == Held(s, k)
    ensures forall q: nat :: Stored(WithSender(s, k, sd), k, q) == Stored(s, k, q)
    ensures k in s.server.incoming && SessionFor(c, digest, s.senders[k], s.server.incoming[k]) ==>
              SessionFor(c, digest, sd, s.server.incoming[k])
  {
    if k in s.server.incoming && SessionFor(c, digest, s.senders[k], s.server.incoming[k]) {
      SameSession(c, digest, s.senders[k], sd, s.server.incoming[k]);
    }
  }

  lemma SameSession(c: Config, digest: seq<byte> -> Digest, x: Sender, y: Sender, session: Session)
    requires SenderOk(x) && SenderOk(y) && SameTransfer(x, y) && SessionFor(c, digest, x, session)
    ensures SessionFor(c, digest, y, session)
  {
    forall q | 0 <= q < |session.received| && session.received[q] ensures PacketHeld(c, y, session, q) {
      assert PacketHeld(c, x, session, q);
    }
  }

  lemma SameTask(c: Config, digest: seq<byte> -> Digest, s: State, k: Key, sd: Sender, t: Task)
    requires k in s.senders && SenderOk(s.senders[k]) && SenderOk(sd) && SameTransfer(s.senders[k], sd)
    requires TaskFor(c, digest, s, k, s.senders[k], t)
    ensures TaskFor(c, digest, WithSender(s, k, sd), k, sd, t)
  {
    hide SenderOk, Honest, SessionFor, SameTransfer, Applied, Held;
    SamePlace(c, digest, s, k, sd);
    match t
    case Opening(_, d) => SameDatagram(digest, s.senders[k], sd, d);
    case Storing(_, ds) =>
      forall i | 0 <= i < |ds| ensures Honest(digest, sd, ds[i]) { SameDatagram(digest, s.senders[k], sd, ds[i]); }
    case Unmatched(_, d) => SameDatagram(digest, s.senders[k], sd, d);
    case Finding(_, d) => SameDatagram(digest, s.senders[k], sd, d);
    case Missing(_, d) => SameDatagram(digest, s.senders[k], sd, d);
    case Finalizing(_, d, session) =>
      SameSession(c, digest, s.senders[k], sd, session);
      SameDatagram(digest, s.senders[k], sd, d);
    case Marking(_, _) =>
    case Clearing(_, _) =>
    case Failing(_) =>
  }

  /** A sender on a fresh key starts clean. */
  lemma NewSenderKeeps(c: Config, digest: seq<byte> -> Digest, s: State, k: Key, sd: Sender)
    requires Unused(s, k) && SenderOk(sd) && sd.phase == Handshake && !AnySet(sd.acknowledged) && s.made.Keys == s.log.Keys
    ensures KeyInv(c, digest, Sent(WithSender(s, k, sd), k, StartOf(sd, digest)), k)
  {
    hide SessionFor, TaskFor, ReplyFor, Applied, Held, Stored, DivCeil;
    var s' := Sent(WithSender(s, k, sd), k, StartOf(sd, digest));
    forall n: nat, i: nat | n in s'.log && i < |s'.log[n]| ensures EntryGood(s'.log, s'.made, k, sd, n, i) {
      assert s.log[n][i].who != Some(k);
    }
  }

  /** A sender's own step keeps its invariant. */
  lemma ActorKeeps(c: Config, digest: seq<byte> -> Digest, s: State, k: Key, e: Happening)
    requires HappeningEnabled(s, e) && AllAlive(s) && Actor(e) == Some(k)
    requires (!e.NewSender? ==> k in s.senders && KeyInv(c, digest, s, k)) && s.made.Keys == s.log.Keys
    ensures k in NextHappening(digest, s, e).senders && KeyInv(c, digest, NextHappening(digest, s, e), k)
  {
    hide SessionFor, Unused, TaskFor, Applied, Held, Stored, KeyInv;
    match e
    case NewSender(key, sd) => NewSenderKeeps(c, digest, s, k, sd);
    case SendData(key, q) => SendKeeps(c, digest, s, k, DataOf(s.senders[k], q));
    case SendFin(key) => SendKeeps(c, digest, s, k, FinOf(s.senders[k], digest));
    case Handshaken(key) =>
      KnownStored(c, digest, s, k);
      LearnKeeps(c, digest, s, k, s.senders[k].(phase := Sending));
    case TakeAck(key, r) =>
      KnownStored(c, digest, s, k);
      ReplyKnown(c, digest, s, k, r);
      LearnKeeps(c, digest, s, k, s.senders[k].(acknowledged := Marked(s.senders[k].acknowledged, r)));
    case Succeed(key) =>
      KnownStored(c, digest, s, k);
      ReplyKnown(c, digest, s, k, Complete);
      LearnKeeps(c, digest, s, k, s.senders[k].(phase := Succeeded));
    case GiveUp(key) =>
      KnownStored(c, digest, s, k);
      LearnKeeps(c, digest, s, k, s.senders[k].(phase := Failed));
  }

  lemma KnownStored(c: Config, digest: seq<byte> -> Digest, s: State, k: Key)
    requires k in s.senders && KeyInv(c, digest, s, k)
    ensures forall q: nat | q < |s.senders[k].acknowledged| && s.senders[k].acknowledged[q] :: Stored(s, k, q)
    ensures SenderOk(s.senders[k])
  {
  }

  lemma ReplyKnown(c: Config, digest: seq<byte> -> Digest, s: State, k: Key, r: Reply)
    requires k in s.senders && KeyInv(c, digest, s, k) && (k, r) in s.replies
    ensures SenderOk(s.senders[k]) && ReplyFor(s, k, s.senders[k], r)
  {
  }

  // ---- Whole runs ----

  ghost predicate Inv(c: Config, digest: seq<byte> -> Digest, s: State) {
    Typed(c, s) && BlocksOk(digest, s) && forall k | k in s.senders :: KeyInv(c, digest, s, k)
  }

  function Initial(): State {
    State(Server(map[], {}, {}, map[]), map[], {}, {}, map[], map[], map[], map[], {})
  }

  lemma BegunTyped(c: Config, s: State, id: nat, t: Task)
    requires Typed(c, s) && TaskTyped(c, t)
    ensures Typed(c, Begun(s, id, t))
  {
  }

  lemma AnsweredTyped(c: Config, s: State, id: nat, r: Reply)
    requires Typed(c, s) && id in s.tasks
    ensures Typed(c, Answered(s, id, r))
  {
  }

  lemma ServerTyped(c: Config, s: State, incoming: map<Key, Session>, finishing: set<Key>)
    requires Typed(c, s) && forall k | k in incoming :: SessionOk(c, incoming[k])
    ensures Typed(c, WithServer(s, incoming, finishing))
  {
  }

  lemma SessionTyped(c: Config, s: State, key: Key)
    requires Typed(c, s) && key in s.server.incoming
    ensures SessionOk(c, s.server.incoming[key])
    ensures Typed(c, WithServer(s, s.server.incoming - {key}, s.server.finishing + {key}))
  {
  }

  lemma OpenTyped(c: Config, s: State, id: nat, room: bool)
    requires Typed(c, s) && id in s.tasks && s.tasks[id].Opening?
    ensures Typed(c, NextOpen(c, s, id, room))
  {
    hide SessionOk, NewSession;
    TypedTask(c, s, id);
    NewSessionOk(c, s.tasks[id].d);
    var (incoming, reply) := OpenSession(c, s.server.incoming, s.tasks[id].key, s.tasks[id].d, room);
    ServerTyped(c, s, incoming, s.server.finishing);
    AnsweredTyped(c, WithServer(s, incoming, s.server.finishing), id, reply);
  }

  lemma StoreTyped(c: Config, s: State, id: nat)
    requires Typed(c, s) && id in s.tasks && s.tasks[id].Storing?
    ensures Typed(c, NextStore(c, s, id))
  {
    hide SessionOk, StoreAll, AckOf, AcksNow;
    TypedTask(c, s, id);
    var key, ds := s.tasks[id].key, s.tasks[id].ds;
    if key in s.server.incoming {
      SessionLength(c, s.server.incoming[key]);
      StoreAllKeepsOk(c, s.server.incoming[key], ds);
      var (session, reply) := StoreBatch(c, s.server.incoming[key], ds);
      ServerTyped(c, s, s.server.incoming[key := session], s.server.finishing);
      AnsweredTyped(c, WithServer(s, s.server.incoming[key := session], s.server.finishing), id, reply);
    } else {
      BegunTyped(c, s, id, Unmatched(key, ds[|ds| - 1]));
    }
  }

  lemma FindTyped(c: Config, digest: seq<byte> -> Digest, s: State, id: nat)
    requires Typed(c, s) && id in s.tasks && s.tasks[id].Finding?
    ensures Typed(c, NextFind(c, s, id, digest))
  {
    hide SessionOk, Typed, NackOf, AllSet, FinMatches;
    TypedTask(c, s, id);
    var key, d := s.tasks[id].key, s.tasks[id].d;
    if key !in s.server.incoming {
      BegunTyped(c, s, id, Missing(key, d));
    } else {
      var session := s.server.incoming[key];
      SessionTyped(c, s, key);
      AnsweredTyped(c, s, id, NackOf(session));
      AnsweredTyped(c, s, id, Error);
      BegunTyped(c, WithServer(s, s.server.incoming - {key}, s.server.finishing + {key}), id, Finalizing(key, d, session));
    }
  }

  lemma FinalizeTyped(c: Config, digest: seq<byte> -> Digest, s: State, id: nat, live: bool)
    requires Typed(c, s) && id in s.tasks && s.tasks[id].Finalizing?
    ensures Typed(c, NextFinalize(c, s, id, live, digest))
  {
    hide SessionOk, Apply, Logged, FinishAllowed;
    TypedTask(c, s, id);
  }

  lemma TypedAfterSection(c: Config, digest: seq<byte> -> Digest, s: State, e: Section)
    requires Typed(c, s) && SectionEnabled(s, e)
    ensures Typed(c, NextSection(c, digest, s, e))
  {
    hide Typed, TaskTyped, StartAdmitted, NextOpen, NextStore, NextFind, NextFinalize, DataCompleted, Begun, Answered, Told, WithServer;
    match e
    case RecvStart(id, key, d, live) =>
      StartTyped(c, s, id, key, d, live);
    case OpenTask(id, room) => OpenTyped(c, s, id, room);
    case RecvData(id, key, ds) => DataTyped(c, s, id, key, ds);
    case StoreTask(id) => StoreTyped(c, s, id);
    case UnmatchedTask(id) => UnmatchedTyped(c, s, id);
    case RecvFin(id, key, d) => FinTyped(c, s, id, key, d);
    case FindTask(id) => FindTyped(c, digest, s, id);
    case MissingTask(id) => AnsweredTyped(c, s, id, if s.tasks[id].key in s.server.finishing then Silent else Error);
    case FinalizeTask(id, live) => FinalizeTyped(c, digest, s, id, live);
    case MarkTask(id) => MarkTyped(c, s, id);
    case ClearTask(id) => ClearTyped(c, s, id, Complete);
    case FailTask(id) => FailTyped(c, s, id);
  }

  lemma StartTyped(c: Config, s: State, id: nat, key: Key, d: Datagram, live: bool)
    requires Typed(c, s) && d.Start?
    ensures Typed(c, NextStart(c, s, id, key, d, live))
  {
    AdmittedIsValid(c, s, key, d, live);
    hide StartAdmitted, SessionOk, AllAlive, StartValid;
    if StartAdmitted(c, s.server.blocks, key, d, live) { BegunTyped(c, s, id, Opening(key, d)); }
    AllAliveSame(s, Told(s, key, Error));
  }

  lemma DataTyped(c: Config, s: State, id: nat, key: Key, ds: seq<Datagram>)
    requires Typed(c, s) && ds != [] && forall k | 0 <= k < |ds| :: ds[k].Data?
    ensures Typed(c, NextData(c, s, id, key, ds))
  {
    hide SessionOk, AllAlive, DataCompleted;
    BegunTyped(c, s, id, Storing(key, ds));
    AllAliveSame(s, Told(s, key, AckAll(ds[|ds| - 1])));
  }

  lemma UnmatchedTyped(c: Config, s: State, id: nat)
    requires Typed(c, s) && id in s.tasks && s.tasks[id].Unmatched?
    ensures Typed(c, NextUnmatched(c, s, id))
  {
    hide Typed, Answered;
    TypedTask(c, s, id);
    AnsweredTyped(c, s, id, if s.tasks[id].key in s.server.finishing then AckAll(s.tasks[id].d) else Error);
  }

  lemma FinTyped(c: Config, s: State, id: nat, key: Key, d: Datagram)
    requires Typed(c, s) && d.Fin?
    ensures Typed(c, NextFin(s, id, key, d))
  {
    hide SessionOk, AllAlive;
    BegunTyped(c, s, id, Finding(key, d));
    AllAliveSame(s, Told(s, key, Complete));
  }

  lemma MarkTyped(c: Config, s: State, id: nat)
    requires Typed(c, s) && id in s.tasks && s.tasks[id].Marking?
    ensures Typed(c, NextMark(c, s, id))
  {
    hide SessionOk, AllAlive;
    TypedTask(c, s, id);
    AllAliveSame(s, NextMark(c, s, id));
  }

  lemma ClearTyped(c: Config, s: State, id: nat, r: Reply)
    requires Typed(c, s) && id in s.tasks
    ensures Typed(c, Answered(WithServer(s, s.server.incoming, s.server.finishing - {s.tasks[id].key}), id, r))
  {
    hide SessionOk, AllAlive;
    ServerTyped(c, s, s.server.incoming, s.server.finishing - {s.tasks[id].key});
    AnsweredTyped(c, WithServer(s, s.server.incoming, s.server.finishing - {s.tasks[id].key}), id, r);
  }

  lemma FailTyped(c: Config, s: State, id: nat)
    requires Typed(c, s) && id in s.tasks
    ensures Typed(c, NextFail(s, id))
  {
    hide SessionOk, AllAlive;
    ClearTyped(c, s, id, Error);
    AllAliveSame(Answered(WithServer(s, s.server.incoming, s.server.finishing - {s.tasks[id].key}), id, Error), NextFail(s, id));
  }

  lemma AllAliveSame(s: State, s': State)
    requires s'.server.blocks == s.server.blocks && s'.log == s.log && s'.current == s.current
    ensures AllAlive(s') == AllAlive(s)
  {
  }

  lemma AdmittedIsValid(c: Config, s: State, key: Key, d: Datagram, live: bool)
    requires d.Start? && c.payloadBytes > 0
    ensures StartAdmitted(c, s.server.blocks, key, d, live) ==> StartValid(c, d)
  {
  }

  lemma TypedAfterHappening(c: Config, digest: seq<byte> -> Digest, s: State, e: Happening)
    requires Typed(c, s) && HappeningEnabled(s, e)
    ensures Typed(c, NextHappening(digest, s, e))
  {
    hide SessionOk, Apply, Logged, Marked, StartOf, DataOf, FinOf, TaskTyped, Unused;
  }

  lemma BlocksAfterHappening(digest: seq<byte> -> Digest, s: State, e: Happening)
    requires BlocksOk(digest, s) && AllAlive(s) && HappeningEnabled(s, e)
    ensures BlocksOk(digest, NextHappening(digest, s, e))
  {
    hide Apply, Logged, Marked, StartOf, DataOf, FinOf, Unused, BlockHolds, LogShape;
    match e
    case Other(block, step) => WithBlockOk(digest, s, block, None, step);
    case Allocate(block, n, job, lease, generation, size) => AllocatedOk(digest, s, block, n, job, lease, generation, size);
    case _ =>
  }

  lemma AllocatedOk(digest: seq<byte> -> Digest, s: State, block: nat, n: nat, job: nat, lease: nat, generation: nat, size: nat)
    requires BlocksOk(digest, s) && n !in s.log
    ensures BlocksOk(digest, Allocated(s, block, n, Fresh(job, lease, generation, size)))
  {
    hide Sound, BlockHolds, LogShape;
    FreshOk(digest, job, lease, generation, size);
    var s' := Allocated(s, block, n, Fresh(job, lease, generation, size));
    FreshIs(job, lease, generation, size);
    forall other | other in s.server.blocks && other != block ensures BlockOk(digest, s', other) {
      assert BlockOk(digest, s, other);
    }
  }

  lemma FreshIs(job: nat, lease: nat, generation: nat, size: nat)
    ensures Fresh(job, lease, generation, size).lease == lease && Fresh(job, lease, generation, size).generation == generation
  {
  }

  lemma FreshOk(digest: seq<byte> -> Digest, job: nat, lease: nat, generation: nat, size: nat)
    ensures Sound(Fresh(job, lease, generation, size), digest) && LogShape([]) && BlockHolds(Fresh(job, lease, generation, size), [])
  {
  }

  lemma BlocksAfterSection(c: Config, digest: seq<byte> -> Digest, s: State, e: Section)
    requires Typed(c, s) && BlocksOk(digest, s) && SectionEnabled(s, e)
    ensures BlocksOk(digest, NextSection(c, digest, s, e))
  {
    hide BlocksOk, NextSection, NextFinalize, SessionOk;
    if e.FinalizeTask? {
      FinalizeBlocks(c, digest, s, e.id, e.live);
    } else {
      BlocksUntouched(c, digest, s, e);
      SameBlocks(digest, s, NextSection(c, digest, s, e));
    }
  }

  lemma SameBlocks(digest: seq<byte> -> Digest, s: State, s': State)
    requires BlocksOk(digest, s) && s'.server.blocks == s.server.blocks && s'.log == s.log && s'.made == s.made && s'.current == s.current
    ensures BlocksOk(digest, s')
  {
    hide Sound, BlockHolds, LogShape;
    forall b | b in s'.server.blocks ensures BlockOk(digest, s', b) { assert BlockOk(digest, s, b); }
  }

  /** Most sections touch neither blocks nor senders. */
  predicate Untouched(s: State, s': State) {
    s'.server.blocks == s.server.blocks && s'.log == s.log && s'.made == s.made && s'.current == s.current && s'.senders == s.senders
  }

  lemma BlocksUntouched(c: Config, digest: seq<byte> -> Digest, s: State, e: Section)
    requires Typed(c, s) && SectionEnabled(s, e) && !e.FinalizeTask?
    ensures Untouched(s, NextSection(c, digest, s, e))
  {
    hide Typed, Untouched, NextStart, NextOpen, NextData, NextStore, NextUnmatched, NextFin, NextFind, NextMark, NextFail, Answered, WithServer;
    match e
    case RecvStart(id, key, d, live) => StartUntouched(c, s, id, key, d, live);
    case OpenTask(id, room) => OpenUntouched(c, s, id, room);
    case RecvData(id, key, ds) => DataUntouched(c, s, id, key, ds);
    case StoreTask(id) => StoreUntouched(c, s, id);
    case UnmatchedTask(id) => UnmatchedUntouched(c, s, id);
    case RecvFin(id, key, d) => FinUntouched(s, id, key, d);
    case FindTask(id) => FindUntouched(c, digest, s, id);
    case MissingTask(id) => AnsweredUntouched(s, s.server.finishing, id, if s.tasks[id].key in s.server.finishing then Silent else Error);
    case MarkTask(id) => MarkUntouched(c, s, id);
    case ClearTask(id) => AnsweredUntouched(s, s.server.finishing - {s.tasks[id].key}, id, Complete);
    case FailTask(id) => FailUntouched(s, id);
  }

  lemma AnsweredUntouched(s: State, finishing: set<Key>, id: nat, r: Reply)
    requires id in s.tasks
    ensures Untouched(s, Answered(s, id, r)) && Untouched(s, Answered(WithServer(s, s.server.incoming, finishing), id, r))
  {
  }

  lemma StartUntouched(c: Config, s: State, id: nat, key: Key, d: Datagram, live: bool)
    requires Typed(c, s) && d.Start?
    ensures Untouched(s, NextStart(c, s, id, key, d, live))
  {
    hide StartAdmitted;
  }

  lemma OpenUntouched(c: Config, s: State, id: nat, room: bool)
    requires Typed(c, s) && id in s.tasks && s.tasks[id].Opening?
    ensures Untouched(s, NextOpen(c, s, id, room))
  {
    hide Typed, TaskTyped, OpenSession;
  }

  lemma DataUntouched(c: Config, s: State, id: nat, key: Key, ds: seq<Datagram>)
    requires ds != [] && forall k | 0 <= k < |ds| :: ds[k].Data?
    ensures Untouched(s, NextData(c, s, id, key, ds))
  {
    hide DataCompleted, AckAll;
  }

  lemma StoreUntouched(c: Config, s: State, id: nat)
    requires Typed(c, s) && id in s.tasks && s.tasks[id].Storing?
    ensures Untouched(s, NextStore(c, s, id))
  {
    hide StoreBatch;
  }

  lemma UnmatchedUntouched(c: Config, s: State, id: nat)
    requires Typed(c, s) && id in s.tasks && s.tasks[id].Unmatched?
    ensures Untouched(s, NextUnmatched(c, s, id))
  {
    hide AckAll;
  }

  lemma FinUntouched(s: State, id: nat, key: Key, d: Datagram)
    requires d.Fin?
    ensures Untouched(s, NextFin(s, id, key, d))
  {
  }

  lemma FindUntouched(c: Config, digest: seq<byte> -> Digest, s: State, id: nat)
    requires Typed(c, s) && id in s.tasks && s.tasks[id].Finding?
    ensures Untouched(s, NextFind(c, s, id, digest))
  {
    hide FinMatches, NackOf, AllSet, SessionOk;
  }

  lemma MarkUntouched(c: Config, s: State, id: nat)
    requires Typed(c, s) && id in s.tasks && s.tasks[id].Marking?
    ensures Untouched(s, NextMark(c, s, id))
  {
  }

  lemma FailUntouched(s: State, id: nat)
    requires id in s.tasks
    ensures Untouched(s, NextFail(s, id))
  {
  }

  lemma FinalizeBlocks(c: Config, digest: seq<byte> -> Digest, s: State, id: nat, live: bool)
    requires Typed(c, s) && BlocksOk(digest, s) && id in s.tasks && s.tasks[id].Finalizing?
    ensures BlocksOk(digest, NextSection(c, digest, s, FinalizeTask(id, live)))
  {
    hide BlocksOk, Apply, Logged, FinishAllowed, SessionOk;
    var t := s.tasks[id];
    TypedTask(c, s, id);
    if t.key.block in s.server.blocks {
      var step := FinishStep(t.key, t.d, t.session, live);
      WithBlockOk(digest, s, t.key.block, Some(t.key), step);
      if FinishAllowed(s.server.blocks[t.key.block], step) {
        SameBlocks(digest, WithBlock(s, t.key.block, Some(t.key), Apply(s.server.blocks[t.key.block], step, digest)),
                   NextSection(c, digest, s, FinalizeTask(id, live)));
        return;
      }
    }
    SameBlocks(digest, s, NextSection(c, digest, s, FinalizeTask(id, live)));
  }

  lemma KeyAfterSection(c: Config, digest: seq<byte> -> Digest, s: State, e: Section, k: Key)
    requires Inv(c, digest, s) && SectionEnabled(s, e) && k in s.senders
    ensures k in NextSection(c, digest, s, e).senders && KeyInv(c, digest, NextSection(c, digest, s, e), k)
  {
    hide KeyInv, BlocksOk, TaskTyped, SessionOk, StoreBatch, NewSession, StartAdmitted, FinishAllowed, FinMatches, NackOf, AllSet, Apply, Logged;
    match e
    case RecvStart(id, key, d, live) => StartKeeps(c, digest, s, k, id, key, d, live);
    case OpenTask(id, room) => OpenKeeps(c, digest, s, k, id, room);
    case RecvData(id, key, ds) => DataKeeps(c, digest, s, k, id, key, ds);
    case StoreTask(id) => StoreKeeps(c, digest, s, k, id);
    case UnmatchedTask(id) => UnmatchedKeeps(c, digest, s, k, id);
    case RecvFin(id, key, d) => FinKeeps(c, digest, s, k, id, key, d);
    case FindTask(id) => FindKeeps(c, digest, s, k, id);
    case MissingTask(id) => MissingKeeps(c, digest, s, k, id, if s.tasks[id].key in s.server.finishing then Silent else Error);
    case FinalizeTask(id, live) => FinalizeKeeps(c, digest, s, k, id, live);
    case MarkTask(id) => MarkKeeps(c, digest, s, k, id);
    case ClearTask(id) => ClearKeeps(c, digest, s, k, id);
    case FailTask(id) => FailKeeps(c, digest, s, k, id);
  }

  lemma MadeKeysIn(c: Config, digest: seq<byte> -> Digest, s: State)
    requires Inv(c, digest, s)
    ensures s.made.Keys == s.log.Keys
  {
  }

  lemma KeyAfterHappening(c: Config, digest: seq<byte> -> Digest, s: State, e: Happening, k: Key)
    requires Inv(c, digest, s) && HappeningEnabled(s, e) && k in NextHappening(digest, s, e).senders
    ensures KeyInv(c, digest, NextHappening(digest, s, e), k)
  {
    hide KeyInv, BlocksOk, TaskTyped, SessionOk, Apply, Logged, Marked, StartOf, DataOf, FinOf, Unused;
    MadeKeysIn(c, digest, s);
    if Actor(e).None? {
      WorldKeeps(c, digest, s, k, e);
    } else if Actor(e).value != k {
      OthersKeep(c, digest, s, k, e);
    } else {
      ActorKeeps(c, digest, s, k, e);
    }
  }

  lemma NextKeeps(c: Config, digest: seq<byte> -> Digest, s: State, e: Event)
    requires Inv(c, digest, s) && Enabled(s, e)
    ensures Inv(c, digest, Next(c, digest, s, e))
  {
    hide KeyInv, BlocksOk, Typed, NextSection, NextHappening;
    match e
    case Receiver(section) =>
      TypedAfterSection(c, digest, s, section);
      BlocksAfterSection(c, digest, s, section);
      SameSenders(c, digest, s, section);
      forall k | k in NextSection(c, digest, s, section).senders ensures KeyInv(c, digest, NextSection(c, digest, s, section), k) {
        KeyAfterSection(c, digest, s, section, k);
      }
    case Elsewhere(happening) =>
      TypedLogs(c, s);
      TypedAfterHappening(c, digest, s, happening);
      BlocksAfterHappening(digest, s, happening);
      forall k | k in NextHappening(digest, s, happening).senders ensures KeyInv(c, digest, NextHappening(digest, s, happening), k) {
        KeyAfterHappening(c, digest, s, happening, k);
      }
  }

  lemma TypedLogs(c: Config, s: State)
    requires Typed(c, s)
    ensures AllAlive(s)
  {
  }

  lemma SameSenders(c: Config, digest: seq<byte> -> Digest, s: State, e: Section)
    requires Typed(c, s) && SectionEnabled(s, e)
    ensures NextSection(c, digest, s, e).senders == s.senders
  {
    hide Typed, NextStart, NextOpen, NextData, NextStore, NextUnmatched, NextFin, NextFind, NextMark, NextFail, Apply, Logged, FinishAllowed;
    if !e.FinalizeTask? { BlocksUntouched(c, digest, s, e); }
  }

  /** A run: each state follows from the one before by an enabled event. */
  ghost predicate IsRun(c: Config, digest: seq<byte> -> Digest, states: seq<State>, events: seq<Event>) {
    && |states| == |events| + 1 && states[0] == Initial()
    && forall i | 0 <= i < |events| ::
         Typed(c, states[i]) && Enabled(states[i], events[i]) && states[i + 1] == Next(c, digest, states[i], events[i])
  }

  lemma {:induction false} RunKeeps(c: Config, digest: seq<byte> -> Digest, states: seq<State>, events: seq<Event>, n: nat)
    requires c.payloadBytes > 0 && IsRun(c, digest, states, events) && n < |states|
    ensures Inv(c, digest, states[n])
  {
    hide Typed, Enabled, Next, KeyInv, BlocksOk;
    if n == 0 {
      InitialInv(c, digest);
    } else {
      RunKeeps(c, digest, states, events, n - 1);
      NextKeeps(c, digest, states[n - 1], events[n - 1]);
    }
  }

  lemma InitialInv(c: Config, digest: seq<byte> -> Digest)
    requires c.payloadBytes > 0
    ensures Inv(c, digest, Initial())
  {
  }

  /**
   Late DATA, repeated FIN and repeated START never apply a transfer twice to one incarnation of a
   block, and only to incarnations with its own lease and generation.
   */
  lemma AtMostOnce(c: Config, digest: seq<byte> -> Digest, states: seq<State>, events: seq<Event>, n: nat, k: Key, x: nat, i: nat, y: nat, j: nat)
    requires c.payloadBytes > 0 && IsRun(c, digest, states, events) && n < |states| && k in states[n].senders
    requires EntryAt(states[n].log, k, x, i) && EntryAt(states[n].log, k, y, j)
    ensures states[n].log[x][i] == states[n].log[y][j] == Entry(Some(k), states[n].senders[k].offset, states[n].senders[k].payload)
    ensures x in states[n].made && y in states[n].made && states[n].made[x] == states[n].made[y] == MadeFor(k, states[n].senders[k])
    ensures x == y ==> i == j
  {
    hide IsRun, Typed, SenderOk, Honest, SessionFor, TaskFor, ReplyFor, Stored, Applied;
    RunKeeps(c, digest, states, events, n);
    var s := states[n];
    assert KeyInv(c, digest, s, k);
    assert EntryGood(s.log, s.made, k, s.senders[k], x, i);
    assert EntryGood(s.log, s.made, k, s.senders[k], y, j);
    assert LogShape(s.log[x]);
  }

  /**
   The write's contract. In every state of every run, a sender that has returned success had
   its payload appended exactly once to some incarnation of its block, at its offset; while that
   incarnation is alive the block holds it.
   */
  lemma SuccessMeansAppliedOnce(c: Config, digest: seq<byte> -> Digest, states: seq<State>, events: seq<Event>, n: nat, k: Key)
    returns (x: nat, i: nat)
    requires c.payloadBytes > 0 && IsRun(c, digest, states, events) && n < |states|
    requires k in states[n].senders && states[n].senders[k].phase == Succeeded
    ensures EntryAt(states[n].log, k, x, i) && x in states[n].made && states[n].made[x] == MadeFor(k, states[n].senders[k])
    ensures states[n].log[x][i] == Entry(Some(k), states[n].senders[k].offset, states[n].senders[k].payload)
    ensures forall j | EntryAt(states[n].log, k, x, j) :: j == i
    ensures k.block in states[n].server.blocks && k.block in states[n].current && states[n].current[k.block] == x ==>
              var b, lo, hi := states[n].server.blocks[k.block], states[n].senders[k].offset,
                               states[n].senders[k].offset + |states[n].senders[k].payload|;
              hi <= b.written <= |b.bytes| && b.bytes[lo..hi] == states[n].senders[k].payload
  {
    hide IsRun, Typed, SenderOk, Honest, SessionFor, TaskFor, ReplyFor, Stored, Sound;
    RunKeeps(c, digest, states, events, n);
    var s := states[n];
    assert KeyInv(c, digest, s, k);
    var x': int, i': int :| EntryAt(s.log, k, x', i');
    x, i := x', i';
    assert EntryGood(s.log, s.made, k, s.senders[k], x, i);
    forall j | EntryAt(s.log, k, x, j) ensures j == i {
      AtMostOnce(c, digest, states, events, n, k, x, i, x, j);
    }
    if k.block in s.server.blocks { assert BlockOk(digest, s, k.block); }
  }

  /** No block id was allocated twice with the same lease and generation. */
  ghost predicate NoReuse(s: State) {
    forall x, y | x in s.made && y in s.made && s.made[x] == s.made[y] :: x == y
  }

  /** A transfer is applied at most once, counting all incarnations. */
  ghost predicate Once(s: State, k: Key) {
    forall x, i, y, j | EntryAt(s.log, k, x, i) && EntryAt(s.log, k, y, j) :: x == y && i == j
  }

  /** If nothing was allocated twice with the same lease and generation, each transfer is applied at most once in all. */
  lemma OnceWithoutReuse(c: Config, digest: seq<byte> -> Digest, states: seq<State>, events: seq<Event>, n: nat, k: Key)
    requires c.payloadBytes > 0 && IsRun(c, digest, states, events) && n < |states| && k in states[n].senders && NoReuse(states[n])
    ensures Once(states[n], k)
  {
    hide IsRun;
    forall x, i, y, j | EntryAt(states[n].log, k, x, i) && EntryAt(states[n].log, k, y, j) ensures x == y && i == j {
      AtMostOnce(c, digest, states, events, n, k, x, i, y, j);
    }
  }

  /**
   Whatever stale, duplicated or reordered acknowledgements a sender has used, every packet it
   takes as received is in the receiver's session, or the whole transfer is being or has been
   applied, unless the receiver dropped the session.
   */
  lemma AcknowledgedIsStored(c: Config, digest: seq<byte> -> Digest, states: seq<State>, events: seq<Event>, n: nat, k: Key, q: nat)
    requires c.payloadBytes > 0 && IsRun(c, digest, states, events) && n < |states|
    requires k in states[n].senders && q < |states[n].senders[k].acknowledged| && states[n].senders[k].acknowledged[q]
    requires k !in states[n].dropped
    ensures k in states[n].server.finishing || Applied(states[n], k)
            || (k in states[n].server.incoming && q < |states[n].server.incoming[k].received|
                && states[n].server.incoming[k].received[q])
  {
    hide IsRun, Typed, SenderOk, Honest, SessionFor, TaskFor, ReplyFor;
    RunKeeps(c, digest, states, events, n);
    assert KeyInv(c, digest, states[n], k);
  }

  /** FIN is answered by a NACK only if the session was dropped, or the data already is being or has been applied. */
  lemma NackMeansDroppedOrApplied(c: Config, digest: seq<byte> -> Digest, states: seq<State>, events: seq<Event>, n: nat, k: Key, r: Reply)
    requires c.payloadBytes > 0 && IsRun(c, digest, states, events) && n < |states|
    requires k in states[n].senders && (k, r) in states[n].replies && r.Nack?
    ensures k in states[n].dropped || k in states[n].server.finishing || Applied(states[n], k)
  {
    hide IsRun, Typed, Honest, SessionFor, TaskFor, Stored, SenderOk;
    RunKeeps(c, digest, states, events, n);
    assert KeyInv(c, digest, states[n], k);
    assert ReplyFor(states[n], k, states[n].senders[k], r) by { ReplyKnown(c, digest, states[n], k, r); }
  }

  /** In a live session of a sender, every set flag has its slice of the payload in the buffer, and the count counts. */
  lemma FlagsHaveSlices(c: Config, digest: seq<byte> -> Digest, states: seq<State>, events: seq<Event>, n: nat, k: Key)
    requires c.payloadBytes > 0 && IsRun(c, digest, states, events) && n < |states|
    requires k in states[n].senders && k in states[n].server.incoming
    ensures SenderOk(states[n].senders[k]) && SessionFor(c, digest, states[n].senders[k], states[n].server.incoming[k])
    ensures states[n].server.incoming[k].receivedCount == Count(states[n].server.incoming[k].received)
  {
    hide IsRun, Honest, TaskFor, Stored, SessionFor, SenderOk;
    RunKeeps(c, digest, states, events, n);
    assert KeyInv(c, digest, states[n], k);
    assert SessionOk(c, states[n].server.incoming[k]);
  }
}
