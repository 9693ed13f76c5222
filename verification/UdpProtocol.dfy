/**
 Many UDP writes to many blocks over a network that loses, duplicates and reorders
 datagrams. Handlers interleave between their lock-protected sections; local and direct
 writes, commits, frees and foreign traffic interleave with them.

 Assumption: each write binds a fresh socket, so its key (source address and port, transfer id,
 block) has never been used before; transfer ids alone may repeat. Nothing is assumed about the
 digest. A freed block id may be allocated again: every allocation is an incarnation of its own.
 */
module UdpProtocol {
  import opened Graph
  import opened Blocks
  import opened UdpServer

  datatype Phase = Handshake | Sending | Succeeded | Failed

  datatype Sender = Sender(
    target: Target, offset: nat, payload: seq<byte>, packet: nat, phase: Phase, acknowledged: seq<bool>)

  /** A handler between two sections. */
  datatype Task =
    | Opening(key: Key, d: Datagram)
    | Storing(key: Key, ds: seq<Datagram>)
    | Unmatched(key: Key, d: Datagram)
    | Finding(key: Key, d: Datagram)
    | Missing(key: Key, d: Datagram)
    | Finalizing(key: Key, d: Datagram, session: Session)
    | Marking(key: Key, d: Datagram)
    | Clearing(key: Key, d: Datagram)
    | Failing(key: Key)

  /** One append to a block, and the transfer that made it if it came over UDP. */
  datatype Entry = Entry(who: Option<Key>, offset: nat, data: seq<byte>)

  /** What an incarnation was allocated as. */
  datatype Made = Made(block: nat, lease: nat, generation: nat)

  /** `log` and `made` are by incarnation; `current` says which incarnation of a block id is alive. */
  datatype State = State(
    server: Server, tasks: map<nat, Task>, net: set<(Key, Datagram)>, replies: set<(Key, Reply)>,
    senders: map<Key, Sender>, log: map<nat, seq<Entry>>, made: map<nat, Made>, current: map<nat, nat>, dropped: set<Key>)

  // ---- What an honest sender sends ----

  function Packets(sd: Sender): nat
    requires sd.packet > 0
  {
    DivCeil(|sd.payload|, sd.packet)
  }

  function Begin(sd: Sender, q: nat): nat {
    q * sd.packet
  }

  function End(sd: Sender, q: nat): nat {
    if (q + 1) * sd.packet <= |sd.payload| then (q + 1) * sd.packet else |sd.payload|
  }

  lemma Scale(a: nat, b: nat, p: nat)
    requires a <= b
    ensures a * p <= b * p && (a + 1) * p == a * p + p
  {
  }

  lemma DivCeilBounds(n: nat, p: nat)
    requires p > 0 && n > 0
    ensures DivCeil(n, p) > 0 && n <= DivCeil(n, p) * p < n + p
  {
    var m := DivCeil(n, p);
    assert m * p + (n + p - 1) % p == n + p - 1;
  }

  /** Consecutive packets tile the payload. */
  lemma Tiles(sd: Sender, q: nat)
    requires sd.packet > 0 && q < Packets(sd)
    ensures Begin(sd, q) < End(sd, q) <= |sd.payload|
  {
    if |sd.payload| > 0 {
      DivCeilBounds(|sd.payload|, sd.packet);
      Scale(q + 1, Packets(sd), sd.packet);
      Scale(q, q, sd.packet);
    }
  }

  lemma Disjoint(sd: Sender, q: nat, r: nat)
    requires q < r
    ensures End(sd, q) <= Begin(sd, r)
  {
    Scale(q + 1, r, sd.packet);
  }

  lemma Covers(sd: Sender, x: nat) returns (q: nat)
    requires sd.packet > 0 && x < |sd.payload|
    ensures q < Packets(sd) && Begin(sd, q) <= x < End(sd, q)
  {
    q := x / sd.packet;
    assert q * sd.packet + x % sd.packet == x;
    Scale(q, q, sd.packet);
    DivCeilBounds(|sd.payload|, sd.packet);
    if Packets(sd) <= q { Scale(Packets(sd), q, sd.packet); }
  }

  function StartOf(sd: Sender, digest: seq<byte> -> Digest): Datagram
    requires sd.packet > 0
  {
    Start(sd.target, sd.offset, |sd.payload|, Packets(sd), digest(sd.payload))
  }

  function DataOf(sd: Sender, q: nat): Datagram
    requires sd.packet > 0 && q < Packets(sd)
  {
    Tiles(sd, q);
    Data(sd.target, sd.offset + Begin(sd, q), q, sd.payload[Begin(sd, q)..End(sd, q)])
  }

  function FinOf(sd: Sender, digest: seq<byte> -> Digest): Datagram {
    Fin(sd.target, sd.offset, digest(sd.payload))
  }

  predicate SenderOk(sd: Sender) {
    && sd.packet > 0 && |sd.payload| > 0 && |sd.acknowledged| == Packets(sd)
    && (sd.phase == Succeeded ==> AllSet(sd.acknowledged))
  }

  // ---- Events ----

  /** Sections of the receiver's handlers. */
  datatype Section =
    | RecvStart(id: nat, key: Key, d: Datagram, live: bool)
    | OpenTask(id: nat, room: bool)
    | RecvData(id: nat, key: Key, ds: seq<Datagram>)
    | StoreTask(id: nat)
    | UnmatchedTask(id: nat)
    | RecvFin(id: nat, key: Key, d: Datagram)
    | FindTask(id: nat)
    | MissingTask(id: nat)
    | FinalizeTask(id: nat, live: bool)
    | MarkTask(id: nat)
    | ClearTask(id: nat)
    | FailTask(id: nat)

  /** Expiry, eviction, other uses of the blocks, foreign traffic, and the senders. */
  datatype Happening =
    | Drop(key: Key)
    | Evict(key: Key, offset: nat)
    | Other(block: nat, step: Step)
    | Allocate(block: nat, incarnation: nat, job: nat, lease: nat, generation: nat, size: nat)
    | Free(block: nat)
    | Inject(key: Key, d: Datagram)
    | NewSender(key: Key, sd: Sender)
    | Handshaken(key: Key)
    | SendData(key: Key, q: nat)
    | TakeAck(key: Key, r: Reply)
    | SendFin(key: Key)
    | Succeed(key: Key)
    | GiveUp(key: Key)

  datatype Event = Receiver(section: Section) | Elsewhere(happening: Happening)

  /** Nothing anywhere mentions `key` yet: the socket is fresh. */
  ghost predicate Unused(s: State, key: Key) {
    && key !in s.senders && key !in s.server.incoming && key !in s.server.finishing && key !in s.dropped
    && (forall d :: (key, d) !in s.net)
    && (forall r :: (key, r) !in s.replies)
    && (forall o :: (key, o) !in s.server.completed)
    && (forall id | id in s.tasks :: s.tasks[id].key != key)
    && (forall n, i | n in s.log && 0 <= i < |s.log[n]| :: s.log[n][i].who != Some(key))
  }

  predicate Sendable(s: State, key: Key) {
    key in s.senders && SenderOk(s.senders[key])
  }

  ghost predicate Enabled(s: State, e: Event) {
    match e
    case Receiver(section) => SectionEnabled(s, section)
    case Elsewhere(happening) => HappeningEnabled(s, happening)
  }

  ghost predicate SectionEnabled(s: State, e: Section) {
    match e
    case RecvStart(id, key, d, live) => id !in s.tasks && d.Start? && (key, d) in s.net
    case OpenTask(id, room) => id in s.tasks && s.tasks[id].Opening?
    case RecvData(id, key, ds) =>
      id !in s.tasks && ds != [] && forall k | 0 <= k < |ds| :: ds[k].Data? && (key, ds[k]) in s.net
    case StoreTask(id) => id in s.tasks && s.tasks[id].Storing?
    case UnmatchedTask(id) => id in s.tasks && s.tasks[id].Unmatched?
    case RecvFin(id, key, d) => id !in s.tasks && d.Fin? && (key, d) in s.net
    case FindTask(id) => id in s.tasks && s.tasks[id].Finding?
    case MissingTask(id) => id in s.tasks && s.tasks[id].Missing?
    case FinalizeTask(id, live) => id in s.tasks && s.tasks[id].Finalizing?
    case MarkTask(id) => id in s.tasks && s.tasks[id].Marking?
    case ClearTask(id) => id in s.tasks && s.tasks[id].Clearing?
    case FailTask(id) => id in s.tasks && s.tasks[id].Failing?
  }

  ghost predicate HappeningEnabled(s: State, e: Happening) {
    match e
    case Drop(key) => key in s.server.incoming
    case Evict(key, offset) => (key, offset) in s.server.completed
    case Other(block, step) => block in s.server.blocks && !step.Finish?
    case Allocate(block, incarnation, _, _, _, _) => block !in s.server.blocks && incarnation !in s.log
    case Free(block) => block in s.server.blocks
    case Inject(key, d) => key !in s.senders
    case NewSender(key, sd) => Unused(s, key) && SenderOk(sd) && sd.phase == Handshake && !AnySet(sd.acknowledged)
    case Handshaken(key) => Sendable(s, key) && s.senders[key].phase == Handshake && (key, StartAck) in s.replies
    case SendData(key, q) => Sendable(s, key) && s.senders[key].phase == Sending && q < Packets(s.senders[key])
    case TakeAck(key, r) => Sendable(s, key) && s.senders[key].phase == Sending && (key, r) in s.replies && (r.Ack? || r.Nack?)
    case SendFin(key) => Sendable(s, key) && s.senders[key].phase == Sending && AllSet(s.senders[key].acknowledged)
    case Succeed(key) =>
      Sendable(s, key) && s.senders[key].phase == Sending && AllSet(s.senders[key].acknowledged) && (key, Complete) in s.replies
    case GiveUp(key) => Sendable(s, key) && s.senders[key].phase != Succeeded
  }

  predicate AnySet(flags: seq<bool>) {
    exists k :: 0 <= k < |flags| && flags[k]
  }

  // ---- Transitions ----

  function Begun(s: State, id: nat, t: Task): State {
    s.(tasks := s.tasks[id := t])
  }

  function Answered(s: State, id: nat, r: Reply): State
    requires id in s.tasks
  {
    s.(tasks := s.tasks - {id}, replies := s.replies + {(s.tasks[id].key, r)})
  }

  function Told(s: State, key: Key, r: Reply): State {
    s.(replies := s.replies + {(key, r)})
  }

  function WithServer(s: State, incoming: map<Key, Session>, finishing: set<Key>): State {
    s.(server := s.server.(incoming := incoming, finishing := finishing))
  }

  /** The block's new content is logged as one entry if anything was appended. */
  function Logged(es: seq<Entry>, who: Option<Key>, b: Block, after: Block): seq<Entry> {
    if b.written < after.written <= |after.bytes| then es + [Entry(who, b.written, after.bytes[b.written..after.written])] else es
  }

  /** The block is alive as one of the logged incarnations. */
  predicate Alive(s: State, block: nat) {
    block in s.server.blocks && block in s.current && s.current[block] in s.log
  }

  function WithBlock(s: State, block: nat, who: Option<Key>, after: Block): State
    requires Alive(s, block)
  {
    s.(server := s.server.(blocks := s.server.blocks[block := after]),
       log := s.log[s.current[block] := Logged(s.log[s.current[block]], who, s.server.blocks[block], after)])
  }

  function Allocated(s: State, block: nat, incarnation: nat, b: Block): State {
    s.(server := s.server.(blocks := s.server.blocks[block := b]), log := s.log[incarnation := []],
       made := s.made[incarnation := Made(block, b.lease, b.generation)], current := s.current[block := incarnation])
  }

  function WithSender(s: State, key: Key, sd: Sender): State {
    s.(senders := s.senders[key := sd])
  }

  function Sent(s: State, key: Key, d: Datagram): State {
    s.(net := s.net + {(key, d)})
  }

  /** Which packets an ACK or NACK reports as received. */
  predicate Reports(r: Reply, q: nat) {
    match r
    case Ack(base, bits) => base <= q < base + |bits| && bits[q - base]
    case Nack(base, bits) => base <= q < base + |bits| && !bits[q - base]
    case _ => false
  }

  function Marked(acknowledged: seq<bool>, r: Reply): (m: seq<bool>)
    ensures |m| == |acknowledged|
  {
    seq(|acknowledged|, q requires 0 <= q < |acknowledged| => acknowledged[q] || Reports(r, q))
  }

  /** Facts every state keeps that make the sections well defined. */
  ghost predicate Typed(c: Config, s: State) {
    && c.payloadBytes > 0
    && (forall k | k in s.server.incoming :: SessionOk(c, s.server.incoming[k]))
    && (forall id | id in s.tasks :: TaskTyped(c, s.tasks[id]))
    && AllAlive(s)
  }

  predicate AllAlive(s: State) {
    forall b | b in s.server.blocks :: Alive(s, b)
  }

  predicate TaskTyped(c: Config, t: Task)
    requires c.payloadBytes > 0
  {
    match t
    case Opening(_, d) => d.Start? && StartValid(c, d)
    case Storing(_, ds) => ds != [] && forall k | 0 <= k < |ds| :: ds[k].Data?
    case Unmatched(_, d) => d.Data?
    case Finding(_, d) => d.Fin?
    case Missing(_, d) => d.Fin?
    case Finalizing(_, d, session) => d.Fin?
    case Marking(_, d) => d.Fin?
    case Clearing(_, d) => d.Fin?
    case Failing(_) => true
  }

  function NextStart(c: Config, s: State, id: nat, key: Key, d: Datagram, live: bool): State
    requires c.payloadBytes > 0 && d.Start?
  {
    if StartAdmitted(c, s.server.blocks, key, d, live) then Begun(s, id, Opening(key, d)) else Told(s, key, Error)
  }

  function NextOpen(c: Config, s: State, id: nat, room: bool): State
    requires Typed(c, s) && id in s.tasks && s.tasks[id].Opening?
  {
    assert TaskTyped(c, s.tasks[id]);
    var (incoming, reply) := OpenSession(c, s.server.incoming, s.tasks[id].key, s.tasks[id].d, room);
    Answered(WithServer(s, incoming, s.server.finishing), id, reply)
  }

  function NextData(c: Config, s: State, id: nat, key: Key, ds: seq<Datagram>): State
    requires ds != [] && forall k | 0 <= k < |ds| :: ds[k].Data?
  {
    if DataCompleted(c, s.server.completed, key, ds[0]) then Told(s, key, AckAll(ds[|ds| - 1]))
    else Begun(s, id, Storing(key, ds))
  }

  function NextStore(c: Config, s: State, id: nat): State
    requires Typed(c, s) && id in s.tasks && s.tasks[id].Storing?
  {
    assert TaskTyped(c, s.tasks[id]);
    var key, ds := s.tasks[id].key, s.tasks[id].ds;
    if key in s.server.incoming then
      var (session, reply) := StoreBatch(c, s.server.incoming[key], ds);
      Answered(WithServer(s, s.server.incoming[key := session], s.server.finishing), id, reply)
    else Begun(s, id, Unmatched(key, ds[|ds| - 1]))
  }

  function NextUnmatched(c: Config, s: State, id: nat): State
    requires Typed(c, s) && id in s.tasks && s.tasks[id].Unmatched?
  {
    assert TaskTyped(c, s.tasks[id]);
    Answered(s, id, if s.tasks[id].key in s.server.finishing then AckAll(s.tasks[id].d) else Error)
  }

  function NextFind(c: Config, s: State, id: nat, digest: seq<byte> -> Digest): State
    requires Typed(c, s) && id in s.tasks && s.tasks[id].Finding?
  {
    assert TaskTyped(c, s.tasks[id]);
    var key, d := s.tasks[id].key, s.tasks[id].d;
    if key !in s.server.incoming then Begun(s, id, Missing(key, d))
    else
      var session := s.server.incoming[key];
      if !AllSet(session.received) then Answered(s, id, NackOf(session))
      else if !FinMatches(session, d, digest) then Answered(s, id, Error)
      else Begun(WithServer(s, s.server.incoming - {key}, s.server.finishing + {key}), id, Finalizing(key, d, session))
  }

  function NextFinalize(c: Config, s: State, id: nat, live: bool, digest: seq<byte> -> Digest): State
    requires Typed(c, s) && id in s.tasks && s.tasks[id].Finalizing?
  {
    assert TaskTyped(c, s.tasks[id]);
    var t := s.tasks[id];
    var step := FinishStep(t.key, t.d, t.session, live);
    if t.key.block in s.server.blocks && FinishAllowed(s.server.blocks[t.key.block], step) then
      Begun(WithBlock(s, t.key.block, Some(t.key), Apply(s.server.blocks[t.key.block], step, digest)), id, Marking(t.key, t.d))
    else Begun(s, id, Failing(t.key))
  }

  function Next(c: Config, digest: seq<byte> -> Digest, s: State, e: Event): State
    requires Typed(c, s) && Enabled(s, e)
  {
    match e
    case Receiver(section) => NextSection(c, digest, s, section)
    case Elsewhere(happening) => NextHappening(digest, s, happening)
  }

  function NextSection(c: Config, digest: seq<byte> -> Digest, s: State, e: Section): State
    requires Typed(c, s) && SectionEnabled(s, e)
  {
    match e
    case RecvStart(id, key, d, live) => NextStart(c, s, id, key, d, live)
    case OpenTask(id, room) => NextOpen(c, s, id, room)
    case RecvData(id, key, ds) => NextData(c, s, id, key, ds)
    case StoreTask(id) => NextStore(c, s, id)
    case UnmatchedTask(id) => NextUnmatched(c, s, id)
    case RecvFin(id, key, d) => NextFin(s, id, key, d)
    case FindTask(id) => NextFind(c, s, id, digest)
    case MissingTask(id) => Answered(s, id, if s.tasks[id].key in s.server.finishing then Silent else Error)
    case FinalizeTask(id, live) => NextFinalize(c, s, id, live, digest)
    case MarkTask(id) => NextMark(c, s, id)
    case ClearTask(id) => Answered(WithServer(s, s.server.incoming, s.server.finishing - {s.tasks[id].key}), id, Complete)
    case FailTask(id) => NextFail(s, id)
  }

  function NextFin(s: State, id: nat, key: Key, d: Datagram): State
    requires d.Fin?
  {
    if (key, d.offset) in s.server.completed then Told(s, key, Complete) else Begun(s, id, Finding(key, d))
  }

  function NextMark(c: Config, s: State, id: nat): State
    requires Typed(c, s) && id in s.tasks && s.tasks[id].Marking?
  {
    assert TaskTyped(c, s.tasks[id]);
    var t := s.tasks[id];
    Begun(s.(server := s.server.(completed := s.server.completed + {(t.key, t.d.offset)})), id, Clearing(t.key, t.d))
  }

  function NextFail(s: State, id: nat): State
    requires id in s.tasks
  {
    var key := s.tasks[id].key;
    Answered(WithServer(s, s.server.incoming, s.server.finishing - {key}), id, Error).(dropped := s.dropped + {key})
  }

  function NextHappening(digest: seq<byte> -> Digest, s: State, e: Happening): State
    requires HappeningEnabled(s, e) && AllAlive(s)
  {
    match e
    case Drop(key) => WithServer(s, s.server.incoming - {key}, s.server.finishing).(dropped := s.dropped + {key})
    case Evict(key, offset) => s.(server := s.server.(completed := s.server.completed - {(key, offset)}))
    case Other(block, step) => WithBlock(s, block, None, Apply(s.server.blocks[block], step, digest))
    case Allocate(block, incarnation, job, lease, generation, size) => Allocated(s, block, incarnation, Fresh(job, lease, generation, size))
    case Free(block) => s.(server := s.server.(blocks := s.server.blocks - {block}))
    case Inject(key, d) => Sent(s, key, d)
    case NewSender(key, sd) => Sent(WithSender(s, key, sd), key, StartOf(sd, digest))
    case Handshaken(key) => WithSender(s, key, s.senders[key].(phase := Sending))
    case SendData(key, q) => Sent(s, key, DataOf(s.senders[key], q))
    case TakeAck(key, r) =>
      WithSender(s, key, s.senders[key].(acknowledged := Marked(s.senders[key].acknowledged, r)))
    case SendFin(key) => Sent(s, key, FinOf(s.senders[key], digest))
    case Succeed(key) => WithSender(s, key, s.senders[key].(phase := Succeeded))
    case GiveUp(key) => WithSender(s, key, s.senders[key].(phase := Failed))
  }
}
