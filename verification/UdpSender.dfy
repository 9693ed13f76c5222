/**
 The window phase of a UDP write: rounds of selective retransmission, shrinking windows and
 a bounded number of rounds per window. The network is a script of whatever feedback
 happens to arrive in each round.
 */
module UdpSender {
  import opened UdpServer
  import opened UdpProtocol

  datatype Limits = Limits(packet: nat, window: nat, retries: nat)

  predicate LimitsOk(c: Limits) {
    c.packet >= 1 && 2 <= c.window <= ACK_BITS && c.retries >= 1
  }

  /** A datagram from the receiver: an ACK or NACK with its window; an ERROR or one that does not decode; or another transfer's. */
  datatype Feedback =
    | Report(reply: Reply, window: nat)
    | Failure
    | Noise

  /** What the sender knows while it listens. */
  datatype Known = Known(acked: seq<bool>, window: nat, rejected: bool)

  /** One round of a window: what was known before, what was sent, how many batches were listened to, and what is known afterwards. */
  datatype Round = Round(base: nat, end: nat, attempt: nat, window: nat, before: seq<bool>, sent: seq<nat>, used: nat, after: Known)

  datatype Outcome = Delivered | Exhausted | Rejected

  /** The unacknowledged packets of `[base, end)`, in order. */
  function Unacked(acked: seq<bool>, base: nat, end: nat): seq<nat>
    requires base <= end <= |acked|
    decreases end
  {
    if base == end then []
    else if acked[end - 1] then Unacked(acked, base, end - 1)
    else Unacked(acked, base, end - 1) + [end - 1]
  }

  lemma {:induction false} UnackedMembers(acked: seq<bool>, base: nat, end: nat, q: nat)
    requires base <= end <= |acked|
    ensures q in Unacked(acked, base, end) <==> base <= q < end && !acked[q]
    decreases end
  {
    if base < end {
      UnackedMembers(acked, base, end - 1, q);
    }
  }

  lemma {:induction false} UnackedOrder(acked: seq<bool>, base: nat, end: nat)
    requires base <= end <= |acked|
    ensures forall i, j | 0 <= i < j < |Unacked(acked, base, end)| :: Unacked(acked, base, end)[i] < Unacked(acked, base, end)[j]
    ensures |Unacked(acked, base, end)| <= end - base
    decreases end
  {
    if base < end {
      UnackedOrder(acked, base, end - 1);
      var r := Unacked(acked, base, end - 1);
      forall i | 0 <= i < |r| ensures r[i] < end - 1 {
        assert r[i] in r;
        UnackedMembers(acked, base, end - 1, r[i]);
      }
    }
  }

  /** Each missing packet exactly once, in order, and nothing else. */
  lemma UnackedExact(acked: seq<bool>, base: nat, end: nat)
    requires base <= end <= |acked|
    ensures forall q: nat :: q in Unacked(acked, base, end) <==> base <= q < end && !acked[q]
    ensures forall i, j | 0 <= i < j < |Unacked(acked, base, end)| :: Unacked(acked, base, end)[i] < Unacked(acked, base, end)[j]
    ensures |Unacked(acked, base, end)| <= end - base
  {
    hide Unacked;
    UnackedOrder(acked, base, end);
    forall q: nat ensures q in Unacked(acked, base, end) <==> base <= q < end && !acked[q] {
      UnackedMembers(acked, base, end, q);
    }
  }

  /** An ACK may report any packet; a NACK only speaks of the current window. */
  function Heard(acked: seq<bool>, base: nat, end: nat, reply: Reply): (r: seq<bool>)
    ensures |r| == |acked|
  {
    seq(|acked|, q requires 0 <= q < |acked| =>
      acked[q] || (Reports(reply, q) && (reply.Ack? || base <= q < end)))
  }

  function Least(a: nat, b: nat): nat { if a <= b then a else b }
  function Most(a: nat, b: nat): nat { if a >= b then a else b }

  // ---- Listening ----

  /** A batch is read up to its first NACK or failure. */
  predicate Stops(f: Feedback) {
    f.Failure? || (f.Report? && f.reply.Nack?)
  }

  function Head(batch: seq<Feedback>): seq<Feedback> {
    if batch == [] then [] else [batch[0]] + if Stops(batch[0]) then [] else Head(batch[1..])
  }

  /** Everything read from the batches of one round. */
  function Events(heard: seq<seq<Feedback>>): seq<Feedback> {
    if heard == [] then [] else Events(heard[..|heard| - 1]) + Head(heard[|heard| - 1])
  }

  function HearOne(k: Known, base: nat, end: nat, f: Feedback): Known {
    match f
    case Failure => k.(rejected := true)
    case Noise => k
    case Report(reply, window) =>
      if reply.Ack? || reply.Nack? then k.(acked := Heard(k.acked, base, end, reply), window := Least(k.window, Most(window, 2))) else k
  }

  function HearAll(k: Known, base: nat, end: nat, fs: seq<Feedback>): Known {
    if fs == [] then k else HearOne(HearAll(k, base, end, fs[..|fs| - 1]), base, end, fs[|fs| - 1])
  }

  lemma {:induction false} HearAppend(k: Known, base: nat, end: nat, xs: seq<Feedback>, ys: seq<Feedback>)
    ensures HearAll(k, base, end, xs + ys) == HearAll(HearAll(k, base, end, xs), base, end, ys)
    decreases |ys|
  {
    hide HearOne;
    if ys == [] {
      assert xs + ys == xs;
    } else {
      assert (xs + ys)[..|xs + ys| - 1] == xs + ys[..|ys| - 1];
      HearAppend(k, base, end, xs, ys[..|ys| - 1]);
    }
  }

  /** `f` says that packet `q` has arrived. */
  predicate Marks(f: Feedback, base: nat, end: nat, q: nat) {
    f.Report? && Reports(f.reply, q) && (f.reply.Ack? || (f.reply.Nack? && base <= q < end))
  }

  predicate MarkedIn(fs: seq<Feedback>, base: nat, end: nat, q: nat) {
    exists i :: 0 <= i < |fs| && Marks(fs[i], base, end, q)
  }

  /**
   What listening comes to: a packet is acknowledged exactly when it was or something read says
   it has arrived, and the transfer is rejected exactly when a failure was read. The window only
   shrinks, and never below two.
   */
  lemma {:induction false} HearExact(k: Known, base: nat, end: nat, fs: seq<Feedback>)
    requires k.window >= 2
    ensures var k' := HearAll(k, base, end, fs);
            && |k'.acked| == |k.acked| && 2 <= k'.window <= k.window
            && (k'.rejected <==> k.rejected || Failure in fs)
            && forall q | 0 <= q < |k.acked| :: k'.acked[q] <==> k.acked[q] || MarkedIn(fs, base, end, q)
  {
    if fs != [] {
      var n := |fs| - 1;
      var xs, f := fs[..n], fs[n];
      HearExact(k, base, end, xs);
      assert fs == xs + [f];
      forall q: nat ensures MarkedIn(fs, base, end, q) <==> MarkedIn(xs, base, end, q) || Marks(f, base, end, q) {
        if MarkedIn(xs, base, end, q) {
          var i :| 0 <= i < |xs| && Marks(xs[i], base, end, q);
          assert fs[i] == xs[i];
        }
      }
    }
  }

  /** A window that a report proposes; less than two is never taken. */
  predicate Proposes(f: Feedback, window: nat) {
    f.Report? && (f.reply.Ack? || f.reply.Nack?) && window == if f.window >= 2 then f.window else 2
  }

  predicate ProposedIn(fs: seq<Feedback>, window: nat) {
    exists i :: 0 <= i < |fs| && Proposes(fs[i], window)
  }

  /** The window after listening is the least of the one before and all that were proposed. */
  lemma {:induction false} WindowExact(k: Known, base: nat, end: nat, fs: seq<Feedback>)
    ensures var w := HearAll(k, base, end, fs).window;
            && (w == k.window || ProposedIn(fs, w)) && w <= k.window && forall v | ProposedIn(fs, v) :: w <= v
  {
    if fs != [] {
      var n := |fs| - 1;
      WindowExact(k, base, end, fs[..n]);
      forall v: nat ensures ProposedIn(fs, v) <==> ProposedIn(fs[..n], v) || Proposes(fs[n], v) { ProposedLast(fs, v); }
    }
  }

  lemma ProposedLast(fs: seq<Feedback>, v: nat)
    requires fs != []
    ensures ProposedIn(fs, v) <==> ProposedIn(fs[..|fs| - 1], v) || Proposes(fs[|fs| - 1], v)
  {
    var front := fs[..|fs| - 1];
    if ProposedIn(front, v) { var i :| 0 <= i < |front| && Proposes(front[i], v); assert Proposes(fs[i], v); }
    if i :| 0 <= i < |fs| && Proposes(fs[i], v) { assert i < |front| ==> Proposes(front[i], v); }
  }

  lemma HearNext(k: Known, base: nat, end: nat, batch: seq<Feedback>, i: nat)
    requires i < |batch|
    ensures HearAll(k, base, end, batch[..i + 1]) == HearOne(HearAll(k, base, end, batch[..i]), base, end, batch[i])
  {
    hide HearOne;
    assert batch[..i + 1][..i] == batch[..i];
  }

  lemma HeadNext(batch: seq<Feedback>, i: nat)
    requires i < |batch| && Head(batch) == batch[..i] + Head(batch[i..])
    ensures Head(batch) == batch[..i + 1] + if Stops(batch[i]) then [] else Head(batch[i + 1..])
  {
    hide Stops;
    var rest := batch[i..];
    assert rest[0] == batch[i] && rest[1..] == batch[i + 1..];
    HeadUnfold(rest);
    Regroup(batch, i, if Stops(batch[i]) then [] else Head(batch[i + 1..]));
  }

  lemma HeadUnfold(batch: seq<Feedback>)
    requires batch != []
    ensures Head(batch) == [batch[0]] + if Stops(batch[0]) then [] else Head(batch[1..])
  {
  }

  lemma Regroup(batch: seq<Feedback>, i: nat, tail: seq<Feedback>)
    requires i < |batch|
    ensures batch[..i] + ([batch[i]] + tail) == batch[..i + 1] + tail
  {
  }

  lemma WindowKept(k: Known, base: nat, end: nat, fs: seq<Feedback>)
    requires k.window >= 2
    ensures HearAll(k, base, end, fs).window >= 2 && |HearAll(k, base, end, fs).acked| == |k.acked|
  {
    HearExact(k, base, end, fs);
  }

  /** Processes one batch; a NACK ends it early, a failure the transfer. */
  method Listen(start: Known, base: nat, end: nat, batch: seq<Feedback>) returns (k: Known)
    requires start.window >= 2 && !start.rejected
    ensures k == HearAll(start, base, end, Head(batch))
  {
    k := start;
    var i := 0;
    while i < |batch|
      invariant i <= |batch| && k == HearAll(start, base, end, batch[..i]) && Head(batch) == batch[..i] + Head(batch[i..])
    {
      hide HearOne, HearAll, Stops, Head;
      var f := batch[i];
      HearNext(start, base, end, batch, i);
      HeadNext(batch, i);
      k := HearOne(k, base, end, f);
      i := i + 1;
      if Stops(f) {
        assert batch[..i] + [] == batch[..i];
        return;
      }
    }
    assert batch[i..] == [] && batch[..i] == batch && batch[..i] + [] == batch;
  }

  predicate WindowAcked(acked: seq<bool>, base: nat, end: nat)
    requires base <= end <= |acked|
  {
    forall q | base <= q < end :: acked[q]
  }

  /** Nothing more is listened to in this round. */
  predicate Settled(k: Known, base: nat, end: nat) {
    k.rejected || (base <= end <= |k.acked| && WindowAcked(k.acked, base, end))
  }

  /** Listens until the window is acknowledged, the feedback ends, or a failure is read. */
  method Await(start: Known, base: nat, end: nat, heard: seq<seq<Feedback>>) returns (k: Known, used: nat)
    requires base < end <= |start.acked| && start.window >= 2 && !start.rejected && !Settled(start, base, end)
    ensures used <= |heard| && k == HearAll(start, base, end, Events(heard[..used]))
    ensures used == |heard| || Settled(k, base, end)
    ensures forall m: nat | m < used :: !Settled(HearAll(start, base, end, Events(heard[..m])), base, end)
  {
    k, used := start, 0;
    hide HearAll, Settled, Head;
    assert heard[..0] == [] && Events([]) == [];
    HearNothing(start, base, end);
    while used < |heard| && !Settled(k, base, end)
      invariant used <= |heard| && k == HearAll(start, base, end, Events(heard[..used])) && k.window >= 2
      invariant forall m: nat | m < used :: !Settled(HearAll(start, base, end, Events(heard[..m])), base, end)
    {
      hide HearAll, Settled, Head, Events;
      var before := k;
      NotRejected(before, base, end);
      k := Listen(before, base, end, heard[used]);
      HearBatch(start, base, end, heard, used);
      WindowKept(before, base, end, Head(heard[used]));
      used := used + 1;
    }
  }

  lemma HearNothing(k: Known, base: nat, end: nat)
    ensures HearAll(k, base, end, []) == k
  {
  }

  lemma HearBatch(k: Known, base: nat, end: nat, heard: seq<seq<Feedback>>, i: nat)
    requires i < |heard|
    ensures HearAll(k, base, end, Events(heard[..i + 1])) == HearAll(HearAll(k, base, end, Events(heard[..i])), base, end, Head(heard[i]))
  {
    hide HearAll, Head;
    assert heard[..i + 1][..i] == heard[..i];
    HearAppend(k, base, end, Events(heard[..i]), Head(heard[i]));
  }

  lemma NotRejected(k: Known, base: nat, end: nat)
    requires !Settled(k, base, end)
    ensures !k.rejected
  {
  }

  // ---- The rounds of a phase ----

  /** Where packet `q` starts, or the end of the payload. */
  function StartAt(sd: Sender, q: nat): nat {
    Least(q * sd.packet, |sd.payload|)
  }

  /** Total payload bytes of the unacknowledged packets of `[base, end)`. */
  function MissingBytes(sd: Sender, acked: seq<bool>, base: nat, end: nat): int
    requires base <= end <= |acked|
    decreases end
  {
    if base == end then 0
    else MissingBytes(sd, acked, base, end - 1) + if acked[end - 1] then 0 else StartAt(sd, end) - StartAt(sd, end - 1)
  }

  function Listened(r: Round, heard: seq<seq<Feedback>>, m: nat): Known
    requires m <= |heard|
  {
    HearAll(Known(r.before, r.window, false), r.base, r.end, Events(heard[..m]))
  }

  /**
   One round is what it should be: it starts with something missing from its window, sends
   exactly that, and listens to what arrives until the window is acknowledged or a failure is read.
   */
  ghost predicate RoundOk(count: nat, c: Limits, heard: seq<seq<Feedback>>, r: Round) {
    && r.base < r.end <= count == |r.before| && r.attempt <= c.retries && r.window >= 2
    && !WindowAcked(r.before, r.base, r.end)
    && r.sent == Unacked(r.before, r.base, r.end)
    && r.used <= |heard| && r.after == Listened(r, heard, r.used)
    && (r.used == |heard| || Settled(r.after, r.base, r.end))
    && forall m: nat | m < r.used :: !Settled(Listened(r, heard, m), r.base, r.end)
  }

  /** The window after a round: from the second round of a window on it is halved. */
  function NextWindow(r: Round): nat {
    if r.attempt > 0 then Most(r.after.window / 2, 2) else r.after.window
  }

  predicate Goes(c: Limits, r: Round) {
    !r.after.rejected && r.attempt < c.retries
  }

  /** Windows that are already acknowledged are passed over. */
  function Skip(acked: seq<bool>, base: nat, window: nat): (r: nat)
    requires base <= |acked| && window >= 1
    ensures base <= r <= |acked|
    decreases |acked| - base
  {
    if base == |acked| then base
    else
      var end := Least(base + window, |acked|);
      if WindowAcked(acked, base, end) then Skip(acked, end, window) else base
  }

  /** A new window is opened at the first one from `from` on that is not acknowledged. */
  predicate Opens(count: nat, acked: seq<bool>, from: nat, window: nat, s: Round)
    requires |acked| == count && from <= count && window >= 2
  {
    && s.before == acked && s.window == window && s.attempt == 0
    && s.base == Skip(acked, from, window) && s.end == Least(s.base + window, count)
  }

  predicate Follows(count: nat, r: Round, s: Round)
    requires |r.after.acked| == count && r.base <= r.end <= count && r.after.window >= 2
  {
    if WindowAcked(r.after.acked, r.base, r.end) then Opens(count, r.after.acked, r.end, NextWindow(r), s)
    else s.before == r.after.acked && s.window == NextWindow(r) && s.attempt == r.attempt + 1 && s.base == r.base && s.end == r.end
  }

  function NoneAcked(count: nat): seq<bool> {
    seq(count, _ => false)
  }

  /** The rounds from the start of the phase on; round `i` hears `script(i)`. */
  ghost predicate IsPhase(count: nat, c: Limits, negotiated: nat, script: nat -> seq<seq<Feedback>>, trace: seq<Round>)
    requires negotiated >= 2
  {
    && (forall i | 0 <= i < |trace| :: RoundOk(count, c, script(i), trace[i]))
    && (trace != [] ==> Opens(count, NoneAcked(count), 0, negotiated, trace[0]))
    && (forall i | 0 <= i < |trace| - 1 :: Linked(count, c, trace[i], trace[i + 1]))
  }

  predicate Linked(count: nat, c: Limits, r: Round, s: Round) {
    Shaped(count, r) && Goes(c, r) && Follows(count, r, s)
  }

  predicate Shaped(count: nat, r: Round) {
    |r.after.acked| == count && r.base < r.end <= count && r.after.window >= 2
  }

  /** How a phase ends. A window that is acknowledged only in the round after the last allowed retry comes too late. */
  ghost predicate Ends(count: nat, c: Limits, negotiated: nat, trace: seq<Round>, acked: seq<bool>, outcome: Outcome)
    requires negotiated >= 2
  {
    if trace == [] then acked == NoneAcked(count) && outcome == Delivered && Skip(acked, 0, negotiated) == count
    else
      var r := trace[|trace| - 1];
      && acked == r.after.acked && Shaped(count, r)
      && if r.after.rejected then outcome == Rejected
         else if r.attempt >= c.retries then outcome == Exhausted
         else outcome == Delivered && WindowAcked(acked, r.base, r.end) && Skip(acked, r.end, NextWindow(r)) == count
  }

  /** Sends every unacknowledged packet of the window, in order. */
  method Transmit(sd: Sender, acked: seq<bool>, base: nat, end: nat) returns (sent: seq<nat>, payload: int)
    requires base < end <= |acked|
    ensures sent == Unacked(acked, base, end)
    ensures payload == MissingBytes(sd, acked, base, end)
  {
    hide StartAt;
    sent, payload := [], 0;
    for q := base to end
      invariant sent == Unacked(acked, base, q)
      invariant payload == MissingBytes(sd, acked, base, q)
    {
      if !acked[q] {
        sent, payload := sent + [q], payload + (StartAt(sd, q + 1) - StartAt(sd, q));
      }
    }
  }

  lemma RoundShaped(count: nat, c: Limits, heard: seq<seq<Feedback>>, r: Round)
    requires RoundOk(count, c, heard, r)
    ensures Shaped(count, r) && r.after.window <= r.window
    ensures forall q | 0 <= q < count && r.before[q] :: r.after.acked[q]
    ensures 0 < |r.sent| <= r.end - r.base
  {
    HearExact(Known(r.before, r.window, false), r.base, r.end, Events(heard[..r.used]));
    UnackedExact(r.before, r.base, r.end);
    var missing :| r.base <= missing < r.end && !r.before[missing];
    assert missing in r.sent;
  }

  lemma LinkAt(count: nat, c: Limits, negotiated: nat, script: nat -> seq<seq<Feedback>>, trace: seq<Round>, i: nat)
    requires negotiated >= 2 && IsPhase(count, c, negotiated, script, trace) && i + 1 < |trace|
    ensures Linked(count, c, trace[i], trace[i + 1])
  {
    hide RoundOk, Linked, Opens;
  }

  // ---- What every phase keeps ----

  /** The first multiple of the window, counted from `from`, whose window of packets is not all acknowledged; or the end. */
  lemma {:induction false} SkipExact(acked: seq<bool>, from: nat, window: nat)
    requires from <= |acked| && window >= 1
    ensures var base := Skip(acked, from, window);
            && from <= base <= |acked| && (base < |acked| ==> (base - from) % window == 0)
            && (forall q | from <= q < base :: acked[q])
            && (base < |acked| ==> exists q :: base <= q < |acked| && q < base + window && !acked[q])
    decreases |acked| - from
  {
    if from < |acked| {
      var end := Least(from + window, |acked|);
      if WindowAcked(acked, from, end) {
        SkipExact(acked, end, window);
        if Skip(acked, end, window) < |acked| { Multiple(Skip(acked, end, window) - end, window); }
      } else {
        assert 0 % window == 0;
        var q :| from <= q < end && !acked[q];
      }
    }
  }

  lemma Multiple(x: nat, window: nat)
    requires window >= 1 && x % window == 0
    ensures (x + window) % window == 0
  {
    var q := x / window;
    assert x == q * window;
    assert x + window == (q + 1) * window;
    MultipleOf(q + 1, window);
  }

  lemma MultipleOf(q: nat, window: nat)
    requires window >= 1
    ensures (q * window) % window == 0
  {
    var r := (q * window) % window;
    var p := (q * window) / window;
    assert p * window + r == q * window;
    if p < q { Scale(p + 1, q, window); Scale(p, p, window); }
    if q < p { Scale(q + 1, p, window); Scale(q, q, window); }
  }

  /**
   How wide the windows are. The phase starts with the negotiated window. A round listens with the
   window it has, which then is the least of it and all that was proposed; from the second round of a
   window on it is halved besides, though never below two. A window is opened at most as wide as that.
   */
  lemma WindowsExact(count: nat, c: Limits, negotiated: nat, script: nat -> seq<seq<Feedback>>, trace: seq<Round>, i: nat)
    requires negotiated >= 2 && IsPhase(count, c, negotiated, script, trace) && i < |trace|
    ensures i == 0 ==> trace[i].window == negotiated && trace[i].attempt == 0
    ensures trace[i].attempt == 0 ==> trace[i].end == if trace[i].base + trace[i].window <= count then trace[i].base + trace[i].window else count
    ensures i + 1 < |trace| ==>
              var w := trace[i].after.window;
              && trace[i + 1].window == (if trace[i].attempt == 0 then w else if w / 2 >= 2 then w / 2 else 2)
              && trace[i].used <= |script(i)| && w <= trace[i].window
              && (w == trace[i].window || ProposedIn(Events(script(i)[..trace[i].used]), w))
              && forall v | ProposedIn(Events(script(i)[..trace[i].used]), v) :: w <= v
  {
    hide Skip, ProposedIn, Events;
    var r := trace[i];
    assert RoundOk(count, c, script(i), r);
    if i > 0 { LinkAt(count, c, negotiated, script, trace, i - 1); }
    if i + 1 < |trace| {
      LinkAt(count, c, negotiated, script, trace, i);
      WindowExact(Known(r.before, r.window, false), r.base, r.end, Events(script(i)[..r.used]));
    }
  }

  lemma {:induction false} DatagramsAre(count: nat, c: Limits, negotiated: nat, script: nat -> seq<seq<Feedback>>, trace: seq<Round>, n: nat)
    requires LimitsOk(c) && negotiated >= 2 && IsPhase(count, c, negotiated, script, trace) && 0 < n <= |trace|
    ensures Datagrams(trace[..n]) <= Allowed(c, trace[n - 1])
  {
    hide RoundOk, Opens, Unacked, Skip, Allowed, Datagrams;
    var r := trace[n - 1];
    RoundShaped(count, c, script(n - 1), r);
    DatagramsStep(trace, n - 1);
    OneRound(c, r);
    if n > 1 {
      var p := trace[n - 2];
      DatagramsAre(count, c, negotiated, script, trace, n - 1);
      LinkAt(count, c, negotiated, script, trace, n - 2);
      if WindowAcked(p.after.acked, p.base, p.end) {
        OpensLater(count, p.after.acked, p.end, NextWindow(p), r);
        NewWindow(c, p, r);
      } else {
        SameWindow(c, p, r);
      }
    }
  }

  /** What may have been sent by the end of round `r`: every packet before its window at most `retries + 1` times. */
  function Allowed(c: Limits, r: Round): int {
    r.base * (c.retries + 1) + (r.attempt + 1) * (r.end - r.base)
  }

  lemma OneRound(c: Limits, r: Round)
    requires r.base < r.end
    ensures r.end - r.base <= Allowed(c, r)
  {
    Scale(1, r.attempt + 1, r.end - r.base);
    Scale(0, r.base, c.retries + 1);
  }

  lemma NewWindow(c: Limits, p: Round, r: Round)
    requires p.base < p.end <= r.base < r.end && p.attempt < c.retries && r.attempt == 0
    ensures Allowed(c, p) + (r.end - r.base) <= Allowed(c, r)
  {
    WindowBudget(p.base, p.end, p.attempt + 1, c.retries);
    Scale(p.end, r.base, c.retries + 1);
  }

  lemma SameWindow(c: Limits, p: Round, r: Round)
    requires p.base == r.base && p.end == r.end && r.base < r.end && r.attempt == p.attempt + 1
    ensures Allowed(c, p) + (r.end - r.base) <= Allowed(c, r)
  {
    Scale(r.attempt, r.attempt, r.end - r.base);
  }

  lemma DatagramsStep(trace: seq<Round>, i: nat)
    requires i < |trace|
    ensures Datagrams(trace[..i + 1]) == Datagrams(trace[..i]) + |trace[i].sent| && Datagrams(trace[..0]) == 0
  {
    assert trace[..i + 1][..i] == trace[..i];
  }

  lemma OpensLater(count: nat, acked: seq<bool>, from: nat, window: nat, s: Round)
    requires |acked| == count && from <= count && window >= 2 && Opens(count, acked, from, window, s)
    ensures from <= s.base && s.attempt == 0
  {
  }

  lemma WindowBudget(base: nat, end: nat, rounds: nat, retries: nat)
    requires base <= end && rounds <= retries + 1
    ensures base * (retries + 1) + rounds * (end - base) <= end * (retries + 1)
  {
    Scale(rounds, retries + 1, end - base);
    assert base * (retries + 1) + (retries + 1) * (end - base) == end * (retries + 1);
  }

  function Datagrams(trace: seq<Round>): nat {
    if trace == [] then 0 else Datagrams(trace[..|trace| - 1]) + |trace[|trace| - 1].sent|
  }

  /** A phase sends at most `count * (retries + 1)` datagrams. */
  lemma DatagramBound(count: nat, c: Limits, negotiated: nat, script: nat -> seq<seq<Feedback>>, trace: seq<Round>)
    requires LimitsOk(c) && negotiated >= 2 && IsPhase(count, c, negotiated, script, trace)
    ensures Datagrams(trace) <= count * (c.retries + 1)
  {
    if trace != [] {
      hide *;
      var n := |trace|;
      DatagramsAre(count, c, negotiated, script, trace, n);
      assert trace[..n] == trace;
      RoundReads(count, c, negotiated, script, trace, n - 1);
      AttemptBound(count, c, script(n - 1), trace[n - 1]);
      AllowedBound(count, c, trace[n - 1]);
    }
  }

  lemma AllowedBound(count: nat, c: Limits, r: Round)
    requires r.attempt <= c.retries && r.base < r.end <= count
    ensures Allowed(c, r) <= count * (c.retries + 1)
  {
    WindowBudget(r.base, r.end, r.attempt + 1, c.retries);
    Scale(r.end, count, c.retries + 1);
  }

  lemma AttemptBound(count: nat, c: Limits, heard: seq<seq<Feedback>>, r: Round)
    requires RoundOk(count, c, heard, r)
    ensures r.attempt <= c.retries && r.base < r.end <= count
  {
  }

  /** Every packet is acknowledged when the phase delivers, which it does exactly when nothing fails and no window needs a round after the last allowed retry. */
  lemma DeliveredExactly(count: nat, c: Limits, negotiated: nat, script: nat -> seq<seq<Feedback>>, trace: seq<Round>, acked: seq<bool>,
                         outcome: Outcome)
    requires LimitsOk(c) && negotiated >= 2 && IsPhase(count, c, negotiated, script, trace) && Ends(count, c, negotiated, trace, acked, outcome)
    ensures |acked| == count
    ensures outcome.Delivered? <==> forall i | 0 <= i < |trace| :: Goes(c, trace[i])
    ensures outcome.Delivered? ==> AllSet(acked)
  {
    hide RoundOk, Opens, Follows;
    if outcome.Delivered? {
      forall i | 0 <= i < |trace| ensures Goes(c, trace[i]) {
        if i + 1 < |trace| { LinkAt(count, c, negotiated, script, trace, i); }
      }
      if trace == [] {
        SkipsAcked(acked, 0, negotiated);
      } else {
        AllBefore(count, c, negotiated, script, trace, |trace|);
        var r := trace[|trace| - 1];
        SkipsAcked(acked, r.end, NextWindow(r));
      }
    }
  }

  lemma {:induction false} SkipsAcked(acked: seq<bool>, base: nat, window: nat)
    requires base <= |acked| && window >= 1
    ensures forall q | base <= q < Skip(acked, base, window) :: acked[q]
    decreases |acked| - base
  {
    if base < |acked| {
      var end := Least(base + window, |acked|);
      if WindowAcked(acked, base, end) { SkipsAcked(acked, end, window); }
    }
  }

  predicate DoneTo(acked: seq<bool>, n: nat) {
    n <= |acked| && forall q | 0 <= q < n :: acked[q]
  }

  /** Everything before the current window is acknowledged. */
  lemma {:induction false} AllBefore(count: nat, c: Limits, negotiated: nat, script: nat -> seq<seq<Feedback>>, trace: seq<Round>, n: nat)
    requires negotiated >= 2 && IsPhase(count, c, negotiated, script, trace) && 0 < n <= |trace|
    ensures DoneTo(trace[n - 1].before, trace[n - 1].base) && DoneTo(trace[n - 1].after.acked, trace[n - 1].base)
  {
    hide RoundOk, Unacked;
    var r := trace[n - 1];
    RoundShaped(count, c, script(n - 1), r);
    BeforeSize(count, c, script(n - 1), r);
    if n == 1 {
      SkipsAcked(NoneAcked(count), 0, negotiated);
    } else {
      var p := trace[n - 2];
      AllBefore(count, c, negotiated, script, trace, n - 1);
      LinkAt(count, c, negotiated, script, trace, n - 2);
      if WindowAcked(p.after.acked, p.base, p.end) {
        SkipsAcked(p.after.acked, p.end, NextWindow(p));
      }
    }
  }

  lemma BeforeSize(count: nat, c: Limits, heard: seq<seq<Feedback>>, r: Round)
    requires RoundOk(count, c, heard, r)
    ensures |r.before| == count && Sized(r) && !WindowAcked(r.before, r.base, r.end)
  {
  }

  // ---- Delivery in terms of what arrives ----

  /** Something read in the round says that packet `q` has arrived. */
  predicate TellsOf(heard: seq<seq<Feedback>>, r: Round, q: nat) {
    r.used <= |heard| && MarkedIn(Events(heard[..r.used]), r.base, r.end, q)
  }

  /** Something read in the first `n` rounds says so. */
  predicate Told(script: nat -> seq<seq<Feedback>>, trace: seq<Round>, n: nat, q: nat) {
    exists j: nat :: j < n <= |trace| && TellsOf(script(j), trace[j], q)
  }

  /** The first `n` rounds say so of the whole window of the last of them. */
  predicate WindowTold(script: nat -> seq<seq<Feedback>>, trace: seq<Round>, n: nat)
    requires 0 < n <= |trace|
  {
    forall q: nat | trace[n - 1].base <= q < trace[n - 1].end :: Told(script, trace, n, q)
  }

  predicate NothingFails(heard: seq<seq<Feedback>>, r: Round) {
    r.used <= |heard| && Failure !in Events(heard[..r.used])
  }

  lemma RoundHears(count: nat, c: Limits, heard: seq<seq<Feedback>>, r: Round)
    requires RoundOk(count, c, heard, r)
    ensures Shaped(count, r) && |r.before| == count && (r.after.rejected <==> !NothingFails(heard, r))
    ensures forall q: nat | q < count :: r.after.acked[q] <==> r.before[q] || TellsOf(heard, r, q)
    ensures r.used == |heard| || r.after.rejected || WindowAcked(r.after.acked, r.base, r.end)
  {
    hide MarkedIn, Events;
    HearExact(Known(r.before, r.window, false), r.base, r.end, Events(heard[..r.used]));
  }

  /** A packet counts as acknowledged exactly when something read so far says that it has arrived. */
  lemma {:induction false} AckedIsTold(count: nat, c: Limits, negotiated: nat, script: nat -> seq<seq<Feedback>>, trace: seq<Round>, i: nat)
    requires negotiated >= 2 && IsPhase(count, c, negotiated, script, trace) && i < |trace|
    ensures |trace[i].after.acked| == count
    ensures forall q: nat | q < count :: trace[i].after.acked[q] <==> Told(script, trace, i + 1, q)
  {
    hide RoundOk, TellsOf, Skip, NextWindow;
    RoundHears(count, c, script(i), trace[i]);
    if i > 0 {
      AckedIsTold(count, c, negotiated, script, trace, i - 1);
      LinkAt(count, c, negotiated, script, trace, i - 1);
    }
    forall q: nat | q < count ensures trace[i].after.acked[q] <==> Told(script, trace, i + 1, q) {
      if i > 0 && Told(script, trace, i, q) {
        var j: nat :| j < i && TellsOf(script(j), trace[j], q);
      }
    }
  }

  /**
   A phase delivers exactly when nothing fails and, for every window that comes to its last round
   but one, what was read up to then says of all its packets that they have arrived.
   */
  lemma DeliveredByReports(count: nat, c: Limits, negotiated: nat, script: nat -> seq<seq<Feedback>>, trace: seq<Round>, acked: seq<bool>,
                           outcome: Outcome)
    requires LimitsOk(c) && negotiated >= 2 && IsPhase(count, c, negotiated, script, trace) && Ends(count, c, negotiated, trace, acked, outcome)
    ensures outcome.Delivered? <==> forall i | 0 <= i < |trace| ::
                                      NothingFails(script(i), trace[i]) && (trace[i].attempt + 1 == c.retries ==> WindowTold(script, trace, i + 1))
    ensures outcome.Delivered? ==> forall q: nat | q < count :: Told(script, trace, |trace|, q)
  {
    hide RoundOk, TellsOf, Told, NothingFails, Skip, NextWindow, Ends;
    DeliveredExactly(count, c, negotiated, script, trace, acked, outcome);
    forall i | 0 <= i < |trace|
      ensures Goes(c, trace[i]) ==> NothingFails(script(i), trace[i])
      ensures NothingFails(script(i), trace[i]) ==> !trace[i].after.rejected
    {
      RoundHears(count, c, script(i), trace[i]);
    }
    if outcome.Delivered? {
      forall i | 0 <= i < |trace| && trace[i].attempt + 1 == c.retries ensures WindowTold(script, trace, i + 1) {
        DeliveredWindow(count, c, negotiated, script, trace, acked, i);
      }
      DeliveredAll(count, c, negotiated, script, trace, acked);
    } else if forall i | 0 <= i < |trace| :: NothingFails(script(i), trace[i]) && (trace[i].attempt + 1 == c.retries ==> WindowTold(script, trace, i + 1)) {
      var i :| 0 <= i < |trace| && !Goes(c, trace[i]);
      LastRound(count, c, negotiated, script, trace, i);
      assert false;
    }
  }

  lemma DeliveredWindow(count: nat, c: Limits, negotiated: nat, script: nat -> seq<seq<Feedback>>, trace: seq<Round>, acked: seq<bool>, i: nat)
    requires negotiated >= 2 && IsPhase(count, c, negotiated, script, trace) && Ends(count, c, negotiated, trace, acked, Delivered)
    requires i < |trace| && trace[i].attempt + 1 == c.retries && forall j | 0 <= j < |trace| :: Goes(c, trace[j])
    ensures WindowTold(script, trace, i + 1)
  {
    hide RoundOk, Told, Skip, NextWindow;
    RoundHears(count, c, script(i), trace[i]);
    AckedIsTold(count, c, negotiated, script, trace, i);
    if i + 1 < |trace| {
      LinkAt(count, c, negotiated, script, trace, i);
      assert Goes(c, trace[i + 1]);
    }
    var n := i + 1;
    forall q: nat | trace[i].base <= q < trace[i].end ensures Told(script, trace, n, q) {
      assert trace[i].after.acked[q];
    }
  }

  lemma DeliveredAll(count: nat, c: Limits, negotiated: nat, script: nat -> seq<seq<Feedback>>, trace: seq<Round>, acked: seq<bool>)
    requires LimitsOk(c) && negotiated >= 2 && IsPhase(count, c, negotiated, script, trace) && Ends(count, c, negotiated, trace, acked, Delivered)
    ensures forall q: nat | q < count :: Told(script, trace, |trace|, q)
  {
    hide RoundOk, Told, Skip, NextWindow, IsPhase;
    DeliveredExactly(count, c, negotiated, script, trace, acked, Delivered);
    if trace != [] { RoundReads(count, c, negotiated, script, trace, |trace| - 1); }
    if trace != [] { AckedIsTold(count, c, negotiated, script, trace, |trace| - 1); }
    forall q: nat | q < count ensures Told(script, trace, |trace|, q) {
      assert acked[q];
      assert trace != [];
    }
  }

  /** The round after the last allowed one comes only if the one before it left something missing. */
  lemma LastRound(count: nat, c: Limits, negotiated: nat, script: nat -> seq<seq<Feedback>>, trace: seq<Round>, i: nat)
    requires LimitsOk(c) && negotiated >= 2 && IsPhase(count, c, negotiated, script, trace) && i < |trace|
    requires trace[i].attempt >= c.retries
    ensures i > 0 && trace[i - 1].attempt + 1 == c.retries && !WindowTold(script, trace, i)
  {
    hide RoundOk, Told, Skip, NextWindow;
    AttemptBound(count, c, script(i), trace[i]);
    assert i > 0;
    LinkAt(count, c, negotiated, script, trace, i - 1);
    AckedIsTold(count, c, negotiated, script, trace, i - 1);
  }

  /** An ACK that is read says that packet `q` has arrived. */
  predicate Confirms(heard: seq<seq<Feedback>>, q: nat) {
    exists f :: f in Events(heard) && f.Report? && f.reply.Ack? && Reports(f.reply, q)
  }

  predicate ConfirmedWithin(script: nat -> seq<seq<Feedback>>, from: nat, rounds: nat, q: nat) {
    exists j: nat :: from <= j < from + rounds && Confirms(script(j), q)
  }

  /**
   On a network without failures that lets the acknowledgement of every packet through at least
   once in any `retries` rounds in a row, every phase delivers.
   */
  lemma FairNetworkDelivers(count: nat, c: Limits, negotiated: nat, script: nat -> seq<seq<Feedback>>, trace: seq<Round>, acked: seq<bool>,
                            outcome: Outcome)
    requires LimitsOk(c) && negotiated >= 2 && IsPhase(count, c, negotiated, script, trace) && Ends(count, c, negotiated, trace, acked, outcome)
    requires forall n: nat :: Failure !in Events(script(n))
    requires forall from: nat, q: nat | q < count :: ConfirmedWithin(script, from, c.retries, q)
    ensures outcome == Delivered && AllSet(acked)
  {
    hide RoundOk, IsPhase, Ends, Events, WindowTold, AllSet;
    DeliveredByReports(count, c, negotiated, script, trace, acked, outcome);
    forall i | 0 <= i < |trace|
      ensures NothingFails(script(i), trace[i]) && (trace[i].attempt + 1 == c.retries ==> WindowTold(script, trace, i + 1))
    {
      RoundReads(count, c, negotiated, script, trace, i);
      EventsPrefix(script(i), trace[i].used);
      if trace[i].attempt + 1 == c.retries { FairWindow(count, c, negotiated, script, trace, i); }
    }
    DeliveredExactly(count, c, negotiated, script, trace, acked, outcome);
  }

  lemma RoundReads(count: nat, c: Limits, negotiated: nat, script: nat -> seq<seq<Feedback>>, trace: seq<Round>, i: nat)
    requires negotiated >= 2 && IsPhase(count, c, negotiated, script, trace) && i < |trace|
    ensures RoundOk(count, c, script(i), trace[i]) && trace[i].used <= |script(i)| && trace[i].base < trace[i].end <= count
  {
  }

  lemma {:induction false} EventsPrefix(heard: seq<seq<Feedback>>, m: nat)
    requires m <= |heard|
    ensures forall f | f in Events(heard[..m]) :: f in Events(heard)
    decreases |heard|
  {
    hide Head;
    if m == |heard| {
      assert heard[..m] == heard;
    } else {
      assert heard[..|heard| - 1][..m] == heard[..m];
      EventsPrefix(heard[..|heard| - 1], m);
    }
  }

  lemma FairWindow(count: nat, c: Limits, negotiated: nat, script: nat -> seq<seq<Feedback>>, trace: seq<Round>, i: nat)
    requires LimitsOk(c) && negotiated >= 2 && IsPhase(count, c, negotiated, script, trace) && i < |trace| && trace[i].attempt + 1 == c.retries
    requires forall n: nat :: Failure !in Events(script(n))
    requires forall from: nat, q: nat | q < count :: ConfirmedWithin(script, from, c.retries, q)
    ensures WindowTold(script, trace, i + 1)
  {
    hide RoundOk, IsPhase, Events, Told, Confirms;
    RoundReads(count, c, negotiated, script, trace, i);
    Back(count, c, negotiated, script, trace, i, trace[i].attempt);
    AckedIsTold(count, c, negotiated, script, trace, i);
    var n := i + 1;
    forall q: nat | trace[i].base <= q < trace[i].end ensures Told(script, trace, n, q) {
      if !Told(script, trace, n, q) {
        var from := i - trace[i].attempt;
        assert ConfirmedWithin(script, from, c.retries, q);
        var j: nat :| from <= j < from + c.retries && Confirms(script(j), q);
        Back(count, c, negotiated, script, trace, i, i - j);
        RoundReads(count, c, negotiated, script, trace, j);
        EventsPrefix(script(j), trace[j].used);
        RoundHears(count, c, script(j), trace[j]);
        assert j == i ==> !trace[j].after.acked[q];
        ReadsAll(count, c, script(j), trace[j], q);
        ToldLater(script, trace, j, i, q);
        assert false;
      }
    }
  }

  lemma ToldLater(script: nat -> seq<seq<Feedback>>, trace: seq<Round>, j: nat, i: nat, q: nat)
    requires j <= i < |trace| && TellsOf(script(j), trace[j], q)
    ensures Told(script, trace, i + 1, q)
  {
  }

  /** A round that leaves its window unacknowledged has read all there was. */
  lemma ReadsAll(count: nat, c: Limits, heard: seq<seq<Feedback>>, r: Round, q: nat)
    requires RoundOk(count, c, heard, r) && NothingFails(heard, r) && r.base <= q < r.end && Shaped(count, r) && !WindowAcked(r.after.acked, r.base, r.end)
    requires Confirms(heard, q)
    ensures TellsOf(heard, r, q)
  {
    hide Events;
    RoundHears(count, c, heard, r);
    assert heard[..r.used] == heard;
    var f :| f in Events(heard) && f.Report? && f.reply.Ack? && Reports(f.reply, q);
    var n :| 0 <= n < |Events(heard)| && Events(heard)[n] == f;
    assert Marks(Events(heard)[n], r.base, r.end, q);
  }

  /** The rounds before a later round of a window are rounds of that window, and none of them completed it. */
  lemma {:induction false} Back(count: nat, c: Limits, negotiated: nat, script: nat -> seq<seq<Feedback>>, trace: seq<Round>, i: nat, k: nat)
    requires negotiated >= 2 && IsPhase(count, c, negotiated, script, trace) && i < |trace| && k <= trace[i].attempt
    ensures k <= i && trace[i - k].base == trace[i].base && trace[i - k].end == trace[i].end && trace[i - k].attempt == trace[i].attempt - k
    ensures k > 0 ==> Shaped(count, trace[i - k]) && !WindowAcked(trace[i - k].after.acked, trace[i].base, trace[i].end)
  {
    hide RoundOk, Skip, NextWindow;
    if k > 0 {
      Back(count, c, negotiated, script, trace, i, k - 1);
      var p := i - k + 1;
      assert p > 0;
      LinkAt(count, c, negotiated, script, trace, p - 1);
    }
  }

  /**
   The round after the last allowed retry is sent for nothing: with one packet and one retry,
   silence in the first round and an ACK in the second leave everything acknowledged, and the
   phase gives up.
   */
  lemma TooLate(c: Limits, script: nat -> seq<seq<Feedback>>)
    requires c.retries == 1 && script(0) == [] && script(1) == [[Report(Ack(0, [true]), 2)]]
    ensures exists trace, acked :: IsPhase(1, c, 2, script, trace) && Ends(1, c, 2, trace, acked, Exhausted) && AllSet(acked)
  {
    hide RoundOk;
    var r0 := Round(0, 1, 0, 2, [false], [0], 0, Known([false], 2, false));
    var r1 := Round(0, 1, 1, 2, [false], [0], 1, Known([true], 2, false));
    LateRounds(c, script, r0, r1);
    LateLinks(c, r0, r1);
    hide Opens, Linked, Ends, AllSet;
    var trace, acked := [r0, r1], [true];
    assert IsPhase(1, c, 2, script, trace);
    assert Ends(1, c, 2, trace, acked, Exhausted) && AllSet(acked);
  }

  lemma LateLinks(c: Limits, r0: Round, r1: Round)
    requires c.retries == 1
    requires r0 == Round(0, 1, 0, 2, [false], [0], 0, Known([false], 2, false))
    requires r1 == Round(0, 1, 1, 2, [false], [0], 1, Known([true], 2, false))
    ensures Opens(1, NoneAcked(1), 0, 2, r0) && Linked(1, c, r0, r1) && Ends(1, c, 2, [r0, r1], [true], Exhausted) && AllSet([true])
  {
    assert NoneAcked(1) == [false];
    assert !WindowAcked([false], 0, 1) by { assert ![false][0]; }
    assert Skip([false], 0, 2) == 0;
  }

  lemma LateRounds(c: Limits, script: nat -> seq<seq<Feedback>>, r0: Round, r1: Round)
    requires c.retries == 1 && script(0) == [] && script(1) == [[Report(Ack(0, [true]), 2)]]
    requires r0 == Round(0, 1, 0, 2, [false], [0], 0, Known([false], 2, false))
    requires r1 == Round(0, 1, 1, 2, [false], [0], 1, Known([true], 2, false))
    ensures RoundOk(1, c, script(0), r0) && RoundOk(1, c, script(1), r1)
  {
    var f := Report(Ack(0, [true]), 2);
    assert Unacked([false], 0, 1) == [0];
    assert Head([f]) == [f];
    assert Events([[f]]) == [f] by { assert [[f]][..0] == []; }
    assert HearAll(Known([false], 2, false), 0, 1, [f]) == HearOne(Known([false], 2, false), 0, 1, f) by { assert [f][..0] == []; }
    assert Heard([false], 0, 1, f.reply) == [true];
    assert script(1)[..1] == [[f]] && script(1)[..0] == [] && script(0)[..0] == [];
    assert !WindowAcked([false], 0, 1) by { assert ![false][0]; }
  }

  // ---- Bytes ----

  /** The payload bytes of first transmissions. */
  function FirstBytes(sd: Sender, trace: seq<Round>): int
    requires forall i | 0 <= i < |trace| :: Sized(trace[i])
  {
    if trace == [] then 0
    else
      var r := trace[|trace| - 1];
      assert Sized(r);
      FirstBytes(sd, trace[..|trace| - 1]) + if r.attempt == 0 then MissingBytes(sd, r.before, r.base, r.end) else 0
  }

  predicate Sized(r: Round) {
    r.base <= r.end <= |r.before|
  }

  lemma PhaseSized(count: nat, c: Limits, negotiated: nat, script: nat -> seq<seq<Feedback>>, trace: seq<Round>)
    requires negotiated >= 2 && IsPhase(count, c, negotiated, script, trace)
    ensures forall i | 0 <= i < |trace| :: Sized(trace[i])
  {
    hide RoundOk;
    forall i | 0 <= i < |trace| ensures Sized(trace[i]) { BeforeSize(count, c, script(i), trace[i]); }
  }

  /** In a sound round nothing is learned about packets beyond the window. */
  predicate Sound(r: Round) {
    |r.before| == |r.after.acked| && forall q | r.end <= q < |r.before| && r.after.acked[q] :: r.before[q]
  }

  predicate NoneFrom(acked: seq<bool>, from: nat) {
    forall q | from <= q < |acked| :: !acked[q]
  }

  /** A fresh window with nothing acknowledged sends its whole stretch of the payload. */
  lemma {:induction false} WholeWindow(sd: Sender, acked: seq<bool>, base: nat, end: nat)
    requires base <= end <= |acked| && forall q | base <= q < end :: !acked[q]
    ensures MissingBytes(sd, acked, base, end) == StartAt(sd, end) - StartAt(sd, base)
    decreases end
  {
    hide StartAt;
    if base < end {
      WholeWindow(sd, acked, base, end - 1);
    }
  }

  lemma StartEnd(sd: Sender)
    requires sd.packet > 0
    ensures StartAt(sd, Packets(sd)) == |sd.payload| && StartAt(sd, 0) == 0
  {
    if |sd.payload| > 0 { DivCeilBounds(|sd.payload|, sd.packet); }
  }

  lemma SkipsNothing(acked: seq<bool>, from: nat, window: nat)
    requires from <= |acked| && window >= 1 && NoneFrom(acked, from)
    ensures Skip(acked, from, window) == from
  {
    if from < |acked| { assert !acked[from]; }
  }

  lemma OpensFresh(count: nat, acked: seq<bool>, from: nat, window: nat, s: Round)
    requires |acked| == count && from < count && window >= 2 && Opens(count, acked, from, window, s) && NoneFrom(acked, from)
    ensures s.base == from && s.end == Least(from + window, count) && s.before == acked && s.attempt == 0
  {
    assert !acked[from];
  }

  lemma {:induction false} SoundBytes(count: nat, c: Limits, sd: Sender, negotiated: nat, script: nat -> seq<seq<Feedback>>, trace: seq<Round>, n: nat)
    requires negotiated >= 2 && IsPhase(count, c, negotiated, script, trace) && 0 < n <= |trace|
    requires forall i | 0 <= i < n :: Sound(trace[i])
    requires forall i | 0 <= i < |trace| :: Sized(trace[i])
    ensures var r := trace[n - 1];
            && NoneFrom(r.before, r.end) && NoneFrom(r.after.acked, r.end)
            && FirstBytes(sd, trace[..n]) == StartAt(sd, r.end) - StartAt(sd, 0)
  {
    hide RoundOk, Unacked, StartAt, MissingBytes, Opens;
    var r := trace[n - 1];
    BeforeSize(count, c, script(n - 1), r);
    AttemptBound(count, c, script(n - 1), r);
    assert trace[..n][..n - 1] == trace[..n - 1];
    assert Sound(trace[n - 1]);
    if n == 1 {
      assert trace[..0] == [] && FirstBytes(sd, trace[..0]) == 0;
      OpensFresh(count, NoneAcked(count), 0, negotiated, r);
      WholeWindow(sd, r.before, r.base, r.end);
    } else {
      var p := trace[n - 2];
      SoundBytes(count, c, sd, negotiated, script, trace, n - 1);
      LinkAt(count, c, negotiated, script, trace, n - 2);
      if WindowAcked(p.after.acked, p.base, p.end) {
        if p.end == count { OpensLater(count, p.after.acked, p.end, NextWindow(p), r); }
        OpensFresh(count, p.after.acked, p.end, NextWindow(p), r);
        WholeWindow(sd, r.before, r.base, r.end);
      } else {
        LaterRound(p, r, count);
      }
    }
  }

  lemma LaterRound(p: Round, r: Round, count: nat)
    requires |p.after.acked| == count && p.base <= p.end <= count && p.after.window >= 2
    requires Follows(count, p, r) && !WindowAcked(p.after.acked, p.base, p.end)
    ensures r.attempt > 0 && r.end == p.end && r.before == p.after.acked
  {
  }

  /** With sound acknowledgements the payload counter of a phase that delivers is the payload. */
  lemma SoundPayload(c: Limits, sd: Sender, negotiated: nat, script: nat -> seq<seq<Feedback>>, trace: seq<Round>, acked: seq<bool>)
    requires sd.packet > 0 && negotiated >= 2 && IsPhase(Packets(sd), c, negotiated, script, trace)
    requires Ends(Packets(sd), c, negotiated, trace, acked, Delivered)
    requires forall i | 0 <= i < |trace| :: Sound(trace[i])
    ensures forall i | 0 <= i < |trace| :: Sized(trace[i])
    ensures FirstBytes(sd, trace) == |sd.payload|
  {
    hide RoundOk, Opens, Follows, MissingBytes, Packets, StartAt;
    var count := Packets(sd);
    PhaseSized(count, c, negotiated, script, trace);
    StartEnd(sd);
    if trace == [] {
      SkipsNothing(NoneAcked(count), 0, negotiated);
    } else {
      var n := |trace|;
      SoundBytes(count, c, sd, negotiated, script, trace, n);
      assert trace[..n] == trace;
      var r := trace[n - 1];
      SkipsNothing(acked, r.end, NextWindow(r));
    }
  }

  // ---- The contract leaves nothing open ----

  lemma NotEarlier(count: nat, c: Limits, heard: seq<seq<Feedback>>, r: Round, s: Round)
    requires RoundOk(count, c, heard, r) && RoundOk(count, c, heard, s) && r.base == s.base && r.end == s.end
    requires Listened(r, heard, r.used) == Listened(s, heard, r.used)
    ensures r.used >= s.used
  {
    hide Settled, Unacked;
  }

  lemma SameRound(count: nat, c: Limits, heard: seq<seq<Feedback>>, r: Round, s: Round)
    requires RoundOk(count, c, heard, r) && RoundOk(count, c, heard, s)
    requires r.base == s.base && r.end == s.end && r.attempt == s.attempt && r.window == s.window && r.before == s.before
    ensures r == s
  {
    hide Settled, HearAll, Unacked;
    assert forall m: nat | m <= |heard| :: Listened(r, heard, m) == Listened(s, heard, m);
    NotEarlier(count, c, heard, r, s);
    NotEarlier(count, c, heard, s, r);
  }

  lemma {:induction false} SameRounds(count: nat, c: Limits, negotiated: nat, script: nat -> seq<seq<Feedback>>, x: seq<Round>, y: seq<Round>, i: nat)
    requires negotiated >= 2 && IsPhase(count, c, negotiated, script, x) && IsPhase(count, c, negotiated, script, y)
    requires i < |x| && i < |y|
    ensures x[i] == y[i]
  {
    hide RoundOk, Skip;
    if i > 0 {
      SameRounds(count, c, negotiated, script, x, y, i - 1);
      LinkAt(count, c, negotiated, script, x, i - 1);
      LinkAt(count, c, negotiated, script, y, i - 1);
    }
    SameRound(count, c, script(i), x[i], y[i]);
  }

  lemma NoLonger(count: nat, c: Limits, negotiated: nat, script: nat -> seq<seq<Feedback>>, x: seq<Round>, y: seq<Round>, acked: seq<bool>,
                 outcome: Outcome)
    requires negotiated >= 2 && IsPhase(count, c, negotiated, script, x) && IsPhase(count, c, negotiated, script, y)
    requires Ends(count, c, negotiated, x, acked, outcome)
    ensures |y| <= |x|
  {
    hide RoundOk;
    if |y| > |x| {
      var s := y[|x|];
      AttemptBound(count, c, script(|x|), s);
      if x != [] {
        SameRounds(count, c, negotiated, script, x, y, |x| - 1);
        LinkAt(count, c, negotiated, script, y, |x| - 1);
      }
    }
  }

  /** A script determines the phase: its rounds, what is acknowledged, and the outcome. */
  lemma PhaseIsDetermined(count: nat, c: Limits, negotiated: nat, script: nat -> seq<seq<Feedback>>, x: seq<Round>, acked: seq<bool>,
                          outcome: Outcome, y: seq<Round>, acked': seq<bool>, outcome': Outcome)
    requires negotiated >= 2 && IsPhase(count, c, negotiated, script, x) && IsPhase(count, c, negotiated, script, y)
    requires Ends(count, c, negotiated, x, acked, outcome) && Ends(count, c, negotiated, y, acked', outcome')
    ensures x == y && acked == acked' && outcome == outcome'
  {
    hide IsPhase;
    NoLonger(count, c, negotiated, script, x, y, acked, outcome);
    NoLonger(count, c, negotiated, script, y, x, acked', outcome');
    forall i | 0 <= i < |x| ensures x[i] == y[i] {
      SameRounds(count, c, negotiated, script, x, y, i);
    }
  }

  // ---- The phase ----

  /** Between windows: the next round opens the first window from `base` on that is not acknowledged. */
  ghost predicate AtBoundary(count: nat, c: Limits, negotiated: nat, trace: seq<Round>, acked: seq<bool>, base: nat, window: nat)
    requires negotiated >= 2
  {
    && |acked| == count && base <= count && window >= 2
    && if trace == [] then acked == NoneAcked(count) && window == negotiated && Skip(acked, base, window) == Skip(acked, 0, window)
       else
         var r := trace[|trace| - 1];
         && Shaped(count, r) && Goes(c, r) && WindowAcked(r.after.acked, r.base, r.end) && acked == r.after.acked
         && window == NextWindow(r) && Skip(acked, base, window) == Skip(acked, r.end, window)
  }

  /** Inside a window: the next round repeats it. */
  predicate InWindow(count: nat, c: Limits, trace: seq<Round>, acked: seq<bool>, base: nat, end: nat, window: nat, round: nat) {
    && trace != [] && var r := trace[|trace| - 1];
       && Shaped(count, r) && Goes(c, r) && acked == r.after.acked && window == NextWindow(r)
       && r.base == base && r.end == end && round == r.attempt + 1
  }

  lemma AddRound(count: nat, c: Limits, negotiated: nat, script: nat -> seq<seq<Feedback>>, trace: seq<Round>, r: Round)
    requires negotiated >= 2 && IsPhase(count, c, negotiated, script, trace) && RoundOk(count, c, script(|trace|), r)
    requires if r.attempt == 0
             then AtBoundary(count, c, negotiated, trace, r.before, r.base, r.window) && r.end == Least(r.base + r.window, count)
             else InWindow(count, c, trace, r.before, r.base, r.end, r.window, r.attempt)
                  && !WindowAcked(r.before, r.base, r.end)
    ensures IsPhase(count, c, negotiated, script, trace + [r]) && Shaped(count, r)
  {
    hide RoundOk;
    RoundShaped(count, c, script(|trace|), r);
    BeforeSize(count, c, script(|trace|), r);
    var t := trace + [r];
    assert t[|trace|] == r && t[..|trace|] == trace;
    if r.attempt == 0 { assert Skip(r.before, r.base, r.window) == r.base; }
    forall i | 0 <= i < |t| - 1 ensures Linked(count, c, t[i], t[i + 1]) {
      if i < |trace| - 1 { LinkAt(count, c, negotiated, script, trace, i); }
    }
  }

  lemma FirstBytesAppend(sd: Sender, trace: seq<Round>, r: Round)
    requires (forall i | 0 <= i < |trace| :: Sized(trace[i])) && Sized(r)
    ensures forall i | 0 <= i < |trace + [r]| :: Sized((trace + [r])[i])
    ensures FirstBytes(sd, trace + [r]) == FirstBytes(sd, trace) + if r.attempt == 0 then MissingBytes(sd, r.before, r.base, r.end) else 0
  {
    assert (trace + [r])[..|trace|] == trace;
  }

  lemma SkipOver(count: nat, c: Limits, negotiated: nat, trace: seq<Round>, acked: seq<bool>, base: nat, end: nat, window: nat)
    requires negotiated >= 2 && AtBoundary(count, c, negotiated, trace, acked, base, window)
    requires base < count && end == Least(base + window, count) && WindowAcked(acked, base, end)
    ensures AtBoundary(count, c, negotiated, trace, acked, end, window)
  {
  }

  /** One round. */
  method RunRound(c: Limits, sd: Sender, acked: seq<bool>, base: nat, end: nat, window: nat, attempt: nat, heard: seq<seq<Feedback>>)
    returns (k: Known, payload: int, ghost r: Round)
    requires base < end <= |acked| && window >= 2 && attempt <= c.retries && !WindowAcked(acked, base, end)
    ensures RoundOk(|acked|, c, heard, r) && r.before == acked && r.base == base && r.end == end && r.window == window && r.attempt == attempt
    ensures k == r.after && k.window >= 2
    ensures payload == MissingBytes(sd, acked, base, end)
  {
    hide Unacked, MissingBytes, HearAll, Events;
    var sent;
    sent, payload := Transmit(sd, acked, base, end);
    var used;
    k, used := Await(Known(acked, window, false), base, end, heard);
    r := Round(base, end, attempt, window, acked, sent, used, k);
    RoundShaped(|acked|, c, heard, r);
  }

  /** All rounds of one window. */
  method SendWindow(c: Limits, sd: Sender, acked: seq<bool>, base: nat, end: nat, window: nat, negotiated: nat,
                    script: nat -> seq<seq<Feedback>>, start: nat, ghost trace: seq<Round>)
    returns (acked': seq<bool>, window': nat, outcome: Outcome, payload: int, rounds: nat, ghost trace': seq<Round>)
    requires LimitsOk(c) && negotiated >= 2 && base < |acked| && AtBoundary(|acked|, c, negotiated, trace, acked, base, window)
    requires end == Least(base + window, |acked|) && start == |trace| && IsPhase(|acked|, c, negotiated, script, trace)
    requires forall i | 0 <= i < |trace| :: Sized(trace[i])
    ensures IsPhase(|acked|, c, negotiated, script, trace') && |trace'| == start + rounds && |acked'| == |acked|
    ensures forall i | 0 <= i < |trace'| :: Sized(trace'[i])
    ensures payload == FirstBytes(sd, trace') - FirstBytes(sd, trace)
    ensures outcome.Delivered? ==> AtBoundary(|acked|, c, negotiated, trace', acked', end, window')
    ensures !outcome.Delivered? ==> Ends(|acked|, c, negotiated, trace', acked', outcome)
  {
    hide RoundOk, IsPhase, MissingBytes, FirstBytes, AtBoundary, Skip;
    acked', window', outcome, payload, rounds, trace' := acked, window, Delivered, 0, 0, trace;
    BoundarySize(|acked|, c, negotiated, trace, acked, base, window);
    while !WindowAcked(acked', base, end)
      invariant |acked'| == |acked| && window' >= 2 && outcome == Delivered && rounds <= c.retries
      invariant IsPhase(|acked|, c, negotiated, script, trace') && |trace'| == start + rounds
      invariant forall i | 0 <= i < |trace'| :: Sized(trace'[i])
      invariant payload == FirstBytes(sd, trace') - FirstBytes(sd, trace)
      invariant if rounds == 0 then trace' == trace && acked' == acked && window' == window
                else InWindow(|acked|, c, trace', acked', base, end, window', rounds)
      decreases c.retries + 1 - rounds
    {
      var k, bytes;
      ghost var r;
      k, bytes, r := RunRound(c, sd, acked', base, end, window', rounds, script(start + rounds));
      AddRound(|acked|, c, negotiated, script, trace', r);
      FirstBytesAppend(sd, trace', r);
      if rounds == 0 { payload := bytes; }
      acked', window', trace', rounds := k.acked, k.window, trace' + [r], rounds + 1;
      if k.rejected {
        outcome := Rejected;
        PhaseEnds(|acked|, c, negotiated, script, trace', acked', outcome);
        return;
      }
      if rounds > c.retries {
        outcome := Exhausted;
        PhaseEnds(|acked|, c, negotiated, script, trace', acked', outcome);
        return;
      }
      if rounds > 1 { window' := Most(window' / 2, 2); }
    }
    if rounds == 0 {
      SkipOver(|acked|, c, negotiated, trace, acked, base, end, window);
    } else {
      WindowDone(|acked|, c, negotiated, trace', acked', base, end, window', rounds);
    }
  }

  lemma WindowDone(count: nat, c: Limits, negotiated: nat, trace: seq<Round>, acked: seq<bool>, base: nat, end: nat, window: nat, rounds: nat)
    requires negotiated >= 2 && InWindow(count, c, trace, acked, base, end, window, rounds) && base <= end <= |acked| && WindowAcked(acked, base, end)
    ensures AtBoundary(count, c, negotiated, trace, acked, end, window)
  {
  }

  lemma BoundarySize(count: nat, c: Limits, negotiated: nat, trace: seq<Round>, acked: seq<bool>, base: nat, window: nat)
    requires negotiated >= 2 && AtBoundary(count, c, negotiated, trace, acked, base, window)
    ensures |acked| == count && base <= count && window >= 2
  {
  }

  lemma PhaseEnds(count: nat, c: Limits, negotiated: nat, script: nat -> seq<seq<Feedback>>, trace: seq<Round>, acked: seq<bool>, outcome: Outcome)
    requires negotiated >= 2 && IsPhase(count, c, negotiated, script, trace) && trace != []
    requires acked == trace[|trace| - 1].after.acked && (trace[|trace| - 1].after.rejected || trace[|trace| - 1].attempt >= c.retries)
    requires outcome == if trace[|trace| - 1].after.rejected then Rejected else Exhausted
    ensures Ends(count, c, negotiated, trace, acked, outcome)
  {
    RoundShaped(count, c, script(|trace| - 1), trace[|trace| - 1]);
  }

  lemma PhaseDelivers(count: nat, c: Limits, negotiated: nat, script: nat -> seq<seq<Feedback>>, trace: seq<Round>, acked: seq<bool>, window: nat)
    requires negotiated >= 2 && IsPhase(count, c, negotiated, script, trace) && AtBoundary(count, c, negotiated, trace, acked, count, window)
    ensures Ends(count, c, negotiated, trace, acked, Delivered)
  {
    hide RoundOk;
  }

  /**
   The window phase. Its rounds are determined by what arrives; it always ends, with what is
   acknowledged, the outcome and the counter of the one phase there is. How many datagrams it
   takes, when it delivers and what it counts are facts about every such phase (`DatagramBound`,
   `DeliveredByReports`, `SoundPayload`).
   */
  method SendWindows(c: Limits, sd: Sender, negotiated: nat, script: nat -> seq<seq<Feedback>>)
    returns (acked: seq<bool>, outcome: Outcome, payloadBytes: int, ghost trace: seq<Round>)
    requires LimitsOk(c) && sd.packet > 0 && 2 <= negotiated <= c.window
    ensures IsPhase(Packets(sd), c, negotiated, script, trace) && Ends(Packets(sd), c, negotiated, trace, acked, outcome)
    ensures forall i | 0 <= i < |trace| :: Sized(trace[i])
    ensures payloadBytes == FirstBytes(sd, trace)
    ensures |acked| == Packets(sd) && (outcome.Delivered? ==> AllSet(acked))
    ensures forall x, acked', outcome' | IsPhase(Packets(sd), c, negotiated, script, x) && Ends(Packets(sd), c, negotiated, x, acked', outcome') ::
              acked == acked' && outcome == outcome' && trace == x
    ensures Datagrams(trace) <= Packets(sd) * (c.retries + 1)
    ensures outcome.Delivered? <==> forall i | 0 <= i < |trace| :: Goes(c, trace[i])
    ensures outcome.Delivered? ==> AllSet(acked) && ((forall i | 0 <= i < |trace| :: Sound(trace[i])) ==> payloadBytes == |sd.payload|)
  {
    hide RoundOk, IsPhase, FirstBytes, AtBoundary, Packets, Skip, Datagrams, Goes, Sound, AllSet, Ends, Sized;
    var count := Packets(sd);
    acked, outcome, payloadBytes, trace := NoneAcked(count), Delivered, 0, [];
    var base, window, t := 0, negotiated, 0;
    PhaseStart(count, c, sd, negotiated, script);
    while base < count
      invariant base <= count == |acked| && outcome == Delivered && t == |trace|
      invariant IsPhase(count, c, negotiated, script, trace) && AtBoundary(count, c, negotiated, trace, acked, base, window)
      invariant forall i | 0 <= i < |trace| :: Sized(trace[i])
      invariant payloadBytes == FirstBytes(sd, trace)
      decreases count - base
    {
      BoundarySize(count, c, negotiated, trace, acked, base, window);
      var end := Least(base + window, count);
      var bytes, rounds;
      acked, window, outcome, bytes, rounds, trace := SendWindow(c, sd, acked, base, end, window, negotiated, script, t, trace);
      payloadBytes, t := payloadBytes + bytes, t + rounds;
      if !outcome.Delivered? {
        PhaseFacts(c, sd, negotiated, script, trace, acked, outcome);
        OnlyPhase(count, c, negotiated, script, trace, acked, outcome);
        return;
      }
      base := end;
    }
    PhaseDelivers(count, c, negotiated, script, trace, acked, window);
    PhaseFacts(c, sd, negotiated, script, trace, acked, outcome);
    OnlyPhase(count, c, negotiated, script, trace, acked, outcome);
  }

  lemma OnlyPhase(count: nat, c: Limits, negotiated: nat, script: nat -> seq<seq<Feedback>>, trace: seq<Round>, acked: seq<bool>, outcome: Outcome)
    requires negotiated >= 2 && IsPhase(count, c, negotiated, script, trace) && Ends(count, c, negotiated, trace, acked, outcome)
    ensures forall x, acked', outcome' | IsPhase(count, c, negotiated, script, x) && Ends(count, c, negotiated, x, acked', outcome') ::
              acked == acked' && outcome == outcome' && trace == x
  {
    hide IsPhase, Ends;
    forall x, acked', outcome' | IsPhase(count, c, negotiated, script, x) && Ends(count, c, negotiated, x, acked', outcome')
      ensures acked == acked' && outcome == outcome' && trace == x
    {
      PhaseIsDetermined(count, c, negotiated, script, trace, acked, outcome, x, acked', outcome');
    }
  }

  lemma PhaseStart(count: nat, c: Limits, sd: Sender, negotiated: nat, script: nat -> seq<seq<Feedback>>)
    requires negotiated >= 2
    ensures IsPhase(count, c, negotiated, script, []) && AtBoundary(count, c, negotiated, [], NoneAcked(count), 0, negotiated)
    ensures FirstBytes(sd, []) == 0
  {
  }

  lemma PhaseFacts(c: Limits, sd: Sender, negotiated: nat, script: nat -> seq<seq<Feedback>>, trace: seq<Round>, acked: seq<bool>, outcome: Outcome)
    requires LimitsOk(c) && sd.packet > 0 && negotiated >= 2 && IsPhase(Packets(sd), c, negotiated, script, trace)
    requires Ends(Packets(sd), c, negotiated, trace, acked, outcome)
    requires forall i | 0 <= i < |trace| :: Sized(trace[i])
    ensures Datagrams(trace) <= Packets(sd) * (c.retries + 1)
    ensures outcome.Delivered? <==> forall i | 0 <= i < |trace| :: Goes(c, trace[i])
    ensures outcome.Delivered? ==> AllSet(acked) && ((forall i | 0 <= i < |trace| :: Sound(trace[i])) ==> FirstBytes(sd, trace) == |sd.payload|)
  {
    hide RoundOk, FirstBytes, Packets, Skip, Datagrams, Goes, Sound, AllSet, Ends, Sized, Opens, Follows;
    DatagramBound(Packets(sd), c, negotiated, script, trace);
    DeliveredExactly(Packets(sd), c, negotiated, script, trace, acked, outcome);
    if outcome.Delivered? && forall i | 0 <= i < |trace| :: Sound(trace[i]) {
      SoundPayload(c, sd, negotiated, script, trace, acked);
    }
  }
}
