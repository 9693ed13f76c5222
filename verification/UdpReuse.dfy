/**
 A block id that is freed may be allocated again. When it comes back with the same lease and
 generation, a late START of a transfer that has been applied, and even reported successful, is
 admitted once more. This module finds the exact condition under which a transfer is applied at
 most once, counting all incarnations.
 */
module UdpReuse {
  import opened Graph
  import opened Blocks
  import opened UdpServer
  import opened UdpProtocol
  import opened UdpSafety

  /** Some run of the protocol ends in `s`. */
  ghost predicate Reaches(c: Config, digest: seq<byte> -> Digest, s: State) {
    exists states, events :: |states| > 0 && IsRun(c, digest, states, events) && states[|states| - 1] == s
  }

  lemma ReachInitial(c: Config, digest: seq<byte> -> Digest)
    ensures Reaches(c, digest, Initial())
  {
    var states: seq<State>, events: seq<Event> := [Initial()], [];
    assert IsRun(c, digest, states, events);
    assert states[|states| - 1] == Initial();
  }

  lemma ReachedTyped(c: Config, digest: seq<byte> -> Digest, s: State)
    requires c.payloadBytes > 0 && Reaches(c, digest, s)
    ensures Typed(c, s)
  {
    hide IsRun;
    var states, events :| |states| > 0 && IsRun(c, digest, states, events) && states[|states| - 1] == s;
    RunKeeps(c, digest, states, events, |states| - 1);
  }

  lemma Extend(c: Config, digest: seq<byte> -> Digest, s: State, e: Event)
    requires Reaches(c, digest, s) && Typed(c, s) && Enabled(s, e)
    ensures Reaches(c, digest, Next(c, digest, s, e))
  {
    hide Typed, Enabled, Next;
    var states, events :| |states| > 0 && IsRun(c, digest, states, events) && states[|states| - 1] == s;
    var states', events' := states + [Next(c, digest, s, e)], events + [e];
    forall i | 0 <= i < |events'|
      ensures Typed(c, states'[i]) && Enabled(states'[i], events'[i]) && states'[i + 1] == Next(c, digest, states'[i], events'[i])
    {
      if i < |events| { assert states'[i] == states[i] && states'[i + 1] == states[i + 1] && events'[i] == events[i]; }
    }
    assert IsRun(c, digest, states', events');
    assert states'[|states'| - 1] == Next(c, digest, s, e);
  }

  /** Block ids that come back with an old lease and generation do so only where `reusable` says so. */
  ghost predicate OnlyReuses(s: State, reusable: Made -> bool) {
    forall x, y | x in s.made && y in s.made && x != y && s.made[x] == s.made[y] :: reusable(s.made[x])
  }

  ghost predicate OnceInAll(c: Config, digest: seq<byte> -> Digest, reusable: Made -> bool, s: State) {
    Reaches(c, digest, s) && OnlyReuses(s, reusable) ==> forall k | k in s.senders :: Once(s, k)
  }

  // ---- The transfer that is applied twice ----

  function TheKey(m: Made): Key { Key(0, 0, m.block) }

  function TheTarget(m: Made): Target { Target(0, m.lease, m.generation, 1) }

  /** One byte in one packet. */
  function TheSender(c: Config, m: Made, phase: Phase, acknowledged: bool): Sender {
    Sender(TheTarget(m), 0, [0], c.payloadBytes, phase, [acknowledged])
  }

  function TheStart(digest: seq<byte> -> Digest, m: Made): Datagram { Start(TheTarget(m), 0, 1, 1, digest([0])) }
  function TheData(m: Made): Datagram { Data(TheTarget(m), 0, 0, [0]) }
  function TheFin(digest: seq<byte> -> Digest, m: Made): Datagram { Fin(TheTarget(m), 0, digest([0])) }

  function TheSession(digest: seq<byte> -> Digest, m: Made, stored: bool): Session {
    Session(TheTarget(m), 0, 1, digest([0]), [0], [stored], if stored then 1 else 0, if stored then Some(0) else None)
  }

  predicate Runs(c: Config) {
    c.payloadBytes > 0 && c.chunkBytes > 0 && c.maxSessions > 0
  }

  lemma OnePacket(c: Config, m: Made, phase: Phase, acknowledged: bool)
    requires Runs(c)
    ensures DivCeil(1, c.payloadBytes) == 1 && Packets(TheSender(c, m, phase, acknowledged)) == 1
    ensures Begin(TheSender(c, m, phase, acknowledged), 0) == 0 && End(TheSender(c, m, phase, acknowledged), 0) == 1
  {
    assert 1 + c.payloadBytes - 1 == c.payloadBytes;
  }

  lemma WhatIsSent(c: Config, digest: seq<byte> -> Digest, m: Made, phase: Phase, acknowledged: bool)
    requires Runs(c)
    ensures var sd := TheSender(c, m, phase, acknowledged);
            Packets(sd) == 1 && StartOf(sd, digest) == TheStart(digest, m) && DataOf(sd, 0) == TheData(m) && FinOf(sd, digest) == TheFin(digest, m)
    ensures phase != Succeeded || acknowledged ==> SenderOk(TheSender(c, m, phase, acknowledged))
  {
    OnePacket(c, m, phase, acknowledged);
  }

  /** Incarnation `n`, allocated as `m`, is fresh; nothing is going on except perhaps the transfer's session. */
  ghost predicate Quiet(c: Config, digest: seq<byte> -> Digest, s: State, m: Made, n: nat, incoming: map<Key, Session>) {
    && Runs(c) && Reaches(c, digest, s)
    && s.tasks == map[] && s.server.incoming == incoming && s.server.finishing == {} && s.server.completed == {}
    && Alive(s, m.block) && s.current[m.block] == n && s.log[n] == []
    && s.server.blocks[m.block] == Fresh(0, m.lease, m.generation, 1)
  }

  /** Blocks, logs and senders are as they were, and nothing sent is lost. */
  ghost predicate Onward(s: State, s': State) {
    && s'.log == s.log && s'.made == s.made && s'.current == s.current && s'.senders == s.senders
    && s.net <= s'.net && s.replies <= s'.replies && s'.server.blocks == s.server.blocks
  }

  lemma Take(c: Config, digest: seq<byte> -> Digest, s: State, e: Section, s': State)
    requires c.payloadBytes > 0 && Reaches(c, digest, s) && SectionEnabled(s, e)
    requires Typed(c, s) ==> s' == NextSection(c, digest, s, e)
    ensures Typed(c, s) && Reaches(c, digest, s')
  {
    hide Reaches, Typed, NextSection, SectionEnabled;
    ReachedTyped(c, digest, s);
    Extend(c, digest, s, Receiver(e));
  }

  lemma Meet(c: Config, digest: seq<byte> -> Digest, s: State, e: Happening, s': State)
    requires c.payloadBytes > 0 && Reaches(c, digest, s) && HappeningEnabled(s, e)
    requires Typed(c, s) ==> s' == NextHappening(digest, s, e)
    ensures Typed(c, s) && Reaches(c, digest, s')
  {
    hide Reaches, NextHappening, HappeningEnabled;
    ReachedTyped(c, digest, s);
    Extend(c, digest, s, Elsewhere(e));
  }

  /** A START, new or late, opens the session. */
  lemma Opened(c: Config, digest: seq<byte> -> Digest, s: State, m: Made, n: nat) returns (s': State)
    requires Quiet(c, digest, s, m, n, map[]) && (TheKey(m), TheStart(digest, m)) in s.net
    ensures Quiet(c, digest, s', m, n, map[TheKey(m) := TheSession(digest, m, false)]) && Onward(s, s')
    ensures (TheKey(m), StartAck) in s'.replies
  {
    hide Reaches, Typed;
    var k, d := TheKey(m), TheStart(digest, m);
    OnePacket(c, m, Handshake, false);
    assert StartAdmitted(c, s.server.blocks, k, d, true);
    var s1 := Begun(s, 0, Opening(k, d));
    Take(c, digest, s, RecvStart(0, k, d, true), s1);
    assert NewSession(d) == TheSession(digest, m, false) by { assert seq(1, _ => 0) == [0] && seq(1, _ => false) == [false]; }
    s' := Answered(WithServer(s1, s1.server.incoming[k := TheSession(digest, m, false)], s1.server.finishing), 0, StartAck);
    assert OpenSession(c, s1.server.incoming, k, d, true) == (s1.server.incoming[k := TheSession(digest, m, false)], StartAck);
    Take(c, digest, s1, OpenTask(0, true), s');
  }

  /** The one DATA packet completes it. */
  lemma Filled(c: Config, digest: seq<byte> -> Digest, s: State, m: Made, n: nat) returns (s': State)
    requires Quiet(c, digest, s, m, n, map[TheKey(m) := TheSession(digest, m, false)]) && (TheKey(m), TheData(m)) in s.net
    ensures Quiet(c, digest, s', m, n, map[TheKey(m) := TheSession(digest, m, true)]) && Onward(s, s')
    ensures (TheKey(m), AckOf(TheSession(digest, m, true), 0)) in s'.replies
  {
    hide Reaches, Typed, AckOf;
    var k, d := TheKey(m), TheData(m);
    var s1 := Begun(s, 0, Storing(k, [d]));
    Take(c, digest, s, RecvData(0, k, [d]), s1);
    Batch(c, digest, m);
    s' := Answered(WithServer(s1, s1.server.incoming[k := TheSession(digest, m, true)], s1.server.finishing), 0, AckOf(TheSession(digest, m, true), 0));
    Take(c, digest, s1, StoreTask(0), s');
  }

  lemma Batch(c: Config, digest: seq<byte> -> Digest, m: Made)
    requires c.payloadBytes > 0
    ensures StoreBatch(c, TheSession(digest, m, false), [TheData(m)]) == (TheSession(digest, m, true), AckOf(TheSession(digest, m, true), 0))
  {
    hide AckOf;
    var s0, s1, d := TheSession(digest, m, false), TheSession(digest, m, true), TheData(m);
    assert DataFits(c, s0, d);
    assert Splice([0], 0, [0]) == [0];
    assert Store(c, s0, d) == s1;
    assert [d][..0] == [] && StoreAll(c, s0, []) == (s0, true);
    assert StoreAll(c, s0, [d]) == (s1, true);
  }

  /** FIN applies it. */
  lemma Finished(c: Config, digest: seq<byte> -> Digest, s: State, m: Made, n: nat) returns (s': State)
    requires Quiet(c, digest, s, m, n, map[TheKey(m) := TheSession(digest, m, true)]) && (TheKey(m), TheFin(digest, m)) in s.net
    ensures Reaches(c, digest, s') && s'.tasks == map[0 := Marking(TheKey(m), TheFin(digest, m))]
    ensures s'.server.incoming == map[] && s'.server.finishing == {TheKey(m)} && s'.server.completed == {}
    ensures s'.log == s.log[n := [Entry(Some(TheKey(m)), 0, [0])]] && s'.made == s.made && s'.current == s.current
    ensures s'.senders == s.senders && s.net <= s'.net && s.replies <= s'.replies && s'.server.blocks.Keys == s.server.blocks.Keys
  {
    hide Reaches, Typed;
    var k, d, session := TheKey(m), TheFin(digest, m), TheSession(digest, m, true);
    var s1 := Begun(s, 0, Finding(k, d));
    Take(c, digest, s, RecvFin(0, k, d), s1);
    var s2 := Begun(WithServer(s1, s1.server.incoming - {k}, s1.server.finishing + {k}), 0, Finalizing(k, d, session));
    assert AllSet(session.received) && FinMatches(session, d, digest);
    Take(c, digest, s1, FindTask(0), s2);
    var b, step := Fresh(0, m.lease, m.generation, 1), FinishStep(k, d, session, true);
    OneByte(digest, m, k);
    s' := Begun(WithBlock(s2, m.block, Some(k), Apply(b, step, digest)), 0, Marking(k, d));
    assert FinishAllowed(b, step) by { assert |b.bytes| == 1; }
    Take(c, digest, s2, FinalizeTask(0, true), s') by { hide Apply; }
  }

  lemma OneByte(digest: seq<byte> -> Digest, m: Made, k: Key)
    ensures var b, step := Fresh(0, m.lease, m.generation, 1), FinishStep(k, TheFin(digest, m), TheSession(digest, m, true), true);
            FinishAllowed(b, step) && Logged([], Some(k), b, Apply(b, step, digest)) == [Entry(Some(k), 0, [0])]
  {
    var b, step := Fresh(0, m.lease, m.generation, 1), FinishStep(k, TheFin(digest, m), TheSession(digest, m, true), true);
    assert b.bytes == [0] && Splice([0], 0, [0]) == [0];
    assert Apply(b, step, digest).bytes[0..1] == [0];
  }

  // ---- The run ----

  /** A first pass that ends in success. */
  lemma FirstPass(c: Config, digest: seq<byte> -> Digest, m: Made) returns (s': State)
    requires Runs(c)
    ensures Reaches(c, digest, s') && s'.tasks == map[] && s'.server.incoming == map[] && s'.server.finishing == {}
    ensures s'.server.completed == {(TheKey(m), 0)} && s'.server.blocks.Keys == {m.block}
    ensures s'.log == map[0 := [Entry(Some(TheKey(m)), 0, [0])]] && s'.made == map[0 := m] && s'.senders == map[TheKey(m) := TheSender(c, m, Succeeded, true)]
    ensures (TheKey(m), TheStart(digest, m)) in s'.net && (TheKey(m), TheData(m)) in s'.net && (TheKey(m), TheFin(digest, m)) in s'.net
  {
    hide Reaches, Typed, AckOf, StartOf, DataOf, FinOf, SenderOk, Packets;
    var k := TheKey(m);
    var s1 := Begins(c, digest, m);
    var s2 := Opened(c, digest, s1, m, 0);
    var s3 := Handshakes(c, digest, s2, m);
    var s4 := Filled(c, digest, s3, m, 0);
    var s5 := Learns(c, digest, s4, m);
    var s6 := Finished(c, digest, s5, m, 0);
    s' := Ends(c, digest, s6, m);
  }

  lemma Begins(c: Config, digest: seq<byte> -> Digest, m: Made) returns (s': State)
    requires Runs(c)
    ensures Quiet(c, digest, s', m, 0, map[]) && s'.senders == map[TheKey(m) := TheSender(c, m, Handshake, false)]
    ensures (TheKey(m), TheStart(digest, m)) in s'.net && s'.log == map[0 := []] && s'.made == map[0 := m] && s'.server.blocks.Keys == {m.block}
  {
    hide Reaches, Typed, StartOf, Packets;
    ReachInitial(c, digest);
    var s1 := Allocated(Initial(), m.block, 0, Fresh(0, m.lease, m.generation, 1));
    Meet(c, digest, Initial(), Allocate(m.block, 0, 0, m.lease, m.generation, 1), s1);
    var sd := TheSender(c, m, Handshake, false);
    WhatIsSent(c, digest, m, Handshake, false);
    assert Unused(s1, TheKey(m)) && !AnySet(sd.acknowledged);
    s' := Sent(WithSender(s1, TheKey(m), sd), TheKey(m), TheStart(digest, m));
    Meet(c, digest, s1, NewSender(TheKey(m), sd), s');
  }

  lemma Handshakes(c: Config, digest: seq<byte> -> Digest, s: State, m: Made) returns (s': State)
    requires Quiet(c, digest, s, m, 0, map[TheKey(m) := TheSession(digest, m, false)]) && (TheKey(m), StartAck) in s.replies
    requires s.senders == map[TheKey(m) := TheSender(c, m, Handshake, false)]
    ensures Quiet(c, digest, s', m, 0, map[TheKey(m) := TheSession(digest, m, false)])
    ensures s'.senders == map[TheKey(m) := TheSender(c, m, Sending, false)] && (TheKey(m), TheData(m)) in s'.net && s.net <= s'.net
    ensures s'.log == s.log && s'.made == s.made && s'.server.blocks == s.server.blocks
  {
    hide Reaches, Typed, DataOf, Packets;
    var k := TheKey(m);
    WhatIsSent(c, digest, m, Handshake, false);
    WhatIsSent(c, digest, m, Sending, false);
    var s1 := WithSender(s, k, TheSender(c, m, Sending, false));
    Meet(c, digest, s, Handshaken(k), s1);
    s' := Sent(s1, k, TheData(m));
    Meet(c, digest, s1, SendData(k, 0), s');
  }

  lemma Learns(c: Config, digest: seq<byte> -> Digest, s: State, m: Made) returns (s': State)
    requires Quiet(c, digest, s, m, 0, map[TheKey(m) := TheSession(digest, m, true)])
    requires (TheKey(m), AckOf(TheSession(digest, m, true), 0)) in s.replies && s.senders == map[TheKey(m) := TheSender(c, m, Sending, false)]
    ensures Quiet(c, digest, s', m, 0, map[TheKey(m) := TheSession(digest, m, true)])
    ensures s'.senders == map[TheKey(m) := TheSender(c, m, Sending, true)] && (TheKey(m), TheFin(digest, m)) in s'.net && s.net <= s'.net
    ensures s'.log == s.log && s'.made == s.made && s'.server.blocks == s.server.blocks
  {
    hide Reaches, Typed, FinOf, Packets;
    var k, r := TheKey(m), AckOf(TheSession(digest, m, true), 0);
    WhatIsSent(c, digest, m, Sending, false);
    WhatIsSent(c, digest, m, Sending, true);
    assert Marked([false], r) == [true] by { assert Reports(r, 0); }
    var s1 := WithSender(s, k, TheSender(c, m, Sending, true));
    Meet(c, digest, s, TakeAck(k, r), s1);
    s' := Sent(s1, k, TheFin(digest, m));
    Meet(c, digest, s1, SendFin(k), s');
  }

  lemma Ends(c: Config, digest: seq<byte> -> Digest, s: State, m: Made) returns (s': State)
    requires Runs(c) && Reaches(c, digest, s) && s.tasks == map[0 := Marking(TheKey(m), TheFin(digest, m))]
    requires s.server.incoming == map[] && s.server.finishing == {TheKey(m)} && s.server.completed == {}
    requires s.senders == map[TheKey(m) := TheSender(c, m, Sending, true)]
    ensures Reaches(c, digest, s') && s'.tasks == map[] && s'.server.incoming == map[] && s'.server.finishing == {}
    ensures s'.server.completed == {(TheKey(m), 0)} && s'.server.blocks == s.server.blocks && s'.log == s.log && s'.made == s.made
    ensures s'.senders == map[TheKey(m) := TheSender(c, m, Succeeded, true)] && s.net <= s'.net
  {
    hide Reaches, Typed, Packets;
    var k := TheKey(m);
    WhatIsSent(c, digest, m, Sending, true);
    var s1 := Clears(c, digest, s, m);
    s' := WithSender(s1, k, TheSender(c, m, Succeeded, true));
    Meet(c, digest, s1, Succeed(k), s');
  }

  lemma Clears(c: Config, digest: seq<byte> -> Digest, s: State, m: Made) returns (s': State)
    requires Runs(c) && Reaches(c, digest, s) && s.tasks == map[0 := Marking(TheKey(m), TheFin(digest, m))]
    requires s.server.incoming == map[] && s.server.finishing == {TheKey(m)} && s.server.completed == {}
    ensures Reaches(c, digest, s') && s'.tasks == map[] && s'.server.incoming == map[] && s'.server.finishing == {}
    ensures s'.server.completed == {(TheKey(m), 0)} && s'.server.blocks == s.server.blocks && s'.log == s.log && s'.made == s.made
    ensures s'.senders == s.senders && s.net <= s'.net && (TheKey(m), Complete) in s'.replies
  {
    hide Reaches, Typed;
    var k, d := TheKey(m), TheFin(digest, m);
    var s1 := Begun(s.(server := s.server.(completed := s.server.completed + {(k, 0)})), 0, Clearing(k, d));
    Take(c, digest, s, MarkTask(0), s1);
    s' := Answered(WithServer(s1, s1.server.incoming, s1.server.finishing - {k}), 0, Complete);
    Take(c, digest, s1, ClearTask(0), s');
  }

  /** The completed entry is evicted, the block freed, and its id allocated again as it was. */
  lemma ComesBack(c: Config, digest: seq<byte> -> Digest, s: State, m: Made) returns (s': State)
    requires Runs(c) && Reaches(c, digest, s) && s.tasks == map[] && s.server.incoming == map[] && s.server.finishing == {}
    requires s.server.completed == {(TheKey(m), 0)} && s.server.blocks.Keys == {m.block} && s.log.Keys == {0} && s.made == map[0 := m]
    ensures Quiet(c, digest, s', m, 1, map[]) && s'.log == s.log[1 := []] && s'.made == map[0 := m, 1 := m]
    ensures s'.senders == s.senders && s'.net == s.net
  {
    hide Reaches, Typed;
    var s1 := s.(server := s.server.(completed := s.server.completed - {(TheKey(m), 0)}));
    Meet(c, digest, s, Evict(TheKey(m), 0), s1);
    var s2 := s1.(server := s1.server.(blocks := s1.server.blocks - {m.block}));
    Meet(c, digest, s1, Free(m.block), s2);
    s' := Allocated(s2, m.block, 1, Fresh(0, m.lease, m.generation, 1));
    Meet(c, digest, s2, Allocate(m.block, 1, 0, m.lease, m.generation, 1), s');
  }

  /**
   If a block id may come back with an old lease and generation, there is a run in which a
   transfer succeeds and is applied a second time, by datagrams that were sent for the first.
   */
  lemma AppliedTwice(c: Config, digest: seq<byte> -> Digest, m: Made) returns (s: State)
    requires Runs(c)
    ensures Reaches(c, digest, s) && s.made == map[0 := m, 1 := m]
    ensures TheKey(m) in s.senders && s.senders[TheKey(m)].phase == Succeeded
    ensures EntryAt(s.log, TheKey(m), 0, 0) && EntryAt(s.log, TheKey(m), 1, 0) && !Once(s, TheKey(m))
  {
    hide Reaches, Quiet, Fresh;
    var s1 := FirstPass(c, digest, m);
    var s2 := ComesBack(c, digest, s1, m);
    var s3 := Opened(c, digest, s2, m, 1);
    var s4 := Filled(c, digest, s3, m, 1);
    s := Finished(c, digest, s4, m, 1);
    assert EntryAt(s.log, TheKey(m), 0, 0) && EntryAt(s.log, TheKey(m), 1, 0);
  }

  /**
   Every transfer is applied at most once, counting all incarnations, in every run that brings ids
   back only as `reusable` allows, if and only if it allows no lease and generation to come back.
   */
  lemma OnceExactly(c: Config, digest: seq<byte> -> Digest, reusable: Made -> bool)
    requires Runs(c)
    ensures (forall m :: !reusable(m)) <==> forall s :: OnceInAll(c, digest, reusable, s)
  {
    if forall m :: !reusable(m) {
      forall s ensures OnceInAll(c, digest, reusable, s) {
        if Reaches(c, digest, s) && OnlyReuses(s, reusable) {
          forall k | k in s.senders ensures Once(s, k) { OnceReached(c, digest, s, k); }
        }
      }
    } else {
      var m :| reusable(m);
      var s := AppliedTwice(c, digest, m);
      assert OnlyReuses(s, reusable);
      assert !OnceInAll(c, digest, reusable, s);
    }
  }

  lemma OnceReached(c: Config, digest: seq<byte> -> Digest, s: State, k: Key)
    requires c.payloadBytes > 0 && Reaches(c, digest, s) && k in s.senders && NoReuse(s)
    ensures Once(s, k)
  {
    hide IsRun;
    var states, events :| |states| > 0 && IsRun(c, digest, states, events) && states[|states| - 1] == s;
    OnceWithoutReuse(c, digest, states, events, |states| - 1, k);
  }
}
