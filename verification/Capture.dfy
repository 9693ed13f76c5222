/**
 What capture admits. It scans the nodes in order and rejects a module whose parameters or
 buffers were used before. It does not reject a plain read of a buffer that an earlier BatchNorm
 replaces; a cut between the two leaves a stale copy. This module finds the condition on the
 graph under which every cut is faithful.
 */
module Capture {
  import opened Graph
  import opened Cuts
  import opened Backward
  import opened SharedBuffers

  /** A plain read of a buffer. */
  predicate IsRead(node: Node) {
    node.Call? && node.args == [] && node.params == [] && !node.mutable
  }

  /** A module call: it has arguments, and may own parameters and a buffer. */
  predicate IsModule(node: Node) {
    node.Call? && !IsRead(node) && (node.buffer.Some? || node.params != [])
  }

  function BufferSet(node: Node): set<nat> {
    if node.Call? && node.buffer.Some? then {node.buffer.value} else {}
  }

  function ParamSet(node: Node): set<nat> {
    if node.Call? then set k | 0 <= k < |node.params| :: node.params[k] else {}
  }

  /** A module of the graph uses nothing that an earlier node uses. */
  predicate NothingReused(g: Graph, i: nat)
    requires i < |g.nodes|
  {
    IsModule(g.nodes[i]) ==>
      forall j | 0 <= j < i :: ParamSet(g.nodes[i]) !! ParamSet(g.nodes[j]) && BufferSet(g.nodes[i]) !! BufferSet(g.nodes[j])
  }

  predicate Admitted(g: Graph) {
    forall i | 0 <= i < |g.nodes| :: NothingReused(g, i)
  }

  function UsedParams(g: Graph, n: nat): set<nat>
    requires n <= |g.nodes|
  {
    set i, p | 0 <= i < n && p in ParamSet(g.nodes[i]) :: p
  }

  function UsedBuffers(g: Graph, n: nat): set<nat>
    requires n <= |g.nodes|
  {
    set i, b | 0 <= i < n && b in BufferSet(g.nodes[i]) :: b
  }

  /** The scan over the nodes: it admits exactly the graphs in which no module reuses anything. */
  method Scan(g: Graph) returns (ok: bool)
    ensures ok <==> Admitted(g)
  {
    var usedParams, usedBuffers := {}, {};
    hide UsedParams, UsedBuffers, NothingReused, ParamSet, BufferSet, IsModule;
    NothingUsed(g);
    for i := 0 to |g.nodes|
      invariant usedParams == UsedParams(g, i) && usedBuffers == UsedBuffers(g, i)
      invariant forall j | 0 <= j < i :: NothingReused(g, j)
    {
      var node := g.nodes[i];
      if IsModule(node) && !(ParamSet(node) !! usedParams && BufferSet(node) !! usedBuffers) {
        Reused(g, i);
        return false;
      }
      NotReused(g, i);
      usedParams, usedBuffers := usedParams + ParamSet(node), usedBuffers + BufferSet(node);
      UsedStep(g, i);
    }
    ok := true;
  }

  lemma Reused(g: Graph, i: nat)
    requires i < |g.nodes| && IsModule(g.nodes[i])
    requires !(ParamSet(g.nodes[i]) !! UsedParams(g, i) && BufferSet(g.nodes[i]) !! UsedBuffers(g, i))
    ensures !NothingReused(g, i)
  {
    hide ParamSet, BufferSet, IsModule;
    if x :| x in ParamSet(g.nodes[i]) && x in UsedParams(g, i) {
      var j :| 0 <= j < i && x in ParamSet(g.nodes[j]);
    } else {
      var x :| x in BufferSet(g.nodes[i]) && x in UsedBuffers(g, i);
      var j :| 0 <= j < i && x in BufferSet(g.nodes[j]);
    }
  }

  lemma NotReused(g: Graph, i: nat)
    requires i < |g.nodes|
    requires !IsModule(g.nodes[i]) || (ParamSet(g.nodes[i]) !! UsedParams(g, i) && BufferSet(g.nodes[i]) !! UsedBuffers(g, i))
    ensures NothingReused(g, i)
  {
    hide ParamSet, BufferSet, IsModule;
  }

  lemma NothingUsed(g: Graph)
    ensures UsedParams(g, 0) == {} && UsedBuffers(g, 0) == {}
  {
  }

  lemma UsedStep(g: Graph, i: nat)
    requires i < |g.nodes|
    ensures UsedParams(g, i + 1) == UsedParams(g, i) + ParamSet(g.nodes[i])
    ensures UsedBuffers(g, i + 1) == UsedBuffers(g, i) + BufferSet(g.nodes[i])
  {
    hide ParamSet, BufferSet;
  }

  // ---- Parameters ----

  /** The names of one module's parameters are different. */
  predicate OwnApart(g: Graph) {
    forall c, j, k | 0 <= c < |g.nodes| && g.nodes[c].Call? && 0 <= j < k < |g.nodes[c].params| :: g.nodes[c].params[j] != g.nodes[c].params[k]
  }

  /** So in an admitted graph each parameter belongs to one place of one call. */
  lemma AdmittedApart(g: Graph)
    requires Admitted(g) && OwnApart(g)
    ensures ParamsApart(g)
  {
    forall c, d, j, k |
        0 <= c < |g.nodes| && 0 <= d < |g.nodes| && g.nodes[c].Call? && g.nodes[d].Call?
        && 0 <= j < |g.nodes[c].params| && 0 <= k < |g.nodes[d].params|
      ensures g.nodes[c].params[j] == g.nodes[d].params[k] ==> c == d && j == k
    {
      assert g.nodes[c].params[j] in ParamSet(g.nodes[c]) && g.nodes[d].params[k] in ParamSet(g.nodes[d]);
      assert NothingReused(g, c) && NothingReused(g, d);
      if c == d && j < k { assert g.nodes[c].params[j] != g.nodes[c].params[k]; }
      if c == d && k < j { assert g.nodes[c].params[k] != g.nodes[c].params[j]; }
    }
  }

  // ---- Buffers ----

  /** Nodes `c` and `d` share a buffer that `c` replaces. */
  predicate Clash(g: Graph, c: int, d: int) {
    0 <= c < |g.nodes| && 0 <= d < |g.nodes| && c != d && g.nodes[c].Call? && g.nodes[d].Call?
    && g.nodes[c].mutable && g.nodes[c].buffer.Some? && g.nodes[d].buffer == g.nodes[c].buffer
  }

  /** No BatchNorm's buffer is used by another node. */
  ghost predicate Private(g: Graph) {
    forall c, d :: !Clash(g, c, d)
  }

  /** A later plain read of a buffer a BatchNorm replaces. */
  predicate LaterRead(g: Graph, c: int, d: int) {
    c < d && Clash(g, c, d) && IsRead(g.nodes[d])
  }

  /** In an admitted graph only a plain read after the BatchNorm can share its buffer. */
  lemma PrivateUnlessRead(g: Graph)
    requires Admitted(g)
    ensures Private(g) <==> forall c, d :: !LaterRead(g, c, d)
  {
    forall c, d | Clash(g, c, d) ensures LaterRead(g, c, d) {
      var b := g.nodes[c].buffer.value;
      assert b in BufferSet(g.nodes[c]) && b in BufferSet(g.nodes[d]);
      assert NothingReused(g, c) && NothingReused(g, d);
    }
    if c, d :| Clash(g, c, d) {
      assert LaterRead(g, c, d);
    }
  }

  lemma ApartIfPrivate(g: Graph, cut: seq<seq<nat>>)
    requires Private(g) && IsCut(g, cut) && CutCalls(g, cut)
    ensures BuffersApart(g, cut)
  {
    forall i, j | 0 <= i < |cut| && 0 <= j < |cut| && i != j ensures MutableBuffers(g, cut[i]) !! BuffersOf(g, cut[j]) {
      forall b | b in MutableBuffers(g, cut[i]) ensures b !in BuffersOf(g, cut[j]) {
        var k :| 0 <= k < |cut[i]| && g.nodes[cut[i][k]].mutable && g.nodes[cut[i][k]].buffer == Some(b);
        forall l | 0 <= l < |cut[j]| && g.nodes[cut[j][l]].buffer.Some? ensures g.nodes[cut[j][l]].buffer.value != b {
          assert !Clash(g, cut[i][k], cut[j][l]);
          if cut[i][k] == cut[j][l] { OneGroup(g, cut, i, j, cut[i][k]); }
        }
      }
    }
  }

  /** Every node a group of its own. */
  function Singles(ids: seq<nat>): (r: seq<seq<nat>>)
    ensures |r| == |ids|
  {
    seq(|ids|, i requires 0 <= i < |ids| => [ids[i]])
  }

  lemma {:induction false} SinglesFlatten(ids: seq<nat>)
    ensures Flatten(Singles(ids)) == ids
  {
    if ids != [] {
      SinglesFlatten(ids[..|ids| - 1]);
      assert Singles(ids)[..|ids| - 1] == Singles(ids[..|ids| - 1]);
    }
  }

  lemma SinglesIsCut(g: Graph)
    ensures IsCut(g, Singles(Calls(g, |g.nodes|))) && CutCalls(g, Singles(Calls(g, |g.nodes|)))
  {
    SinglesFlatten(Calls(g, |g.nodes|));
    CallsAreCalls(g);
  }

  lemma ClashApart(g: Graph, c: nat, d: nat)
    requires Clash(g, c, d)
    ensures IsCut(g, Singles(Calls(g, |g.nodes|))) && CutCalls(g, Singles(Calls(g, |g.nodes|)))
    ensures !BuffersApart(g, Singles(Calls(g, |g.nodes|)))
  {
    SinglesIsCut(g);
    var ids := Calls(g, |g.nodes|);
    var cut := Singles(ids);
    assert c in ids && d in ids;
    var i, j :| 0 <= i < |ids| && 0 <= j < |ids| && ids[i] == c && ids[j] == d;
    assert cut[i][0] == c && cut[j][0] == d;
    var b := g.nodes[c].buffer.value;
    assert b in MutableBuffers(g, cut[i]) && b in BuffersOf(g, cut[j]);
  }

  /** Every cut keeps every model's buffers right. */
  ghost predicate FaithfulHowever(g: Graph, cut: seq<seq<nat>>) {
    IsCut(g, cut) && CutCalls(g, cut) ==> forall ops, w0 :: CopiesFaithful(g, ops, cut, w0)
  }

  /**
   Every cut of an admitted graph is faithful for every model if and only if no BatchNorm's
   buffer is read plainly after it. Capture could check this; it does not.
   */
  lemma EveryCutFaithful(g: Graph)
    requires Admitted(g)
    ensures (forall cut :: FaithfulHowever(g, cut)) <==> forall c, d :: !LaterRead(g, c, d)
  {
    PrivateUnlessRead(g);
    if Private(g) {
      forall cut ensures FaithfulHowever(g, cut) {
        if IsCut(g, cut) && CutCalls(g, cut) {
          ApartIfPrivate(g, cut);
          FaithfulIffApart(g, cut);
        }
      }
    } else {
      var c, d :| Clash(g, c, d);
      ClashApart(g, c, d);
      FaithfulIffApart(g, Singles(Calls(g, |g.nodes|)));
      assert !FaithfulHowever(g, Singles(Calls(g, |g.nodes|)));
    }
  }

  // ---- A graph that is admitted and cut wrongly ----

  /** An input goes through a BatchNorm; its running statistic is read and added to the result. */
  function StaleGraph(): Graph {
    Graph([Placeholder, Call([0], Some(7), true, [3]), Call([], Some(7), false, []), Call([1, 2], None, false, [])], [3])
  }

  function StaleCut(): seq<seq<nat>> {
    [[1], [2, 3]]
  }

  lemma PairFlatten(a: seq<nat>, b: seq<nat>)
    ensures Flatten([a, b]) == a + b
  {
    assert [a, b][..1] == [a] && [a][..0] == [];
    assert Flatten([a]) == Flatten([]) + a;
  }

  lemma StaleCalls()
    ensures Calls(StaleGraph(), 4) == [1, 2, 3]
  {
    hide Calls;
    CallsStep(StaleGraph(), 0);
    CallsStep(StaleGraph(), 1);
    CallsStep(StaleGraph(), 2);
    CallsStep(StaleGraph(), 3);
  }

  lemma CallsStep(g: Graph, n: nat)
    requires n < |g.nodes|
    ensures Calls(g, 0) == []
    ensures Calls(g, n + 1) == if g.nodes[n].Call? then Calls(g, n) + [n] else Calls(g, n)
  {
  }

  lemma StaleCutIsCut()
    ensures WellFormed(StaleGraph()) && IsCut(StaleGraph(), StaleCut()) && CutCalls(StaleGraph(), StaleCut())
  {
    hide Calls, Flatten;
    PairFlatten([1], [2, 3]);
    StaleCalls();
  }

  /** Capture admits it; cut after the BatchNorm, the read sees the statistic from before the update. */
  lemma CaptureAdmitsAStaleCut(w0: World)
    ensures Admitted(StaleGraph()) && WellFormed(StaleGraph()) && IsCut(StaleGraph(), StaleCut()) && CutCalls(StaleGraph(), StaleCut())
    ensures !CopiesFaithful(StaleGraph(), Counting(), StaleCut(), w0)
  {
    hide IsCut;
    var g, cut := StaleGraph(), StaleCut();
    StaleCutIsCut();
    assert cut[0][0] == 1 && cut[1][0] == 2;
    assert 7 in MutableBuffers(g, cut[0]) && 7 in BuffersOf(g, cut[1]);
    Stale(g, cut, 0, 1, 7, w0);
  }
}
