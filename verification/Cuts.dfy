/**
 What a cut makes visible between groups: inputs, outputs, persistent buffers, and
 the readers each boundary value still has.
 */
module Cuts {
  import opened Graph

  predicate NoDuplicates(xs: seq<nat>) {
    forall j, k | 0 <= j < k < |xs| :: xs[j] != xs[k]
  }

  /** Everything the listed nodes read, in order, with repetitions. */
  function Reads(g: Graph, ids: seq<nat>): (r: seq<nat>)
    requires AllCalls(g, ids)
    ensures forall x :: x in r <==> exists j :: 0 <= j < |ids| && x in g.nodes[ids[j]].args
  {
    if ids == [] then []
    else
      assert forall x :: x in ids[..|ids| - 1] ==> x in ids;
      Reads(g, ids[..|ids| - 1]) + g.nodes[ids[|ids| - 1]].args
  }

  /** First occurrences of the elements that are not members. */
  function FirstOutside(xs: seq<nat>, members: seq<nat>): (r: seq<nat>)
    ensures forall x :: x in r <==> x in xs && x !in members
    ensures NoDuplicates(r)
  {
    if xs == [] then []
    else
      var r, x := FirstOutside(xs[..|xs| - 1], members), xs[|xs| - 1];
      assert xs == xs[..|xs| - 1] + [x];
      if x in members || x in r then r else r + [x]
  }

  function GroupInputs(g: Graph, ids: seq<nat>): (r: seq<nat>)
    requires AllCalls(g, ids)
    ensures NoDuplicates(r)
    ensures forall x :: x in r <==> x !in ids && exists j :: 0 <= j < |ids| && x in g.nodes[ids[j]].args
  {
    FirstOutside(Reads(g, ids), ids)
  }

  /** Somebody outside the group uses `v`: another node, or the graph output. */
  predicate UsedOutside(g: Graph, ids: seq<nat>, v: nat) {
    v in g.output || exists c :: 0 <= c < |g.nodes| && g.nodes[c].Call? && v in g.nodes[c].args && c !in ids
  }

  function GroupOutputsOf(g: Graph, all: seq<nat>, ids: seq<nat>): (r: seq<nat>)
    ensures forall v :: v in r <==> v in ids && UsedOutside(g, all, v)
    ensures NoDuplicates(ids) ==> NoDuplicates(r)
  {
    if ids == [] then []
    else
      var r, v := GroupOutputsOf(g, all, ids[..|ids| - 1]), ids[|ids| - 1];
      assert ids == ids[..|ids| - 1] + [v];
      assert NoDuplicates(ids) ==> NoDuplicates(ids[..|ids| - 1]) && v !in ids[..|ids| - 1];
      if UsedOutside(g, all, v) then r + [v] else r
  }

  function GroupOutputs(g: Graph, ids: seq<nat>): (r: seq<nat>)
    ensures forall v :: v in r <==> v in ids && UsedOutside(g, ids, v)
    ensures NoDuplicates(ids) ==> NoDuplicates(r)
  {
    GroupOutputsOf(g, ids, ids)
  }

  function BuffersOf(g: Graph, ids: seq<nat>): set<nat>
    requires AllCalls(g, ids)
  {
    set j | 0 <= j < |ids| && g.nodes[ids[j]].buffer.Some? :: g.nodes[ids[j]].buffer.value
  }

  /** The buffers of the group's BatchNorm nodes: the only ones execution replaces. */
  function MutableBuffers(g: Graph, ids: seq<nat>): set<nat>
    requires AllCalls(g, ids)
  {
    set j | 0 <= j < |ids| && g.nodes[ids[j]].buffer.Some? && g.nodes[ids[j]].mutable :: g.nodes[ids[j]].buffer.value
  }

  /** No group reads a buffer that another group's BatchNorm replaces. */
  ghost predicate BuffersApart(g: Graph, cut: seq<seq<nat>>)
    requires forall i | 0 <= i < |cut| :: AllCalls(g, cut[i])
  {
    forall i, j | 0 <= i < |cut| && 0 <= j < |cut| && i != j :: MutableBuffers(g, cut[i]) !! BuffersOf(g, cut[j])
  }

  predicate CutCalls(g: Graph, cut: seq<seq<nat>>) {
    forall i | 0 <= i < |cut| :: AllCalls(g, cut[i])
  }

  // ---- Readers ----

  /** Group `j` reads `v` across its boundary; position `|cut|` is the graph output. */
  predicate ReadsAt(g: Graph, cut: seq<seq<nat>>, v: nat, j: nat)
    requires CutCalls(g, cut)
  {
    if j < |cut| then v in GroupInputs(g, cut[j]) else j == |cut| && v in g.output
  }

  /** The recorded consumer positions below `n`, in order. */
  function Consumers(g: Graph, cut: seq<seq<nat>>, v: nat, n: nat): (r: seq<nat>)
    requires CutCalls(g, cut)
    ensures forall j: nat :: j in r <==> j < n && ReadsAt(g, cut, v, j)
    ensures Ascending(r)
  {
    if n == 0 then []
    else
      var r := Consumers(g, cut, v, n - 1);
      assert forall k | 0 <= k < |r| :: r[k] in r;
      if ReadsAt(g, cut, v, n - 1) then r + [n - 1] else r
  }

  /** The positions at or after `i` that still read `v`. */
  function Pending(g: Graph, cut: seq<seq<nat>>, v: nat, i: nat): set<nat>
    requires CutCalls(g, cut)
  {
    set j | i <= j <= |cut| && ReadsAt(g, cut, v, j)
  }

  function NextUse(g: Graph, cut: seq<seq<nat>>, v: nat, i: nat): (r: Option<nat>)
    requires CutCalls(g, cut) && i <= |cut| + 1
    ensures r.None? <==> Pending(g, cut, v, i) == {}
    ensures r.Some? ==> r.value in Pending(g, cut, v, i) && forall j | j in Pending(g, cut, v, i) :: r.value <= j
    decreases |cut| + 1 - i
  {
    if i > |cut| then None
    else if ReadsAt(g, cut, v, i) then
      assert i in Pending(g, cut, v, i);
      Some(i)
    else
      assert Pending(g, cut, v, i) == Pending(g, cut, v, i + 1);
      NextUse(g, cut, v, i + 1)
  }

  /** The first recorded consumer above `i`. */
  function FirstAbove(xs: seq<nat>, i: nat): (r: Option<nat>)
    ensures r.None? <==> forall j | j in xs :: j <= i
    ensures Ascending(xs) && r.Some? ==> r.value in xs && r.value > i && forall j | j in xs && j > i :: r.value <= j
  {
    if xs == [] then None
    else
      assert xs[0] in xs && forall x :: x in xs <==> x == xs[0] || x in xs[1..];
      assert Ascending(xs) ==> Ascending(xs[1..]);
      if xs[0] > i then Some(xs[0]) else FirstAbove(xs[1..], i)
  }

  lemma {:induction false} AscendingCount(xs: seq<nat>, elements: set<nat>)
    requires Ascending(xs) && forall x: nat :: x in elements <==> x in xs
    ensures |xs| == |elements|
  {
    if xs == [] {
      assert elements == {};
    } else {
      var n := |xs| - 1;
      var rest := elements - {xs[n]};
      forall x: nat ensures x in rest <==> x in xs[..n] {
        assert xs == xs[..n] + [xs[n]];
      }
      AscendingCount(xs[..n], rest);
    }
  }

  /** The recorded consumer list counts exactly the true readers. */
  lemma ConsumersArePending(g: Graph, cut: seq<seq<nat>>, v: nat)
    requires CutCalls(g, cut)
    ensures |Consumers(g, cut, v, |cut| + 1)| == |Pending(g, cut, v, 0)|
  {
    var xs := Consumers(g, cut, v, |cut| + 1);
    AscendingCount(xs, Pending(g, cut, v, 0));
  }

  lemma FirstAboveIsNextUse(g: Graph, cut: seq<seq<nat>>, v: nat, i: nat)
    requires CutCalls(g, cut) && i <= |cut|
    ensures FirstAbove(Consumers(g, cut, v, |cut| + 1), i) == NextUse(g, cut, v, i + 1)
  {
    var xs := Consumers(g, cut, v, |cut| + 1);
    var r, s := FirstAbove(xs, i), NextUse(g, cut, v, i + 1);
    if r.Some? { assert r.value in Pending(g, cut, v, i + 1); }
    if s.Some? { assert s.value in xs; }
  }

  lemma FirstConsumerIsNextUse(g: Graph, cut: seq<seq<nat>>, v: nat)
    requires CutCalls(g, cut)
    ensures var xs := Consumers(g, cut, v, |cut| + 1);
            NextUse(g, cut, v, 0) == if xs == [] then None else Some(xs[0])
  {
    var xs := Consumers(g, cut, v, |cut| + 1);
    var s := NextUse(g, cut, v, 0);
    if xs != [] { assert xs[0] in xs; assert xs[0] in Pending(g, cut, v, 0); }
    if s.Some? { assert s.value in xs; }
  }

  /** Passing group `i` retires it as a reader of its inputs, and of nothing else. */
  lemma PendingStep(g: Graph, cut: seq<seq<nat>>, v: nat, i: nat)
    requires CutCalls(g, cut) && i < |cut|
    ensures v in GroupInputs(g, cut[i]) ==> |Pending(g, cut, v, i + 1)| + 1 == |Pending(g, cut, v, i)|
    ensures v !in GroupInputs(g, cut[i]) ==> Pending(g, cut, v, i + 1) == Pending(g, cut, v, i)
    ensures v !in GroupInputs(g, cut[i]) ==> NextUse(g, cut, v, i + 1) == NextUse(g, cut, v, i)
  {
    if v in GroupInputs(g, cut[i]) {
      assert Pending(g, cut, v, i) == {i} + Pending(g, cut, v, i + 1);
    }
  }

  // ---- Boundary values ----

  /** Values visible between groups before group `i`: placeholders and earlier groups' outputs. */
  predicate Boundary(g: Graph, cut: seq<seq<nat>>, v: nat, i: nat) {
    && v < |g.nodes|
    && (g.nodes[v].Placeholder? || exists j :: 0 <= j < i && j < |cut| && v in GroupOutputs(g, cut[j]))
  }

  lemma {:induction false} InFlatten(cut: seq<seq<nat>>, v: nat)
    ensures v in Flatten(cut) <==> exists j :: 0 <= j < |cut| && v in cut[j]
  {
    if cut != [] {
      var n := |cut| - 1;
      InFlatten(cut[..n], v);
      if v in Flatten(cut[..n]) {
        var j :| 0 <= j < n && v in cut[..n][j];
        assert v in cut[j];
      }
      if j :| 0 <= j < |cut| && v in cut[j] {
        if j < n { assert v in cut[..n][j]; }
      }
    }
  }

  /** Every call sits in some group of a cut. */
  lemma GroupOf(g: Graph, cut: seq<seq<nat>>, c: nat) returns (j: nat)
    requires IsCut(g, cut) && c < |g.nodes| && g.nodes[c].Call?
    ensures j < |cut| && c in cut[j]
  {
    assert c in Calls(g, |g.nodes|);
    InFlatten(cut, c);
    j :| 0 <= j < |cut| && c in cut[j];
  }

  /** Nodes of an earlier group precede nodes of a later one. */
  lemma GroupsInOrder(g: Graph, cut: seq<seq<nat>>, i: nat, j: nat, x: nat, y: nat)
    requires IsCut(g, cut) && i < j < |cut| && x in cut[i] && y in cut[j]
    ensures x < y
  {
    CutOrder(g, cut, j);
    assert x in cut[..j][i];
    InFlatten(cut[..j], x);
    var k :| 0 <= k < |cut[j]| && cut[j][k] == y;
  }

  lemma OneGroup(g: Graph, cut: seq<seq<nat>>, i: nat, j: nat, x: nat)
    requires IsCut(g, cut) && i < |cut| && j < |cut| && x in cut[i] && x in cut[j]
    ensures i == j
  {
    if i < j {
      GroupsInOrder(g, cut, i, j, x, x);
    } else if j < i {
      GroupsInOrder(g, cut, j, i, x, x);
    }
  }

  /** A reader's group is not before the group of what it reads. */
  lemma ReaderNotBefore(g: Graph, cut: seq<seq<nat>>, i: nat, j: nat, v: nat, c: nat)
    requires WellFormed(g) && IsCut(g, cut) && i < |cut| && j < |cut| && v in cut[i] && c in cut[j]
    requires c < |g.nodes| && g.nodes[c].Call? && v in g.nodes[c].args
    ensures i <= j
  {
    assert v < c;
    if j < i {
      GroupsInOrder(g, cut, j, i, c, v);
    }
  }

  /** Whatever group `i` reads across its boundary is visible there, and group `i` is a pending reader. */
  lemma InputsAreBoundary(g: Graph, cut: seq<seq<nat>>, i: nat, v: nat)
    requires WellFormed(g) && IsCut(g, cut) && CutCalls(g, cut) && i < |cut| && v in GroupInputs(g, cut[i])
    ensures Boundary(g, cut, v, i)
    ensures i in Pending(g, cut, v, i)
  {
    assert ReadsAt(g, cut, v, i);
    var k :| 0 <= k < |cut[i]| && v in g.nodes[cut[i][k]].args;
    var c := cut[i][k];
    assert v < c;
    if g.nodes[v].Call? {
      var j := GroupOf(g, cut, v);
      ReaderNotBefore(g, cut, j, i, v, c);
      assert j != i;
      if c in cut[j] { OneGroup(g, cut, i, j, c); }
      assert v in GroupOutputs(g, cut[j]);
    }
  }

  lemma OutputReadLater(g: Graph, cut: seq<seq<nat>>, i: nat, v: nat, j: nat)
    requires WellFormed(g) && IsCut(g, cut) && CutCalls(g, cut) && i < |cut| && v in cut[i]
    requires ReadsAt(g, cut, v, j)
    ensures i < j
  {
    if j < |cut| {
      var k :| 0 <= k < |cut[j]| && v in g.nodes[cut[j][k]].args;
      ReaderNotBefore(g, cut, i, j, v, cut[j][k]);
    }
  }

  /** Every group output has a reader, and all its readers come after its group. */
  lemma OutputsAreRead(g: Graph, cut: seq<seq<nat>>, i: nat, v: nat)
    requires WellFormed(g) && IsCut(g, cut) && CutCalls(g, cut) && i < |cut| && v in GroupOutputs(g, cut[i])
    ensures Pending(g, cut, v, i + 1) != {}
    ensures Pending(g, cut, v, 0) == Pending(g, cut, v, i + 1)
  {
    forall j | 0 <= j <= |cut| && ReadsAt(g, cut, v, j) ensures i < j {
      OutputReadLater(g, cut, i, v, j);
    }
    if v in g.output {
      assert ReadsAt(g, cut, v, |cut|);
      assert |cut| in Pending(g, cut, v, i + 1);
    } else {
      var c :| 0 <= c < |g.nodes| && g.nodes[c].Call? && v in g.nodes[c].args && c !in cut[i];
      var j := GroupOf(g, cut, c);
      if v in cut[j] { OneGroup(g, cut, i, j, v); }
      var k :| 0 <= k < |cut[j]| && cut[j][k] == c;
      assert ReadsAt(g, cut, v, j);
      assert j in Pending(g, cut, v, i + 1);
    }
  }
}
