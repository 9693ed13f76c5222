/**
 Groups and their records. The first partition of a captured graph is a cut, and so is whatever
 admission makes of it by splitting; with every split the handles are dealt out again.
 */
module Repartition {
  import opened Graph
  import opened Cuts
  import opened Backward
  import opened Partition
  import opened Admission
  import opened Capture

  function ParamsOf(g: Graph, ids: seq<nat>): set<nat>
    requires AllCalls(g, ids)
  {
    set j, k | 0 <= j < |ids| && 0 <= k < |g.nodes[ids[j]].params| :: g.nodes[ids[j]].params[k]
  }

  function ParamNames(g: Graph, cut: seq<seq<nat>>): (r: seq<set<nat>>)
    requires CutCalls(g, cut)
    ensures |r| == |cut|
  {
    seq(|cut|, i requires 0 <= i < |cut| => ParamsOf(g, cut[i]))
  }

  function BufferNames(g: Graph, cut: seq<seq<nat>>): (r: seq<set<nat>>)
    requires CutCalls(g, cut)
    ensures |r| == |cut|
  {
    seq(|cut|, i requires 0 <= i < |cut| => BuffersOf(g, cut[i]))
  }

  /** No two nodes name the same buffer. */
  ghost predicate NoBufferTwice(g: Graph) {
    forall c, d | 0 <= c < |g.nodes| && 0 <= d < |g.nodes| && g.nodes[c].Call? && g.nodes[d].Call? && g.nodes[c].buffer.Some? ::
      g.nodes[d].buffer == g.nodes[c].buffer ==> c == d
  }

  /** In whatever way the graph is cut, no parameter is in two groups. */
  lemma ParamsStayApart(g: Graph, cut: seq<seq<nat>>)
    requires ParamsApart(g) && IsCut(g, cut) && CutCalls(g, cut)
    ensures NamesApart(ParamNames(g, cut))
  {
    forall i, j, p | 0 <= i < |cut| && 0 <= j < |cut| && i != j && p in ParamsOf(g, cut[i]) ensures p !in ParamsOf(g, cut[j]) {
      var a, k :| 0 <= a < |cut[i]| && 0 <= k < |g.nodes[cut[i][a]].params| && g.nodes[cut[i][a]].params[k] == p;
      forall b, l | 0 <= b < |cut[j]| && 0 <= l < |g.nodes[cut[j][b]].params| ensures g.nodes[cut[j][b]].params[l] != p {
        if cut[i][a] == cut[j][b] { OneGroup(g, cut, i, j, cut[i][a]); }
      }
    }
  }

  lemma BuffersStayApart(g: Graph, cut: seq<seq<nat>>)
    requires NoBufferTwice(g) && IsCut(g, cut) && CutCalls(g, cut)
    ensures NamesApart(BufferNames(g, cut))
  {
    forall i, j, b | 0 <= i < |cut| && 0 <= j < |cut| && i != j && b in BuffersOf(g, cut[i]) ensures b !in BuffersOf(g, cut[j]) {
      var a :| 0 <= a < |cut[i]| && g.nodes[cut[i][a]].buffer == Some(b);
      forall l | 0 <= l < |cut[j]| && g.nodes[cut[j][l]].buffer.Some? ensures g.nodes[cut[j][l]].buffer.value != b {
        if cut[i][a] == cut[j][l] { OneGroup(g, cut, i, j, cut[i][a]); }
      }
    }
  }

  /** Every cut mentions every parameter and every buffer of the graph somewhere. */
  lemma ParamsCovered(g: Graph, cut: seq<seq<nat>>, n: nat)
    requires IsCut(g, cut) && CutCalls(g, cut)
    ensures Covered(ParamNames(g, cut), n) <==>
              exists c, k :: 0 <= c < |g.nodes| && g.nodes[c].Call? && 0 <= k < |g.nodes[c].params| && g.nodes[c].params[k] == n
  {
    if Covered(ParamNames(g, cut), n) {
      var i :| 0 <= i < |cut| && n in ParamsOf(g, cut[i]);
      var j, k :| 0 <= j < |cut[i]| && 0 <= k < |g.nodes[cut[i][j]].params| && g.nodes[cut[i][j]].params[k] == n;
    }
    if c, k :| 0 <= c < |g.nodes| && g.nodes[c].Call? && 0 <= k < |g.nodes[c].params| && g.nodes[c].params[k] == n {
      var i := GroupOf(g, cut, c);
      var j :| 0 <= j < |cut[i]| && cut[i][j] == c;
      assert n in ParamsOf(g, cut[i]);
      assert n in ParamNames(g, cut)[i];
    }
  }

  lemma BuffersCovered(g: Graph, cut: seq<seq<nat>>, n: nat)
    requires IsCut(g, cut) && CutCalls(g, cut)
    ensures Covered(BufferNames(g, cut), n) <==> exists c :: 0 <= c < |g.nodes| && g.nodes[c].Call? && g.nodes[c].buffer == Some(n)
  {
    if Covered(BufferNames(g, cut), n) {
      var i :| 0 <= i < |cut| && n in BuffersOf(g, cut[i]);
      var j :| 0 <= j < |cut[i]| && g.nodes[cut[i][j]].buffer == Some(n);
    }
    if c :| 0 <= c < |g.nodes| && g.nodes[c].Call? && g.nodes[c].buffer == Some(n) {
      var i := GroupOf(g, cut, c);
      var j :| 0 <= j < |cut[i]| && cut[i][j] == c;
      assert n in BufferNames(g, cut)[i];
    }
  }

  // ---- Records ----

  /** A table keeps entries only for names its group mentions. */
  ghost predicate FiledBy(records: Records, names: seq<set<nat>>) {
    |records| == |names| && forall i | 0 <= i < |records| :: records[i].Keys <= names[i]
  }

  /** Every group has an entry for every name it mentions. */
  ghost predicate Full(records: Records, names: seq<set<nat>>) {
    |records| == |names| && forall i | 0 <= i < |records| :: records[i].Keys == names[i]
  }

  lemma DealtFiled(all: map<nat, nat>, names: seq<set<nat>>)
    ensures FiledBy(Redistribute(all, names), names)
  {
  }

  /** Dealing the entries out again loses none and doubles none, however few of the names have one. */
  lemma DealtConserves(before: Records, names: seq<set<nat>>, names': seq<set<nat>>)
    requires HeldOnce(before) && FiledBy(before, names) && NamesApart(names) && NamesApart(names')
    requires forall n :: Covered(names, n) ==> Covered(names', n)
    ensures Conserved(before, Redistribute(Merge(before), names'))
  {
    var all := Merge(before);
    var after := Redistribute(all, names');
    forall j, n, h | HeldAt(after, j, n, h) ensures exists i :: HeldAt(before, i, n, h) {
      MergeLast(before, n);
    }
    forall i, n, h | HeldAt(before, i, n, h) ensures exists j :: HeldAt(after, j, n, h) {
      MergeLast(before, n);
      var k :| HeldAt(before, k, n, all[n]);
      assert n in names[i] && n in names[k];
      assert k == i;
      assert Covered(names, n);
      var j :| 0 <= j < |names'| && n in names'[j];
      assert HeldAt(after, j, n, h);
    }
    forall i, j, n, m, h | HeldAt(after, i, n, h) && HeldAt(after, j, m, h) ensures i == j && n == m {
      MergeLast(before, n);
      MergeLast(before, m);
      var a :| HeldAt(before, a, n, h);
      var b :| HeldAt(before, b, m, h);
      assert n in names'[i] && m in names'[j];
    }
  }

  /** A full table stays full. */
  lemma DealtFull(before: Records, names: seq<set<nat>>, names': seq<set<nat>>)
    requires Full(before, names) && forall n :: Covered(names', n) ==> Covered(names, n)
    ensures Full(Redistribute(Merge(before), names'), names')
  {
    forall i, n | 0 <= i < |names'| && n in names'[i] ensures n in Merge(before) {
      MergeLast(before, n);
      assert Covered(names', n);
      var k :| 0 <= k < |names| && n in names[k];
      assert n in before[k];
    }
  }

  lemma ConservedTrans(a: Records, b: Records, c: Records)
    requires Conserved(a, b) && Conserved(b, c)
    ensures Conserved(a, c)
  {
    forall i, n, h | HeldAt(a, i, n, h) ensures exists j :: HeldAt(c, j, n, h) {
      var k :| HeldAt(b, k, n, h);
    }
    forall j, n, h | HeldAt(c, j, n, h) ensures exists i :: HeldAt(a, i, n, h) {
      var k :| HeldAt(b, k, n, h);
    }
  }

  lemma ConservedSelf(a: Records)
    requires HeldOnce(a)
    ensures Conserved(a, a)
  {
  }

  /** The tables of all records: weights, gradients and optimizer state by parameter, buffers by buffer. */
  datatype Tables = Tables(weights: Records, gradients: Records, states: Records, buffers: Records)

  function Dealt(g: Graph, t: Tables, cut: seq<seq<nat>>): Tables
    requires CutCalls(g, cut)
  {
    Tables(Redistribute(Merge(t.weights), ParamNames(g, cut)), Redistribute(Merge(t.gradients), ParamNames(g, cut)),
           Redistribute(Merge(t.states), ParamNames(g, cut)), Redistribute(Merge(t.buffers), BufferNames(g, cut)))
  }

  /** The tables belong to the groups of `cut`, and no handle is in two entries of a table. */
  ghost predicate InOrder(g: Graph, t: Tables, cut: seq<seq<nat>>)
    requires CutCalls(g, cut)
  {
    && Full(t.weights, ParamNames(g, cut)) && FiledBy(t.gradients, ParamNames(g, cut)) && FiledBy(t.states, ParamNames(g, cut))
    && Full(t.buffers, BufferNames(g, cut))
    && HeldOnce(t.weights) && HeldOnce(t.gradients) && HeldOnce(t.states) && (NoBufferTwice(g) ==> HeldOnce(t.buffers))
  }

  /** Every handle is still in exactly one entry; a buffer's as long as no buffer is named twice. */
  ghost predicate AllConserved(g: Graph, before: Tables, after: Tables) {
    && Conserved(before.weights, after.weights) && Conserved(before.gradients, after.gradients) && Conserved(before.states, after.states)
    && (NoBufferTwice(g) ==> Conserved(before.buffers, after.buffers))
  }

  lemma FullIsFiled(records: Records, names: seq<set<nat>>)
    requires Full(records, names)
    ensures FiledBy(records, names)
  {
  }

  lemma SameCover(g: Graph, cut: seq<seq<nat>>, cut': seq<seq<nat>>)
    requires IsCut(g, cut) && CutCalls(g, cut) && IsCut(g, cut') && CutCalls(g, cut')
    ensures forall n :: Covered(ParamNames(g, cut), n) <==> Covered(ParamNames(g, cut'), n)
    ensures forall n :: Covered(BufferNames(g, cut), n) <==> Covered(BufferNames(g, cut'), n)
  {
    hide IsCut, CutCalls, Covered;
    forall n ensures Covered(ParamNames(g, cut), n) <==> Covered(ParamNames(g, cut'), n) {
      ParamsCovered(g, cut, n);
      ParamsCovered(g, cut', n);
    }
    forall n ensures Covered(BufferNames(g, cut), n) <==> Covered(BufferNames(g, cut'), n) {
      BuffersCovered(g, cut, n);
      BuffersCovered(g, cut', n);
    }
  }

  /** From any cut to any other, dealing the handles out again keeps each of them in exactly one record. */
  lemma DealtKeeps(g: Graph, t: Tables, cut: seq<seq<nat>>, cut': seq<seq<nat>>)
    requires ParamsApart(g) && IsCut(g, cut) && CutCalls(g, cut) && IsCut(g, cut') && CutCalls(g, cut') && InOrder(g, t, cut)
    ensures InOrder(g, Dealt(g, t, cut'), cut') && AllConserved(g, t, Dealt(g, t, cut'))
  {
    hide IsCut, CutCalls, ParamsApart, Full, FiledBy, Conserved, HeldOnce, Covered, NamesApart, ParamNames, BufferNames, Merge, Redistribute, NoBufferTwice;
    SameCover(g, cut, cut');
    ParamsStayApart(g, cut);
    ParamsStayApart(g, cut');
    FullIsFiled(t.weights, ParamNames(g, cut));
    DealtConserves(t.weights, ParamNames(g, cut), ParamNames(g, cut'));
    DealtConserves(t.gradients, ParamNames(g, cut), ParamNames(g, cut'));
    DealtConserves(t.states, ParamNames(g, cut), ParamNames(g, cut'));
    DealtFull(t.weights, ParamNames(g, cut), ParamNames(g, cut'));
    DealtFiled(Merge(t.gradients), ParamNames(g, cut'));
    DealtFiled(Merge(t.states), ParamNames(g, cut'));
    DealtFull(t.buffers, BufferNames(g, cut), BufferNames(g, cut'));
    if NoBufferTwice(g) {
      BuffersStayApart(g, cut);
      BuffersStayApart(g, cut');
      FullIsFiled(t.buffers, BufferNames(g, cut));
      DealtConserves(t.buffers, BufferNames(g, cut), BufferNames(g, cut'));
    }
    AfterDealing(t, Dealt(g, t, cut'), g);
  }

  lemma AfterDealing(before: Tables, after: Tables, g: Graph)
    requires AllConserved(g, before, after)
    ensures HeldOnce(after.weights) && HeldOnce(after.gradients) && HeldOnce(after.states) && (NoBufferTwice(g) ==> HeldOnce(after.buffers))
  {
  }

  lemma AllConservedTrans(g: Graph, a: Tables, b: Tables, c: Tables)
    requires AllConserved(g, a, b) && AllConserved(g, b, c)
    ensures AllConserved(g, a, c)
  {
    hide Conserved, NoBufferTwice;
    ConservedTrans(a.weights, b.weights, c.weights);
    ConservedTrans(a.gradients, b.gradients, c.gradients);
    ConservedTrans(a.states, b.states, c.states);
    if NoBufferTwice(g) { ConservedTrans(a.buffers, b.buffers, c.buffers); }
  }

  // ---- Admission ----

  predicate Splits(group: seq<nat>, estimate: seq<nat> -> nat, budget: nat) {
    |group| > 1 && budget > 0 && estimate(group) > budget
  }

  /** What becomes of one group: as long as it is over budget it is halved. */
  function Halved(group: seq<nat>, estimate: seq<nat> -> nat, budget: nat): seq<seq<nat>>
    decreases |group|
  {
    if Splits(group, estimate, budget) then
      Halved(group[..|group| / 2], estimate, budget) + Halved(group[|group| / 2..], estimate, budget)
    else [group]
  }

  /** The two halves are as even as can be, the larger one last, and are halved in turn; a group that fits, or is a single operator, stays. */
  lemma HalvedExactly(group: seq<nat>, estimate: seq<nat> -> nat, budget: nat)
    ensures if |group| > 1 && budget > 0 && estimate(group) > budget
            then exists x, y :: x + y == group && |x| <= |y| <= |x| + 1 && Halved(group, estimate, budget) == Halved(x, estimate, budget) + Halved(y, estimate, budget)
            else Halved(group, estimate, budget) == [group]
  {
    if |group| > 1 && budget > 0 && estimate(group) > budget {
      var x, y := group[..|group| / 2], group[|group| / 2..];
      assert x + y == group && Halved(group, estimate, budget) == Halved(x, estimate, budget) + Halved(y, estimate, budget);
    }
  }

  function AllHalved(cut: seq<seq<nat>>, estimate: seq<nat> -> nat, budget: nat): seq<seq<nat>> {
    if cut == [] then [] else AllHalved(cut[..|cut| - 1], estimate, budget) + Halved(cut[|cut| - 1], estimate, budget)
  }

  lemma {:induction false} AllHalvedAppend(a: seq<seq<nat>>, b: seq<seq<nat>>, estimate: seq<nat> -> nat, budget: nat)
    ensures AllHalved(a + b, estimate, budget) == AllHalved(a, estimate, budget) + AllHalved(b, estimate, budget)
    decreases |b|
  {
    hide Halved;
    if b == [] {
      assert a + b == a;
    } else {
      assert (a + b)[..|a + b| - 1] == a + b[..|b| - 1];
      AllHalvedAppend(a, b[..|b| - 1], estimate, budget);
    }
  }

  lemma OneHalved(group: seq<nat>, estimate: seq<nat> -> nat, budget: nat)
    ensures AllHalved([group], estimate, budget) == Halved(group, estimate, budget)
  {
    hide Halved;
    assert [group][..0] == [];
  }

  /** Splitting a group that is over budget changes nothing about where it all ends. */
  lemma SplitHalves(cut: seq<seq<nat>>, i: nat, estimate: seq<nat> -> nat, budget: nat)
    requires i < |cut| && Splits(cut[i], estimate, budget)
    ensures AllHalved(Split(cut, i), estimate, budget) == AllHalved(cut, estimate, budget)
  {
    hide AllHalved;
    var half := |cut[i]| / 2;
    var x, y := cut[i][..half], cut[i][half..];
    assert cut == cut[..i] + [cut[i]] + cut[i + 1..];
    AllHalvedAppend(cut[..i] + [cut[i]], cut[i + 1..], estimate, budget);
    AllHalvedAppend(cut[..i], [cut[i]], estimate, budget);
    OneHalved(cut[i], estimate, budget);
    assert Split(cut, i) == cut[..i] + [x, y] + cut[i + 1..];
    AllHalvedAppend(cut[..i] + [x, y], cut[i + 1..], estimate, budget);
    AllHalvedAppend(cut[..i], [x, y], estimate, budget);
    assert [x, y] == [x] + [y];
    AllHalvedAppend([x], [y], estimate, budget);
    OneHalved(x, estimate, budget);
    OneHalved(y, estimate, budget);
  }

  /** Groups that need no splitting stay. */
  lemma {:induction false} NothingHalved(cut: seq<seq<nat>>, estimate: seq<nat> -> nat, budget: nat)
    requires forall i | 0 <= i < |cut| :: !Splits(cut[i], estimate, budget)
    ensures AllHalved(cut, estimate, budget) == cut
  {
    if cut != [] { NothingHalved(cut[..|cut| - 1], estimate, budget); }
  }

  lemma {:induction false} InAllHalved(cut: seq<seq<nat>>, i: nat, estimate: seq<nat> -> nat, budget: nat)
    requires i < |cut| && !Splits(cut[i], estimate, budget)
    ensures cut[i] in AllHalved(cut, estimate, budget)
  {
    if i < |cut| - 1 { InAllHalved(cut[..|cut| - 1], i, estimate, budget); }
  }

  lemma SplitIsCut(g: Graph, cut: seq<seq<nat>>, i: nat)
    requires IsCut(g, cut) && CutCalls(g, cut) && i < |cut| && |cut[i]| > 1
    ensures IsCut(g, Split(cut, i)) && CutCalls(g, Split(cut, i))
  {
    hide Flatten;
    SplitKeepsOrder(cut, i);
    FlatCalls(g, Split(cut, i));
  }

  lemma FlatCalls(g: Graph, cut: seq<seq<nat>>)
    requires IsCut(g, cut)
    ensures CutCalls(g, cut)
  {
    forall i | 0 <= i < |cut| ensures AllCalls(g, cut[i]) { CutOrder(g, cut, i); }
  }

  /**
   Admission. Every split adds a group, so there are at most as many splits as nodes minus
   groups. If every group that halving leaves fits, these are the groups: only what is over budget
   is split. Otherwise some single operator is too large on its own. Either way the groups are
   still a cut of the graph that refines the first one, and every handle is in exactly one record:
   that of the group that mentions its name.
   */
  method Preflight(g: Graph, start: seq<seq<nat>>, tables: Tables, estimate: seq<nat> -> nat, budget: nat)
    returns (ok: bool, cut: seq<seq<nat>>, tables': Tables)
    requires ParamsApart(g) && IsCut(g, start) && CutCalls(g, start) && InOrder(g, tables, start)
    ensures IsCut(g, cut) && CutCalls(g, cut) && Refines(cut, start)
    ensures |start| <= |cut| <= |Calls(g, |g.nodes|)|
    ensures ok && budget > 0 ==> forall i | 0 <= i < |cut| :: estimate(cut[i]) <= budget
    ensures !ok ==> budget > 0 && exists i :: 0 <= i < |cut| && |cut[i]| == 1 && estimate(cut[i]) > budget
    ensures ok ==> cut == AllHalved(start, estimate, budget)
    ensures ok <==> budget == 0 || forall x | x in AllHalved(start, estimate, budget) :: estimate(x) <= budget
    ensures InOrder(g, tables', cut) && AllConserved(g, tables, tables')
  {
    hide Flatten, Split, Refines, ParamsApart, InOrder, AllConserved, IsCut, CutCalls, AllHalved;
    cut, tables' := start, tables;
    SelfRefines(start);
    CutSize(g, start);
    StartConserved(g, tables, start);
    while true
      invariant IsCut(g, cut) && CutCalls(g, cut) && Refines(cut, start)
      invariant |start| <= |cut| <= |Calls(g, |g.nodes|)|
      invariant InOrder(g, tables', cut) && AllConserved(g, tables, tables')
      invariant AllHalved(cut, estimate, budget) == AllHalved(start, estimate, budget)
      decreases |Calls(g, |g.nodes|)| - |cut|
    {
      var i := FirstTooLarge(cut, estimate, budget);
      if i == |cut| {
        NothingHalved(cut, estimate, budget);
        return true, cut, tables';
      }
      NonEmpty(g, cut, i);
      if |cut[i]| == 1 {
        InAllHalved(cut, i, estimate, budget);
        return false, cut, tables';
      }
      SplitHalves(cut, i, estimate, budget);
      SplitIsCut(g, cut, i);
      SplitRefines(cut, i, start);
      DealtKeeps(g, tables', cut, Split(cut, i));
      AllConservedTrans(g, tables, tables', Dealt(g, tables', Split(cut, i)));
      tables' := Dealt(g, tables', Split(cut, i));
      SplitKeepsOrder(cut, i);
      cut := Split(cut, i);
      CutSize(g, cut);
    }
  }

  lemma StartConserved(g: Graph, t: Tables, cut: seq<seq<nat>>)
    requires CutCalls(g, cut) && InOrder(g, t, cut)
    ensures AllConserved(g, t, t)
  {
    ConservedSelf(t.weights);
    ConservedSelf(t.gradients);
    ConservedSelf(t.states);
    if NoBufferTwice(g) { ConservedSelf(t.buffers); }
  }

  lemma CutSize(g: Graph, cut: seq<seq<nat>>)
    requires IsCut(g, cut)
    ensures |cut| <= |Calls(g, |g.nodes|)|
  {
    GroupsAtMostNodes(cut);
  }

  lemma NonEmpty(g: Graph, cut: seq<seq<nat>>, i: nat)
    requires IsCut(g, cut) && i < |cut|
    ensures |cut[i]| >= 1
  {
  }

  /** The groups the greedy rules make of a graph's nodes are a cut. */
  lemma GreedyIsCut(g: Graph, cut: seq<seq<nat>>, size: nat -> nat, fans: nat -> bool, budget: nat)
    requires Greedy(cut, size, fans, budget) && Flatten(cut) == Calls(g, |g.nodes|)
    ensures IsCut(g, cut) && CutCalls(g, cut)
  {
    FlatCalls(g, cut);
  }

  /** Each group uploads what its names stand for: `handle(i, n)` is where group `i` puts `n`. */
  function Uploaded(names: seq<set<nat>>, handle: (nat, nat) -> nat): (r: Records)
    ensures |r| == |names|
  {
    seq(|names|, i requires 0 <= i < |names| => map n | n in names[i] :: handle(i, n))
  }

  ghost predicate Injective(handle: (nat, nat) -> nat) {
    forall i, n, j, m | handle(i, n) == handle(j, m) :: i == j && n == m
  }

  lemma UploadedOnce(names: seq<set<nat>>, handle: (nat, nat) -> nat)
    requires Injective(handle)
    ensures HeldOnce(Uploaded(names, handle)) && Full(Uploaded(names, handle), names)
  {
  }

  /**
   From a captured graph to admitted groups. Every weight is in exactly one record, that of the
   one group that mentions it, under its own name and with the handle it was uploaded to.
   */
  method Prepare(g: Graph, size: nat -> nat, fans: nat -> bool, weight: (nat, nat) -> nat, buffer: (nat, nat) -> nat,
                 estimate: seq<nat> -> nat, budget: nat)
    returns (ok: bool, cut: seq<seq<nat>>, tables: Tables, ghost start: seq<seq<nat>>)
    requires ParamsApart(g) && Injective(weight) && Injective(buffer)
    ensures IsCut(g, start) && CutCalls(g, start) && IsCut(g, cut) && CutCalls(g, cut) && Refines(cut, start) && InOrder(g, tables, cut)
    ensures forall i, n | 0 <= i < |cut| && n in ParamsOf(g, cut[i]) ::
              n in tables.weights[i] && exists j: nat :: j < |start| && n in ParamsOf(g, start[j]) && tables.weights[i][n] == weight(j, n)
    ensures NoBufferTwice(g) ==> forall i, n | 0 <= i < |cut| && n in BuffersOf(g, cut[i]) ::
              n in tables.buffers[i] && exists j: nat :: j < |start| && n in BuffersOf(g, start[j]) && tables.buffers[i][n] == buffer(j, n)
    ensures ok && budget > 0 ==> forall i | 0 <= i < |cut| :: estimate(cut[i]) <= budget
    ensures !ok ==> budget > 0 && exists i :: 0 <= i < |cut| && |cut[i]| == 1 && estimate(cut[i]) > budget
  {
    hide Flatten, Greedy, ParamsApart, InOrder, AllConserved, IsCut, CutCalls, ParamsOf, BuffersOf, Refines, NoBufferTwice;
    var groups := MakePartition(Calls(g, |g.nodes|), size, fans, budget);
    start := groups;
    GreedyIsCut(g, groups, size, fans, budget);
    var none := seq(|groups|, _ => map[]);
    var first := Tables(Uploaded(ParamNames(g, groups), weight), none, none, Uploaded(BufferNames(g, groups), buffer));
    FirstInOrder(g, groups, weight, buffer);
    ok, cut, tables := Preflight(g, groups, first, estimate, budget);
    WeightHandles(g, start, cut, weight, first, tables);
    if NoBufferTwice(g) { BufferHandles(g, start, cut, buffer, first, tables); }
  }

  lemma FirstInOrder(g: Graph, cut: seq<seq<nat>>, weight: (nat, nat) -> nat, buffer: (nat, nat) -> nat)
    requires CutCalls(g, cut) && Injective(weight) && Injective(buffer)
    ensures var none := seq(|cut|, _ => map[]);
            InOrder(g, Tables(Uploaded(ParamNames(g, cut), weight), none, none, Uploaded(BufferNames(g, cut), buffer)), cut)
  {
    hide Injective, CutCalls;
    UploadedOnce(ParamNames(g, cut), weight);
    UploadedOnce(BufferNames(g, cut), buffer);
  }

  /** What is held under a name after admission was uploaded under that name. */
  lemma OldHandles(before: Records, after: Records, names: seq<set<nat>>, names': seq<set<nat>>, handle: (nat, nat) -> nat, i: nat, n: nat)
    requires Conserved(before, after) && before == Uploaded(names, handle) && Full(after, names') && i < |names'| && n in names'[i]
    ensures n in after[i] && exists j: nat :: j < |names| && n in names[j] && after[i][n] == handle(j, n)
  {
    assert HeldAt(after, i, n, after[i][n]);
    var j: int :| HeldAt(before, j, n, after[i][n]);
  }

  lemma WeightHandles(g: Graph, start: seq<seq<nat>>, cut: seq<seq<nat>>, weight: (nat, nat) -> nat, first: Tables, tables: Tables)
    requires CutCalls(g, start) && CutCalls(g, cut) && first.weights == Uploaded(ParamNames(g, start), weight)
    requires AllConserved(g, first, tables) && InOrder(g, tables, cut)
    ensures forall i, n | 0 <= i < |cut| && n in ParamsOf(g, cut[i]) ::
              n in tables.weights[i] && exists j: nat :: j < |start| && n in ParamsOf(g, start[j]) && tables.weights[i][n] == weight(j, n)
  {
    hide Conserved, Uploaded, ParamsOf, HeldOnce, NoBufferTwice;
    forall i, n | 0 <= i < |cut| && n in ParamsOf(g, cut[i])
      ensures n in tables.weights[i] && exists j: nat :: j < |start| && n in ParamsOf(g, start[j]) && tables.weights[i][n] == weight(j, n)
    {
      OldHandles(first.weights, tables.weights, ParamNames(g, start), ParamNames(g, cut), weight, i, n);
      var j: nat :| j < |start| && n in ParamNames(g, start)[j] && tables.weights[i][n] == weight(j, n);
    }
  }

  lemma BufferHandles(g: Graph, start: seq<seq<nat>>, cut: seq<seq<nat>>, buffer: (nat, nat) -> nat, first: Tables, tables: Tables)
    requires CutCalls(g, start) && CutCalls(g, cut) && first.buffers == Uploaded(BufferNames(g, start), buffer) && NoBufferTwice(g)
    requires AllConserved(g, first, tables) && InOrder(g, tables, cut)
    ensures forall i, n | 0 <= i < |cut| && n in BuffersOf(g, cut[i]) ::
              n in tables.buffers[i] && exists j: nat :: j < |start| && n in BuffersOf(g, start[j]) && tables.buffers[i][n] == buffer(j, n)
  {
    hide Conserved, Uploaded, BuffersOf, HeldOnce;
    forall i, n | 0 <= i < |cut| && n in BuffersOf(g, cut[i])
      ensures n in tables.buffers[i] && exists j: nat :: j < |start| && n in BuffersOf(g, start[j]) && tables.buffers[i][n] == buffer(j, n)
    {
      OldHandles(first.buffers, tables.buffers, BufferNames(g, start), BufferNames(g, cut), buffer, i, n);
      var j: nat :| j < |start| && n in BufferNames(g, start)[j] && tables.buffers[i][n] == buffer(j, n);
    }
  }

  // ---- Two nodes that name one buffer ----

  ghost predicate BuffersKept(g: Graph, cut: seq<seq<nat>>, cut': seq<seq<nat>>, handle: (nat, nat) -> nat) {
    IsCut(g, cut) && CutCalls(g, cut) && IsCut(g, cut') && CutCalls(g, cut') ==>
      Conserved(Uploaded(BufferNames(g, cut), handle), Redistribute(Merge(Uploaded(BufferNames(g, cut), handle)), BufferNames(g, cut')))
  }

  /** From one cut to another, buffer handles are kept exactly when neither cut has a name in two groups. */
  lemma KeptIffApart(g: Graph, cut: seq<seq<nat>>, cut': seq<seq<nat>>, handle: (nat, nat) -> nat)
    requires Injective(handle) && IsCut(g, cut) && CutCalls(g, cut) && IsCut(g, cut') && CutCalls(g, cut')
    ensures BuffersKept(g, cut, cut', handle) <==> NamesApart(BufferNames(g, cut)) && NamesApart(BufferNames(g, cut'))
  {
    hide Injective, IsCut, CutCalls, Conserved, Merge, Redistribute, NamesApart, HeldOnce, Covered;
    var before := Uploaded(BufferNames(g, cut), handle);
    UploadedOnce(BufferNames(g, cut), handle);
    assert NamesOf(before) == BufferNames(g, cut);
    SameCover(g, cut, cut');
    ConservedIffApart(before, BufferNames(g, cut'));
  }

  /** Repartitioning keeps every buffer handle, whatever the cuts, if and only if no two nodes name the same buffer. */
  lemma BuffersKeptExactly(g: Graph, handle: (nat, nat) -> nat)
    requires Injective(handle)
    ensures (forall cut, cut' :: BuffersKept(g, cut, cut', handle)) <==> NoBufferTwice(g)
  {
    hide Injective, BuffersKept, IsCut, Calls, AllCalls, Merge, Redistribute, Conserved;
    if NoBufferTwice(g) {
      forall cut, cut' ensures BuffersKept(g, cut, cut', handle) {
        if IsCut(g, cut) && CutCalls(g, cut) && IsCut(g, cut') && CutCalls(g, cut') {
          BuffersStayApart(g, cut);
          BuffersStayApart(g, cut');
          KeptIffApart(g, cut, cut', handle);
        } else {
          NotCuts(g, cut, cut', handle);
        }
      }
    } else {
      var c, d :| 0 <= c < |g.nodes| && 0 <= d < |g.nodes| && g.nodes[c].Call? && g.nodes[d].Call? && g.nodes[c].buffer.Some?
                  && g.nodes[d].buffer == g.nodes[c].buffer && c != d;
      var ids := Calls(g, |g.nodes|);
      var cut := Singles(ids);
      SinglesIsCut(g);
      assert c in ids && d in ids;
      var i, j :| 0 <= i < |ids| && 0 <= j < |ids| && ids[i] == c && ids[j] == d;
      assert cut[i][0] == c && cut[j][0] == d;
      var b := g.nodes[c].buffer.value;
      assert b in BufferNames(g, cut)[i] && b in BufferNames(g, cut)[j];
      KeptIffApart(g, cut, cut, handle);
    }
  }

  lemma NotCuts(g: Graph, cut: seq<seq<nat>>, cut': seq<seq<nat>>, handle: (nat, nat) -> nat)
    requires !(IsCut(g, cut) && CutCalls(g, cut) && IsCut(g, cut') && CutCalls(g, cut'))
    ensures BuffersKept(g, cut, cut', handle)
  {
  }


  /** A buffer read by two groups has a handle in each record; dealing out keeps one and files it twice. */
  lemma SharedReadLosesAHandle(b: nat, x: nat, y: nat)
    requires x != y
    ensures HeldOnce([map[b := x], map[b := y]])
    ensures !Conserved([map[b := x], map[b := y]], Redistribute(Merge([map[b := x], map[b := y]]), [{b}, {b}]))
  {
    var before := [map[b := x], map[b := y]];
    assert SameNames(before, [{b}, {b}]) by {
      assert before[0].Keys == {b} && before[1].Keys == {b};
      assert NamesOf(before) == [{b}, {b}];
    }
    NewSharingDuplicates(before, [{b}, {b}], 0, 1, b);
  }
}
