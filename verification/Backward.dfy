/**
 The reverse walk over a cut, on values: seeds, what one group's local differentiation
 contributes, and why groups without incoming gradient may be skipped.
 */
module Backward {
  import opened Graph
  import opened Gradients
  import opened Cuts

  /** Each parameter belongs to one place of one call. */
  predicate ParamsApart(g: Graph) {
    forall c, d, j, k |
        0 <= c < |g.nodes| && 0 <= d < |g.nodes| && g.nodes[c].Call? && g.nodes[d].Call?
        && 0 <= j < |g.nodes[c].params| && 0 <= k < |g.nodes[d].params| ::
      g.nodes[c].params[j] == g.nodes[d].params[k] ==> c == d && j == k
  }

  /** Output gradients, added up where one value is returned in several places. */
  function Seed(g: Graph, outs: seq<Grad>, n: nat): (r: seq<Grad>)
    requires WellFormed(g) && n <= |outs| == |g.output|
    ensures |r| == |g.nodes|
    ensures forall v: nat | v < |r| && v !in g.output :: r[v].None?
  {
    if n == 0 then seq(|g.nodes|, _ => None)
    else
      var r, v := Seed(g, outs, n - 1), g.output[n - 1];
      r[v := Plus(r[v], outs[n - 1])]
  }

  /** The gradients once the groups from `i` on have been processed. */
  function SweepFrom(g: Graph, lin: map<nat, Linear>, cut: seq<seq<nat>>, seed: seq<Grad>, i: nat): (r: seq<Grad>)
    requires CutCalls(g, cut) && i <= |cut| && |seed| == |g.nodes|
    ensures |r| == |g.nodes|
    decreases |cut| - i
  {
    if i == |cut| then seed
    else Sweep(g, lin, cut[i], SweepFrom(g, lin, cut, seed, i + 1))
  }

  /** Walking the groups is sweeping the whole graph. */
  lemma {:induction false} SweepFromIsSweep(g: Graph, lin: map<nat, Linear>, cut: seq<seq<nat>>, seed: seq<Grad>, i: nat)
    requires CutCalls(g, cut) && i <= |cut| && |seed| == |g.nodes|
    ensures AllCalls(g, Flatten(cut[i..]))
    ensures SweepFrom(g, lin, cut, seed, i) == Sweep(g, lin, Flatten(cut[i..]), seed)
    decreases |cut| - i
  {
    hide Push;
    if i == |cut| {
      assert cut[i..] == [];
    } else {
      SweepFromIsSweep(g, lin, cut, seed, i + 1);
      FlattenSuffix(cut, i);
      SweepAppend(g, lin, cut[i], Flatten(cut[i + 1..]), seed);
    }
  }

  /** A node of group `i` that nobody outside the group uses has no gradient when the group's turn comes. */
  lemma HiddenHasNone(g: Graph, lin: map<nat, Linear>, cut: seq<seq<nat>>, seed: seq<Grad>, i: nat, c: nat)
    requires WellFormed(g) && IsCut(g, cut) && CutCalls(g, cut) && i < |cut| && |seed| == |g.nodes|
    requires forall v: nat | v < |seed| && v !in g.output :: seed[v].None?
    requires c in cut[i] && c < |seed| && c !in GroupOutputs(g, cut[i])
    ensures SweepFrom(g, lin, cut, seed, i + 1)[c].None?
  {
    hide Push, Sweep, SweepFrom;
    SweepFromIsSweep(g, lin, cut, seed, i + 1);
    var later := Flatten(cut[i + 1..]);
    CutOrder(g, cut, i);
    forall j | 0 <= j < |later| ensures c !in g.nodes[later[j]].args {
      assert later[j] in later;
      assert later[j] !in cut[i];
    }
    SweepUntouched(g, lin, later, seed, c);
  }

  /** Gradients of later groups are final: no earlier group adds to them. */
  lemma LaterIsFinal(g: Graph, lin: map<nat, Linear>, cut: seq<seq<nat>>, i: nat, acc: seq<Grad>, c: nat)
    requires WellFormed(g) && IsCut(g, cut) && CutCalls(g, cut) && i < |cut| && |acc| == |g.nodes|
    requires c in Flatten(cut[i + 1..]) && c < |acc|
    ensures Sweep(g, lin, cut[i], acc)[c] == acc[c]
  {
    hide Push, Sweep;
    CutOrder(g, cut, i);
    forall j | 0 <= j < |cut[i]| ensures c !in g.nodes[cut[i][j]].args {
    }
    SweepUntouched(g, lin, cut[i], acc, c);
  }

  /**
   Local differentiation of one group: fed only the gradients of the group's outputs, it
   yields for the group's nodes their gradients, and for everything else what to add.
   */
  lemma GroupSweep(g: Graph, lin: map<nat, Linear>, local: map<nat, Linear>, ids: seq<nat>, acc: seq<Grad>, upstream: seq<Grad>)
    requires WellFormed(g) && AllCalls(g, ids) && |acc| == |upstream| == |g.nodes|
    requires forall c | c in ids :: c in lin && c in local && lin[c] == local[c]
    requires forall v: nat | v < |acc| :: upstream[v] == if v in ids then acc[v] else None
    ensures forall c: nat | c < |acc| && c in ids :: Sweep(g, lin, ids, acc)[c] == Sweep(g, local, ids, upstream)[c]
    ensures forall v: nat | v < |acc| && v !in ids ::
              Sweep(g, lin, ids, acc)[v] == Plus(acc[v], Sweep(g, local, ids, upstream)[v])
    ensures forall v: nat | v < |acc| && v !in ids && v !in GroupInputs(g, ids) ::
              Sweep(g, local, ids, upstream)[v].None?
  {
    hide Push, Sweep, GroupInputs;
    forall j | 0 <= j < |ids| ensures ids[j] in lin && ids[j] in local && lin[ids[j]] == local[ids[j]] {
      assert ids[j] in ids;
    }
    SweepSame(g, local, lin, ids, upstream);
    assert Superposed(ids, acc, acc, upstream);
    SweepLocal(g, lin, ids, ids, acc, acc, upstream);
    forall v: nat | v < |acc| && v !in ids && v !in GroupInputs(g, ids)
      ensures Sweep(g, local, ids, upstream)[v].None?
    {
      SweepUntouched(g, local, ids, upstream, v);
    }
  }
}
