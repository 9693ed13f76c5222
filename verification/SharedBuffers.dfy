/**
 Each group owns a private copy of the buffers it reads, and replaces only the ones of
 its own BatchNorm nodes. This module finds the exact condition under which private copies
 are faithful for one cut; `Capture` finds it for every cut.
 */
module SharedBuffers {
  import opened Graph
  import opened Cuts

  datatype Copies = Copies(env: map<nat, real>, own: seq<map<nat, real>>, rng: int)

  /** The first `n` groups, each run on its own copies. */
  function RunCut(g: Graph, ops: Operators, cut: seq<seq<nat>>, n: nat, w0: World): (r: Copies)
    requires CutCalls(g, cut) && n <= |cut|
    ensures |r.own| == |cut|
  {
    if n == 0 then Copies(w0.env, seq(|cut|, _ => w0.bufs), w0.rng)
    else
      var p := RunCut(g, ops, cut, n - 1, w0);
      var w := Run(g, ops, cut[n - 1], World(p.env, p.own[n - 1], p.rng));
      Copies(w.env, p.own[n - 1 := w.bufs], w.rng)
  }

  /** After the whole cut every private copy equals the buffer of the uncut model. */
  ghost predicate CopiesFaithful(g: Graph, ops: Operators, cut: seq<seq<nat>>, w0: World)
    requires IsCut(g, cut) && CutCalls(g, cut)
  {
    CallsAreCalls(g);
    forall j, b | 0 <= j < |cut| && b in BuffersOf(g, cut[j]) ::
      Look(RunCut(g, ops, cut, |cut|, w0).own[j], b) == Look(Run(g, ops, Flatten(cut), w0).bufs, b)
  }

  // ---- Sufficiency ----

  ghost predicate InStep(g: Graph, cut: seq<seq<nat>>, r: Copies, w: World)
    requires CutCalls(g, cut) && |r.own| == |cut|
  {
    && r.rng == w.rng
    && (forall v :: Look(r.env, v) == Look(w.env, v))
    && (forall j, b | 0 <= j < |cut| && b in BuffersOf(g, cut[j]) :: Look(r.own[j], b) == Look(w.bufs, b))
  }

  lemma GroupInStep(g: Graph, ops: Operators, cut: seq<seq<nat>>, i: nat, r: Copies, w: World)
    requires CutCalls(g, cut) && i < |cut| == |r.own| && BuffersApart(g, cut) && InStep(g, cut, r, w)
    ensures var w' := Run(g, ops, cut[i], World(r.env, r.own[i], r.rng));
            InStep(g, cut, Copies(w'.env, r.own[i := w'.bufs], w'.rng), Run(g, ops, cut[i], w))
  {
    hide Run;
    var u := World(r.env, r.own[i], r.rng);
    forall c | c in cut[i] && g.nodes[c].buffer.Some?
      ensures Look(u.bufs, g.nodes[c].buffer.value) == Look(w.bufs, g.nodes[c].buffer.value)
    {
      var j :| 0 <= j < |cut[i]| && cut[i][j] == c;
      assert g.nodes[c].buffer.value in BuffersOf(g, cut[i]);
    }
    RunAgree(g, ops, cut[i], u, w);
    RunFrame(g, ops, cut[i], w);
    forall j, b | 0 <= j < |cut| && j != i && b in BuffersOf(g, cut[j])
      ensures Look(Run(g, ops, cut[i], w).bufs, b) == Look(w.bufs, b)
    {
      OtherGroupsKeep(g, cut, i, j, b);
    }
  }

  lemma OtherGroupsKeep(g: Graph, cut: seq<seq<nat>>, i: nat, j: nat, b: nat)
    requires CutCalls(g, cut) && BuffersApart(g, cut) && i < |cut| && j < |cut| && i != j && b in BuffersOf(g, cut[j])
    ensures forall c | c in cut[i] :: !Writes(g.nodes[c], b)
  {
    assert MutableBuffers(g, cut[i]) !! BuffersOf(g, cut[j]);
    forall c | c in cut[i] ensures !Writes(g.nodes[c], b) {
      var k :| 0 <= k < |cut[i]| && cut[i][k] == c;
    }
  }

  lemma {:induction false} PrefixInStep(g: Graph, ops: Operators, cut: seq<seq<nat>>, n: nat, w0: World)
    requires IsCut(g, cut) && CutCalls(g, cut) && BuffersApart(g, cut) && n <= |cut|
    ensures AllCalls(g, Flatten(cut[..n]))
    ensures InStep(g, cut, RunCut(g, ops, cut, n, w0), Run(g, ops, Flatten(cut[..n]), w0))
  {
    hide Run, InStep, IsCut, BuffersApart;
    if n == 0 {
      assert Run(g, ops, [], w0) == w0 by { EmptyRun(g, ops, w0); }
      StartInStep(g, cut, w0);
    } else {
      PrefixInStep(g, ops, cut, n - 1, w0);
      FlattenPrefix(cut, n - 1);
      RunAppend(g, ops, Flatten(cut[..n - 1]), cut[n - 1], w0);
      GroupInStep(g, ops, cut, n - 1, RunCut(g, ops, cut, n - 1, w0), Run(g, ops, Flatten(cut[..n - 1]), w0));
    }
  }

  lemma EmptyRun(g: Graph, ops: Operators, w: World)
    ensures Run(g, ops, [], w) == w
  {
  }

  lemma StartInStep(g: Graph, cut: seq<seq<nat>>, w0: World)
    requires CutCalls(g, cut)
    ensures InStep(g, cut, Copies(w0.env, seq(|cut|, _ => w0.bufs), w0.rng), w0)
  {
  }

  // ---- Necessity ----

  /** Operators whose every BatchNorm counts its calls in its buffer. */
  function Counting(): Operators {
    Operators((c, args, buffer, rng) => Effect(buffer, buffer + 1.0, rng), (c, args, buffer, rng) => Linear([], []))
  }

  function Writers(g: Graph, ids: seq<nat>, b: nat): nat
    requires AllCalls(g, ids)
  {
    if ids == [] then 0
    else Writers(g, ids[..|ids| - 1], b) + if Writes(g.nodes[ids[|ids| - 1]], b) then 1 else 0
  }

  lemma {:induction false} Counted(g: Graph, ids: seq<nat>, w: World, b: nat)
    requires AllCalls(g, ids)
    ensures Look(Run(g, Counting(), ids, w).bufs, b) == Look(w.bufs, b) + Writers(g, ids, b) as real
  {
    if ids != [] {
      Counted(g, ids[..|ids| - 1], w, b);
    }
  }

  lemma {:induction false} WritersAppend(g: Graph, x: seq<nat>, y: seq<nat>, b: nat)
    requires AllCalls(g, x) && AllCalls(g, y)
    ensures AllCalls(g, x + y) && Writers(g, x + y, b) == Writers(g, x, b) + Writers(g, y, b)
  {
    if y == [] {
      assert x + y == x;
    } else {
      assert (x + y)[..|x + y| - 1] == x + y[..|y| - 1];
      WritersAppend(g, x, y[..|y| - 1], b);
    }
  }

  /** A private copy counts only its own group's writers. */
  lemma {:induction false} OwnCount(g: Graph, cut: seq<seq<nat>>, n: nat, w0: World, j: nat, b: nat)
    requires CutCalls(g, cut) && n <= |cut| && j < |cut|
    ensures Look(RunCut(g, Counting(), cut, n, w0).own[j], b)
         == Look(w0.bufs, b) + if j < n then Writers(g, cut[j], b) as real else 0.0
  {
    hide Run, Writers;
    if n > 0 {
      OwnCount(g, cut, n - 1, w0, j, b);
      var p := RunCut(g, Counting(), cut, n - 1, w0);
      Counted(g, cut[n - 1], World(p.env, p.own[n - 1], p.rng), b);
    }
  }

  lemma {:induction false} OneWriter(g: Graph, ids: seq<nat>, c: nat, b: nat)
    requires AllCalls(g, ids) && c in ids && Writes(g.nodes[c], b)
    ensures Writers(g, ids, b) > 0
  {
    var n := |ids| - 1;
    if ids[n] != c {
      assert ids == ids[..n] + [ids[n]];
      OneWriter(g, ids[..n], c, b);
    }
  }

  /** The whole graph has at least the writers of any two different groups. */
  lemma TwoGroups(g: Graph, cut: seq<seq<nat>>, i: nat, j: nat, b: nat)
    requires IsCut(g, cut) && CutCalls(g, cut) && i < j < |cut|
    ensures AllCalls(g, Flatten(cut))
    ensures Writers(g, Flatten(cut), b) >= Writers(g, cut[i], b) + Writers(g, cut[j], b)
  {
    hide Writers, IsCut;
    CutOrder(g, cut, j);
    CutOrder(g, cut, i);
    FlattenPrefix(cut, i);
    WritersAppend(g, Flatten(cut[..i]), cut[i], b);
    assert cut[..j] == cut[..i + 1] + cut[i + 1..j];
    FlattenAppend(cut[..i + 1], cut[i + 1..j]);
    var middle := Flatten(cut[i + 1..j]);
    assert AllCalls(g, middle) by {
      assert forall k | 0 <= k < |middle| :: Flatten(cut[..j])[|Flatten(cut[..i + 1])| + k] == middle[k];
    }
    WritersAppend(g, Flatten(cut[..i + 1]), middle, b);
    FlattenSuffix(cut, j);
    WritersAppend(g, cut[j], Flatten(cut[j + 1..]), b);
    assert cut == cut[..j] + cut[j..];
    FlattenAppend(cut[..j], cut[j..]);
    WritersAppend(g, Flatten(cut[..j]), Flatten(cut[j..]), b);
  }

  /** A buffer one group replaces and another reads: counting shows the reader's copy is stale. */
  lemma Stale(g: Graph, cut: seq<seq<nat>>, i: nat, j: nat, b: nat, w0: World)
    requires IsCut(g, cut) && CutCalls(g, cut) && i < |cut| && j < |cut| && i != j
    requires b in MutableBuffers(g, cut[i]) && b in BuffersOf(g, cut[j])
    ensures !CopiesFaithful(g, Counting(), cut, w0)
  {
    hide Run, Writers, Flatten;
    CallsAreCalls(g);
    if i < j { TwoGroups(g, cut, i, j, b); } else { TwoGroups(g, cut, j, i, b); }
    var k :| 0 <= k < |cut[i]| && Writes(g.nodes[cut[i][k]], b);
    OneWriter(g, cut[i], cut[i][k], b);
    Counted(g, Flatten(cut), w0, b);
    OwnCount(g, cut, |cut|, w0, j, b);
  }

  /**
   Private copies are faithful for every model with this graph if and only if no group
   reads a buffer that another group's BatchNorm replaces.
   */
  lemma FaithfulIffApart(g: Graph, cut: seq<seq<nat>>)
    requires IsCut(g, cut) && CutCalls(g, cut)
    ensures BuffersApart(g, cut) <==> forall ops, w0 :: CopiesFaithful(g, ops, cut, w0)
  {
    if BuffersApart(g, cut) {
      forall ops, w0 ensures CopiesFaithful(g, ops, cut, w0) {
        hide Run;
        PrefixInStep(g, ops, cut, |cut|, w0);
        assert cut[..|cut|] == cut;
      }
    } else {
      var i, j :| 0 <= i < |cut| && 0 <= j < |cut| && i != j && !(MutableBuffers(g, cut[i]) !! BuffersOf(g, cut[j]));
      var b :| b in MutableBuffers(g, cut[i]) && b in BuffersOf(g, cut[j]);
      Stale(g, cut, i, j, b, World(map[], map[], 0));
    }
  }
}
