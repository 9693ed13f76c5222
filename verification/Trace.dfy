/**
 What the uncut model computes, said without running it: every call is applied once, to the
 values of its own arguments in their own places, to the buffer its last writer left and to the
 RNG the call before it left. And what its gradients are: the chain rule, consumer by consumer
 and place by place.
 */
module Trace {
  import opened Graph
  import opened Gradients
  import opened Backward

  // ---- What every call is applied to ----

  predicate Holds(m: map<nat, real>, k: nat, x: real) {
    x == if k in m then m[k] else 0.0
  }

  /** What argument `a` is worth: what its call computed, or the input. */
  predicate IsOperand(w0: World, es: map<nat, Effect>, a: nat, x: real) {
    if a in es then x == es[a].value else Holds(w0.env, a, x)
  }

  predicate Replaces(g: Graph, es: map<nat, Effect>, m: nat, b: nat) {
    m in es && m < |g.nodes| && g.nodes[m].Call? && g.nodes[m].mutable && g.nodes[m].buffer == Some(b)
  }

  /** Among the calls before `n`, `m` is the last to replace buffer `b`. */
  predicate LastWriter(g: Graph, es: map<nat, Effect>, n: nat, b: nat, m: nat) {
    m < n && Replaces(g, es, m, b) && forall k | m < k < n :: !Replaces(g, es, k, b)
  }

  /** Buffer `b` before node `n`: what its last writer left, or what it was at the start. */
  ghost predicate IsBuffer(g: Graph, w0: World, es: map<nat, Effect>, n: nat, b: nat, x: real) {
    || (exists m: nat :: LastWriter(g, es, n, b, m) && x == es[m].buffer)
    || ((forall m: nat | m < n :: !Replaces(g, es, m, b)) && Holds(w0.bufs, b, x))
  }

  predicate LastCall(es: map<nat, Effect>, n: nat, m: nat) {
    m < n && m in es && forall k | m < k < n :: k !in es
  }

  /** The RNG before node `n`: what the last call left, or what it was at the start. */
  ghost predicate IsRng(w0: World, es: map<nat, Effect>, n: nat, r: int) {
    || (exists m: nat :: LastCall(es, n, m) && r == es[m].rng)
    || ((forall m: nat | m < n :: m !in es) && r == w0.rng)
  }

  /** What call `c` is applied to: the values of its arguments, each in its place, its buffer and the RNG. */
  ghost predicate Sees(g: Graph, w0: World, es: map<nat, Effect>, c: nat, xs: seq<real>, x: real, r: int) {
    && c < |g.nodes| && g.nodes[c].Call? && |xs| == |g.nodes[c].args|
    && (forall j | 0 <= j < |xs| :: IsOperand(w0, es, g.nodes[c].args[j], xs[j]))
    && (if g.nodes[c].buffer.Some? then IsBuffer(g, w0, es, c, g.nodes[c].buffer.value, x) else x == 0.0)
    && IsRng(w0, es, c, r)
  }

  ghost predicate TracedAt(g: Graph, ops: Operators, w0: World, es: map<nat, Effect>, ls: map<nat, Linear>, c: nat)
    requires c in es && c in ls
  {
    exists xs, x, r :: Sees(g, w0, es, c, xs, x, r) && es[c] == ops.apply(c, xs, x, r) && ls[c] == ops.derive(c, xs, x, r)
  }

  /** What the calls among the first `n` nodes do, and their derivatives. */
  ghost predicate IsTrace(g: Graph, ops: Operators, w0: World, n: nat, es: map<nat, Effect>, ls: map<nat, Linear>) {
    && n <= |g.nodes| && (forall c: nat :: c in es <==> c < n && g.nodes[c].Call?) && ls.Keys == es.Keys
    && forall c | c in es :: TracedAt(g, ops, w0, es, ls, c)
  }

  /** The values, the buffers and the RNG such a trace leaves. */
  ghost predicate Leaves(g: Graph, w0: World, n: nat, es: map<nat, Effect>, w: World) {
    && (forall a: nat, x | Holds(w.env, a, x) :: IsOperand(w0, es, a, x))
    && (forall b: nat, x | Holds(w.bufs, b, x) :: IsBuffer(g, w0, es, n, b, x))
    && IsRng(w0, es, n, w.rng)
  }

  // ---- Node-by-node evaluation is that ----

  /** Nothing a call sees comes later than it. */
  lemma SeesSame(g: Graph, w0: World, es: map<nat, Effect>, es': map<nat, Effect>, n: nat, c: nat, xs: seq<real>, x: real, r: int)
    requires WellFormed(g) && c < n <= |g.nodes| && Sees(g, w0, es, c, xs, x, r)
    requires forall k: nat | k < n :: (k in es' <==> k in es) && (k in es ==> es'[k] == es[k])
    ensures Sees(g, w0, es', c, xs, x, r)
  {
    forall j | 0 <= j < |xs| ensures IsOperand(w0, es', g.nodes[c].args[j], xs[j]) {
      assert IsOperand(w0, es, g.nodes[c].args[j], xs[j]) && g.nodes[c].args[j] < c;
    }
    if g.nodes[c].buffer.Some? { BufferSame(g, w0, es, es', c, g.nodes[c].buffer.value, x); }
    RngSame(w0, es, es', c, r);
  }

  lemma BufferSame(g: Graph, w0: World, es: map<nat, Effect>, es': map<nat, Effect>, n: nat, b: nat, x: real)
    requires IsBuffer(g, w0, es, n, b, x)
    requires forall k: nat | k < n :: (k in es' <==> k in es) && (k in es ==> es'[k] == es[k])
    ensures IsBuffer(g, w0, es', n, b, x)
  {
    assert forall k: nat | k < n :: Replaces(g, es', k, b) <==> Replaces(g, es, k, b);
    if m: nat :| LastWriter(g, es, n, b, m) && x == es[m].buffer {
      assert LastWriter(g, es', n, b, m);
    }
  }

  lemma RngSame(w0: World, es: map<nat, Effect>, es': map<nat, Effect>, n: nat, r: int)
    requires IsRng(w0, es, n, r)
    requires forall k: nat | k < n :: (k in es' <==> k in es) && (k in es ==> es'[k] == es[k])
    ensures IsRng(w0, es', n, r)
  {
    if m: nat :| LastCall(es, n, m) && r == es[m].rng {
      assert LastCall(es', n, m);
    }
  }

  /** At its turn a call sees what the world so far holds. */
  lemma SeesWorld(g: Graph, w0: World, es: map<nat, Effect>, c: nat, w: World)
    requires WellFormed(g) && c < |g.nodes| && g.nodes[c].Call? && Leaves(g, w0, c, es, w)
    ensures Sees(g, w0, es, c, ArgValues(g.nodes[c].args, w.env), BufferValue(g.nodes[c], w.bufs), w.rng)
  {
    var args, xs := g.nodes[c].args, ArgValues(g.nodes[c].args, w.env);
    forall j | 0 <= j < |xs| ensures IsOperand(w0, es, args[j], xs[j]) {
      assert Holds(w.env, args[j], xs[j]);
    }
    if g.nodes[c].buffer.Some? { assert Holds(w.bufs, g.nodes[c].buffer.value, BufferValue(g.nodes[c], w.bufs)); }
  }

  /** Whoever is passed over, and whatever call is made, the trace leaves the next world. */
  lemma LeavesNext(g: Graph, ops: Operators, w0: World, es: map<nat, Effect>, c: nat, w: World)
    requires WellFormed(g) && c < |g.nodes| && Leaves(g, w0, c, es, w) && c !in es
    ensures !g.nodes[c].Call? ==> Leaves(g, w0, c + 1, es, w)
    ensures g.nodes[c].Call? ==> Leaves(g, w0, c + 1, es[c := EffectOf(g, ops, c, w)], Step(g, ops, c, w))
  {
    var e := if g.nodes[c].Call? then EffectOf(g, ops, c, w) else Effect(0.0, 0.0, 0);
    var es', w' := if g.nodes[c].Call? then es[c := e] else es, if g.nodes[c].Call? then Step(g, ops, c, w) else w;
    forall a: nat, x | Holds(w'.env, a, x) ensures IsOperand(w0, es', a, x) {
      if a != c || !g.nodes[c].Call? { assert Holds(w.env, a, x); }
    }
    forall b: nat, x | Holds(w'.bufs, b, x) ensures IsBuffer(g, w0, es', c + 1, b, x) {
      if Replaces(g, es', c, b) {
        assert LastWriter(g, es', c + 1, b, c);
      } else {
        assert Holds(w.bufs, b, x);
        BufferSame(g, w0, es, es', c, b, x);
        BufferOn(g, w0, es', c, b, x);
      }
    }
    if g.nodes[c].Call? {
      assert LastCall(es', c + 1, c);
    } else {
      RngOn(w0, es, c, w.rng);
    }
  }

  lemma BufferOn(g: Graph, w0: World, es: map<nat, Effect>, n: nat, b: nat, x: real)
    requires IsBuffer(g, w0, es, n, b, x) && !Replaces(g, es, n, b)
    ensures IsBuffer(g, w0, es, n + 1, b, x)
  {
    if m: nat :| LastWriter(g, es, n, b, m) && x == es[m].buffer {
      assert LastWriter(g, es, n + 1, b, m);
    }
  }

  lemma RngOn(w0: World, es: map<nat, Effect>, n: nat, r: int)
    requires IsRng(w0, es, n, r) && n !in es
    ensures IsRng(w0, es, n + 1, r)
  {
    if m: nat :| LastCall(es, n, m) && r == es[m].rng {
      assert LastCall(es, n + 1, m);
    }
  }

  lemma TraceNext(g: Graph, ops: Operators, w0: World, n: nat, es: map<nat, Effect>, ls: map<nat, Linear>, w: World)
    requires WellFormed(g) && n < |g.nodes| && g.nodes[n].Call? && IsTrace(g, ops, w0, n, es, ls) && Leaves(g, w0, n, es, w)
    ensures IsTrace(g, ops, w0, n + 1, es[n := EffectOf(g, ops, n, w)], ls[n := LinearAt(g, ops, n, w)])
  {
    hide Sees, Leaves;
    var es', ls' := es[n := EffectOf(g, ops, n, w)], ls[n := LinearAt(g, ops, n, w)];
    forall c | c in es' ensures TracedAt(g, ops, w0, es', ls', c) {
      if c == n {
        SeesWorld(g, w0, es, n, w);
        var xs, x := ArgValues(g.nodes[n].args, w.env), BufferValue(g.nodes[n], w.bufs);
        SeesLater(g, w0, es, es', n, xs, x, w.rng);
      } else {
        assert TracedAt(g, ops, w0, es, ls, c);
        var xs, x, r :| Sees(g, w0, es, c, xs, x, r) && es[c] == ops.apply(c, xs, x, r) && ls[c] == ops.derive(c, xs, x, r);
        SeesSame(g, w0, es, es', n, c, xs, x, r);
      }
    }
  }

  lemma SeesLater(g: Graph, w0: World, es: map<nat, Effect>, es': map<nat, Effect>, c: nat, xs: seq<real>, x: real, r: int)
    requires WellFormed(g) && Sees(g, w0, es, c, xs, x, r)
    requires forall k: nat | k < c :: (k in es' <==> k in es) && (k in es ==> es'[k] == es[k])
    ensures Sees(g, w0, es', c, xs, x, r)
  {
    forall j | 0 <= j < |xs| ensures IsOperand(w0, es', g.nodes[c].args[j], xs[j]) {
      assert IsOperand(w0, es, g.nodes[c].args[j], xs[j]) && g.nodes[c].args[j] < c;
    }
    if g.nodes[c].buffer.Some? { BufferSame(g, w0, es, es', c, g.nodes[c].buffer.value, x); }
    RngSame(w0, es, es', c, r);
  }

  lemma NothingTraced(g: Graph, ops: Operators, w0: World)
    ensures IsTrace(g, ops, w0, 0, map[], map[]) && Leaves(g, w0, 0, map[], w0)
  {
  }

  ghost predicate RunsTo(g: Graph, ops: Operators, ids: seq<nat>, w0: World, w: World, ls: map<nat, Linear>) {
    AllCalls(g, ids) && Run(g, ops, ids, w0) == w && Linearize(g, ops, ids, w0) == ls
  }

  lemma RunsNowhere(g: Graph, ops: Operators, w0: World)
    ensures RunsTo(g, ops, [], w0, w0, map[])
  {
  }

  lemma RunsOn(g: Graph, ops: Operators, front: seq<nat>, c: nat, w0: World, w: World, ls: map<nat, Linear>)
    requires RunsTo(g, ops, front, w0, w, ls) && c < |g.nodes| && g.nodes[c].Call?
    ensures RunsTo(g, ops, front + [c], w0, Step(g, ops, c, w), ls[c := LinearAt(g, ops, c, w)])
  {
    hide Step, LinearAt;
    assert (front + [c])[..|front|] == front;
  }

  /** Node by node, the world a run reaches is the one its trace leaves. */
  lemma {:induction false} RunsTraced(g: Graph, ops: Operators, w0: World, n: nat)
    returns (w: World, es: map<nat, Effect>, ls: map<nat, Linear>)
    requires WellFormed(g) && n <= |g.nodes|
    ensures RunsTo(g, ops, Calls(g, n), w0, w, ls) && IsTrace(g, ops, w0, n, es, ls) && Leaves(g, w0, n, es, w)
  {
    hide *;
    if n == 0 {
      w, es, ls := w0, map[], map[];
      NoCalls(g);
      RunsNowhere(g, ops, w0);
      NothingTraced(g, ops, w0);
    } else {
      w, es, ls := RunsTraced(g, ops, w0, n - 1);
      CallsNext(g, n);
      NotTraced(g, ops, w0, n - 1, es, ls);
      LeavesNext(g, ops, w0, es, n - 1, w);
      if g.nodes[n - 1].Call? {
        RunsOn(g, ops, Calls(g, n - 1), n - 1, w0, w, ls);
        TraceNext(g, ops, w0, n - 1, es, ls, w);
        w, es, ls := Step(g, ops, n - 1, w), es[n - 1 := EffectOf(g, ops, n - 1, w)], ls[n - 1 := LinearAt(g, ops, n - 1, w)];
      } else {
        TraceOn(g, ops, w0, n - 1, es, ls);
      }
    }
  }

  /**
   Running the calls among the first `n` nodes has such a trace, leaves what the trace leaves, and
   its linearisation is the trace's derivatives.
   */
  lemma RunIsTraced(g: Graph, ops: Operators, w0: World, n: nat) returns (es: map<nat, Effect>, ls: map<nat, Linear>)
    requires WellFormed(g) && n <= |g.nodes|
    ensures AllCalls(g, Calls(g, n)) && IsTrace(g, ops, w0, n, es, ls)
    ensures Leaves(g, w0, n, es, Run(g, ops, Calls(g, n), w0)) && Linearize(g, ops, Calls(g, n), w0) == ls
  {
    hide Calls, Run, Linearize, IsTrace, Leaves;
    var w;
    w, es, ls := RunsTraced(g, ops, w0, n);
  }

  lemma NotTraced(g: Graph, ops: Operators, w0: World, n: nat, es: map<nat, Effect>, ls: map<nat, Linear>)
    requires IsTrace(g, ops, w0, n, es, ls)
    ensures n !in es
  {
  }

  lemma TraceOn(g: Graph, ops: Operators, w0: World, n: nat, es: map<nat, Effect>, ls: map<nat, Linear>)
    requires n < |g.nodes| && !g.nodes[n].Call? && IsTrace(g, ops, w0, n, es, ls)
    ensures IsTrace(g, ops, w0, n + 1, es, ls)
  {
    hide TracedAt;
  }

  lemma NoCalls(g: Graph)
    ensures Calls(g, 0) == []
  {
  }

  lemma CallsNext(g: Graph, n: nat)
    requires 0 < n <= |g.nodes|
    ensures Calls(g, n) == if g.nodes[n - 1].Call? then Calls(g, n - 1) + [n - 1] else Calls(g, n - 1)
  {
  }

  lemma AllCalled(g: Graph, n: nat)
    requires n <= |g.nodes|
    ensures AllCalls(g, Calls(g, n))
  {
    var ids := Calls(g, n);
    assert forall k | 0 <= k < |ids| :: ids[k] in ids;
  }

  // ---- There is only one ----

  lemma OneBuffer(g: Graph, w0: World, es: map<nat, Effect>, n: nat, b: nat, x: real, y: real)
    requires IsBuffer(g, w0, es, n, b, x) && IsBuffer(g, w0, es, n, b, y)
    ensures x == y
  {
  }

  lemma OneRng(w0: World, es: map<nat, Effect>, n: nat, r: int, q: int)
    requires IsRng(w0, es, n, r) && IsRng(w0, es, n, q)
    ensures r == q
  {
  }

  lemma OneSight(g: Graph, w0: World, es: map<nat, Effect>, c: nat, xs: seq<real>, x: real, r: int, ys: seq<real>, y: real, q: int)
    requires Sees(g, w0, es, c, xs, x, r) && Sees(g, w0, es, c, ys, y, q)
    ensures xs == ys && x == y && r == q
  {
    hide IsBuffer, IsRng;
    forall j | 0 <= j < |xs| ensures xs[j] == ys[j] {
      assert IsOperand(w0, es, g.nodes[c].args[j], xs[j]) && IsOperand(w0, es, g.nodes[c].args[j], ys[j]);
    }
    if g.nodes[c].buffer.Some? { OneBuffer(g, w0, es, c, g.nodes[c].buffer.value, x, y); }
    OneRng(w0, es, c, r, q);
  }

  /** A graph, its operators and the world it starts in have one trace. */
  lemma {:induction false} TraceIsDetermined(g: Graph, ops: Operators, w0: World, n: nat, es: map<nat, Effect>, ls: map<nat, Linear>,
                                             es': map<nat, Effect>, ls': map<nat, Linear>)
    requires WellFormed(g) && IsTrace(g, ops, w0, n, es, ls) && IsTrace(g, ops, w0, n, es', ls')
    ensures es == es' && ls == ls'
  {
    forall c | c in es ensures es[c] == es'[c] && ls[c] == ls'[c] {
      SameEffects(g, ops, w0, n, es, ls, es', ls', c);
    }
  }

  lemma {:induction false} SameEffects(g: Graph, ops: Operators, w0: World, n: nat, es: map<nat, Effect>, ls: map<nat, Linear>,
                                       es': map<nat, Effect>, ls': map<nat, Linear>, c: nat)
    requires WellFormed(g) && IsTrace(g, ops, w0, n, es, ls) && IsTrace(g, ops, w0, n, es', ls') && c in es
    ensures es[c] == es'[c] && ls[c] == ls'[c]
    decreases c
  {
    hide Sees;
    forall k: nat | k < c && k in es ensures es[k] == es'[k] {
      SameEffects(g, ops, w0, n, es, ls, es', ls', k);
    }
    assert TracedAt(g, ops, w0, es, ls, c) && TracedAt(g, ops, w0, es', ls', c);
    var xs, x, r :| Sees(g, w0, es, c, xs, x, r) && es[c] == ops.apply(c, xs, x, r) && ls[c] == ops.derive(c, xs, x, r);
    var ys, y, q :| Sees(g, w0, es', c, ys, y, q) && es'[c] == ops.apply(c, ys, y, q) && ls'[c] == ops.derive(c, ys, y, q);
    SeesLater(g, w0, es, es', c, xs, x, r);
    OneSight(g, w0, es', c, xs, x, r, ys, y, q);
  }

  // ---- The chain rule ----

  /** No path counts as nothing. */
  function Amount(x: Grad): real {
    if x.Some? then x.value else 0.0
  }

  /** What the first `n` places of the output pass to value `v`. */
  function Seeded(g: Graph, outs: seq<Grad>, v: nat, n: nat): real
    requires n <= |outs| == |g.output|
  {
    if n == 0 then 0.0 else Seeded(g, outs, v, n - 1) + if g.output[n - 1] == v then Amount(outs[n - 1]) else 0.0
  }

  predicate IsSeeded(g: Graph, outs: seq<Grad>, v: nat, n: nat)
    requires n <= |outs| == |g.output|
  {
    exists k :: 0 <= k < n && g.output[k] == v && outs[k].Some?
  }

  function Coefficient(ls: map<nat, Linear>, c: nat, j: nat): Grad {
    if c in ls && j < |ls[c].args| then ls[c].args[j] else None
  }

  /** What call `c` passes to value `v` through its first `n` argument places. */
  function Passed(g: Graph, ls: map<nat, Linear>, grad: seq<Grad>, v: nat, c: nat, n: nat): real
    requires c < |g.nodes| == |grad| && g.nodes[c].Call? && n <= |g.nodes[c].args|
  {
    if n == 0 then 0.0
    else Passed(g, ls, grad, v, c, n - 1)
         + if g.nodes[c].args[n - 1] == v then Amount(Coefficient(ls, c, n - 1)) * Amount(grad[c]) else 0.0
  }

  predicate IsPassed(g: Graph, ls: map<nat, Linear>, grad: seq<Grad>, v: nat, c: nat, n: nat)
    requires c < |g.nodes| == |grad| && g.nodes[c].Call? && n <= |g.nodes[c].args|
  {
    grad[c].Some? && exists j :: 0 <= j < n && g.nodes[c].args[j] == v && Coefficient(ls, c, j).Some?
  }

  /** What the calls among the first `n` nodes pass to value `v`. */
  function Collected(g: Graph, ls: map<nat, Linear>, grad: seq<Grad>, v: nat, n: nat): real
    requires n <= |g.nodes| == |grad|
  {
    if n == 0 then 0.0
    else Collected(g, ls, grad, v, n - 1)
         + if g.nodes[n - 1].Call? then Passed(g, ls, grad, v, n - 1, |g.nodes[n - 1].args|) else 0.0
  }

  predicate IsCollected(g: Graph, ls: map<nat, Linear>, grad: seq<Grad>, v: nat, n: nat)
    requires n <= |g.nodes| == |grad|
  {
    exists c :: 0 <= c < n && g.nodes[c].Call? && IsPassed(g, ls, grad, v, c, |g.nodes[c].args|)
  }

  /**
   The gradient of every value: what its places in the output are told, plus, from every place in
   which a call reads it, that place's derivative times the call's own gradient. It is missing
   exactly when none of these is there.
   */
  predicate ChainRule(g: Graph, ls: map<nat, Linear>, outs: seq<Grad>, grad: seq<Grad>)
    requires |outs| == |g.output|
  {
    && |grad| == |g.nodes|
    && forall v: nat | v < |grad| ::
         && Amount(grad[v]) == Seeded(g, outs, v, |outs|) + Collected(g, ls, grad, v, |grad|)
         && (grad[v].Some? <==> IsSeeded(g, outs, v, |outs|) || IsCollected(g, ls, grad, v, |grad|))
  }

  lemma {:induction false} SeedIs(g: Graph, outs: seq<Grad>, v: nat, n: nat)
    requires WellFormed(g) && n <= |outs| == |g.output| && v < |g.nodes|
    ensures Amount(Seed(g, outs, n)[v]) == Seeded(g, outs, v, n)
    ensures Seed(g, outs, n)[v].Some? <==> IsSeeded(g, outs, v, n)
  {
    if n > 0 { SeedIs(g, outs, v, n - 1); }
  }

  lemma {:induction false} EdgesAre(g: Graph, ls: map<nat, Linear>, grad: seq<Grad>, v: nat, c: nat, n: nat)
    requires c < |g.nodes| == |grad| && g.nodes[c].Call? && n <= |g.nodes[c].args|
    ensures Amount(EdgeSum(g.nodes[c].args, ls, c, v, grad[c], n)) == Passed(g, ls, grad, v, c, n)
    ensures EdgeSum(g.nodes[c].args, ls, c, v, grad[c], n).Some? <==> IsPassed(g, ls, grad, v, c, n)
  {
    if n > 0 {
      EdgesAre(g, ls, grad, v, c, n - 1);
      OneEdge(ls, c, n - 1, grad[c]);
      hide Mul;
      if IsPassed(g, ls, grad, v, c, n - 1) {
        var j :| 0 <= j < n - 1 && g.nodes[c].args[j] == v && Coefficient(ls, c, j).Some?;
        assert Coefficient(ls, c, j).Some?;
      }
    }
  }

  lemma OneEdge(ls: map<nat, Linear>, c: nat, j: nat, gc: Grad)
    ensures Amount(Times(ArgCoef(ls, c, j), gc)) == Amount(Coefficient(ls, c, j)) * Amount(gc)
    ensures Times(ArgCoef(ls, c, j), gc).Some? <==> Coefficient(ls, c, j).Some? && gc.Some?
  {
  }

  lemma {:induction false} UsesLast(g: Graph, lin: map<nat, Linear>, front: seq<nat>, c: nat, grad: seq<Grad>, v: nat)
    requires AllCalls(g, front) && c < |g.nodes| == |grad| && g.nodes[c].Call?
    ensures AllCalls(g, front + [c])
    ensures Uses(g, lin, front + [c], grad, v) == Plus(Uses(g, lin, front, grad, v), Contribution(g, lin, c, v, grad[c]))
    decreases |front|
  {
    hide Contribution;
    if front == [] {
      assert front + [c] == [c] && [c][1..] == [];
      PlusAssoc(Contribution(g, lin, c, v, grad[c]), None, None);
    } else {
      assert (front + [c])[1..] == front[1..] + [c];
      UsesLast(g, lin, front[1..], c, grad, v);
      PlusAssoc(Contribution(g, lin, front[0], v, grad[front[0]]), Uses(g, lin, front[1..], grad, v), Contribution(g, lin, c, v, grad[c]));
    }
  }

  lemma {:induction false} UsesAre(g: Graph, ls: map<nat, Linear>, grad: seq<Grad>, v: nat, n: nat)
    requires n <= |g.nodes| == |grad|
    ensures AllCalls(g, Calls(g, n))
    ensures Amount(Uses(g, ls, Calls(g, n), grad, v)) == Collected(g, ls, grad, v, n)
    ensures Uses(g, ls, Calls(g, n), grad, v).Some? <==> IsCollected(g, ls, grad, v, n)
  {
    hide *;
    AllCalled(g, n);
    if n == 0 {
      NothingUsed(g, ls, grad, v);
    } else {
      AllCalled(g, n - 1);
      UsesAre(g, ls, grad, v, n - 1);
      CallsNext(g, n);
      CollectedNext(g, ls, grad, v, n);
      if g.nodes[n - 1].Call? {
        UsesLast(g, ls, Calls(g, n - 1), n - 1, grad, v);
        ContributionIs(g, ls, grad, v, n - 1);
        PlusIs(Uses(g, ls, Calls(g, n - 1), grad, v), Contribution(g, ls, n - 1, v, grad[n - 1]));
      }
    }
  }

  lemma NothingUsed(g: Graph, ls: map<nat, Linear>, grad: seq<Grad>, v: nat)
    requires |g.nodes| == |grad|
    ensures AllCalls(g, Calls(g, 0)) && Amount(Uses(g, ls, Calls(g, 0), grad, v)) == Collected(g, ls, grad, v, 0)
    ensures Uses(g, ls, Calls(g, 0), grad, v).Some? <==> IsCollected(g, ls, grad, v, 0)
  {
    NoCalls(g);
    hide Calls, IsPassed, Passed;
  }

  lemma ContributionIs(g: Graph, ls: map<nat, Linear>, grad: seq<Grad>, v: nat, c: nat)
    requires c < |g.nodes| == |grad| && g.nodes[c].Call?
    ensures Amount(Contribution(g, ls, c, v, grad[c])) == Passed(g, ls, grad, v, c, |g.nodes[c].args|)
    ensures Contribution(g, ls, c, v, grad[c]).Some? <==> IsPassed(g, ls, grad, v, c, |g.nodes[c].args|)
  {
    hide EdgeSum, Passed, IsPassed;
    EdgesAre(g, ls, grad, v, c, |g.nodes[c].args|);
  }

  lemma PlusIs(x: Grad, y: Grad)
    ensures Amount(Plus(x, y)) == Amount(x) + Amount(y) && (Plus(x, y).Some? <==> x.Some? || y.Some?)
  {
  }

  lemma CollectedNext(g: Graph, ls: map<nat, Linear>, grad: seq<Grad>, v: nat, n: nat)
    requires 0 < n <= |g.nodes| == |grad|
    ensures Collected(g, ls, grad, v, n) == Collected(g, ls, grad, v, n - 1)
                                            + if g.nodes[n - 1].Call? then Passed(g, ls, grad, v, n - 1, |g.nodes[n - 1].args|) else 0.0
    ensures IsCollected(g, ls, grad, v, n) <==>
              IsCollected(g, ls, grad, v, n - 1) || (g.nodes[n - 1].Call? && IsPassed(g, ls, grad, v, n - 1, |g.nodes[n - 1].args|))
  {
    hide IsPassed, Passed;
  }

  /** The reverse sweep over the whole graph computes what the chain rule says. */
  lemma SweepIsChainRule(g: Graph, ls: map<nat, Linear>, outs: seq<Grad>)
    requires WellFormed(g) && |outs| == |g.output|
    ensures AllCalls(g, Calls(g, |g.nodes|))
    ensures ChainRule(g, ls, outs, Sweep(g, ls, Calls(g, |g.nodes|), Seed(g, outs, |outs|)))
  {
    hide Sweep, Seed, Uses, Seeded, IsSeeded, Collected, IsCollected, Calls;
    CallsAreCalls(g);
    var all, seed := Calls(g, |g.nodes|), Seed(g, outs, |outs|);
    var grad := Sweep(g, ls, all, seed);
    forall v: nat | v < |grad|
      ensures Amount(grad[v]) == Seeded(g, outs, v, |outs|) + Collected(g, ls, grad, v, |grad|)
      ensures grad[v].Some? <==> IsSeeded(g, outs, v, |outs|) || IsCollected(g, ls, grad, v, |grad|)
    {
      SweepIsSeedPlusUses(g, ls, all, seed, v);
      SeedIs(g, outs, v, |outs|);
      UsesAre(g, ls, grad, v, |g.nodes|);
    }
  }

  /** The chain rule leaves no choice. */
  lemma ChainRuleIsDetermined(g: Graph, ls: map<nat, Linear>, outs: seq<Grad>, x: seq<Grad>, y: seq<Grad>)
    requires WellFormed(g) && |outs| == |g.output| && ChainRule(g, ls, outs, x) && ChainRule(g, ls, outs, y)
    ensures x == y
  {
    forall v: nat | v < |x| ensures x[v] == y[v] { SameGradient(g, ls, outs, x, y, v); }
  }

  lemma {:induction false} SameGradient(g: Graph, ls: map<nat, Linear>, outs: seq<Grad>, x: seq<Grad>, y: seq<Grad>, v: nat)
    requires WellFormed(g) && |outs| == |g.output| && ChainRule(g, ls, outs, x) && ChainRule(g, ls, outs, y) && v < |x|
    ensures x[v] == y[v]
    decreases |x| - v
  {
    hide Seeded, IsSeeded, Collected, IsCollected;
    forall c: nat | v < c < |x| ensures x[c] == y[c] { SameGradient(g, ls, outs, x, y, c); }
    SameCollected(g, ls, x, y, v, |x|);
  }

  lemma {:induction false} SameCollected(g: Graph, ls: map<nat, Linear>, x: seq<Grad>, y: seq<Grad>, v: nat, n: nat)
    requires WellFormed(g) && n <= |g.nodes| == |x| == |y| && forall c: nat | v < c < |x| :: x[c] == y[c]
    ensures Collected(g, ls, x, v, n) == Collected(g, ls, y, v, n)
    ensures IsCollected(g, ls, x, v, n) <==> IsCollected(g, ls, y, v, n)
  {
    hide Passed, IsPassed;
    if n > 0 {
      SameCollected(g, ls, x, y, v, n - 1);
      CollectedNext(g, ls, x, v, n);
      CollectedNext(g, ls, y, v, n);
      if g.nodes[n - 1].Call? { SamePassed(g, ls, x, y, v, n - 1, |g.nodes[n - 1].args|); }
    }
  }

  lemma {:induction false} SamePassed(g: Graph, ls: map<nat, Linear>, x: seq<Grad>, y: seq<Grad>, v: nat, c: nat, n: nat)
    requires WellFormed(g) && c < |g.nodes| == |x| == |y| && g.nodes[c].Call? && n <= |g.nodes[c].args|
    requires forall k: nat | v < k < |x| :: x[k] == y[k]
    ensures Passed(g, ls, x, v, c, n) == Passed(g, ls, y, v, c, n)
    ensures IsPassed(g, ls, x, v, c, n) <==> IsPassed(g, ls, y, v, c, n)
  {
    if n > 0 { SamePassed(g, ls, x, y, v, c, n - 1); }
  }
}
