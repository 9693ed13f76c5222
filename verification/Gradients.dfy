/**
 Reverse-mode differentiation over a graph: the sweep that autograd performs, its
 declarative meaning (seed plus the sum over all consumers), and the proof that the
 sweep computes the adjoint of the forward-mode derivative.
 */
module Gradients {
  import opened Graph

  function Plus(x: Grad, y: Grad): Grad {
    if x.None? then y else if y.None? then x else Some(x.value + y.value)
  }

  /** The ring product; proofs that do not need its laws hide it from the solver. */
  function Mul(x: real, y: real): real {
    x * y
  }

  function Times(x: Grad, y: Grad): Grad {
    if x.Some? && y.Some? then Some(Mul(x.value, y.value)) else None
  }

  function Val(x: Grad): real {
    if x.Some? then x.value else 0.0
  }

  lemma PlusAssoc(x: Grad, y: Grad, z: Grad)
    ensures Plus(Plus(x, y), z) == Plus(x, Plus(y, z))
    ensures Plus(x, y) == Plus(y, x)
    ensures Plus(x, None) == x == Plus(None, x)
  {
  }

  function ArgCoef(lin: map<nat, Linear>, c: nat, k: nat): Grad {
    if c in lin && k < |lin[c].args| then lin[c].args[k] else None
  }

  function ParamCoef(lin: map<nat, Linear>, c: nat, k: nat): Grad {
    if c in lin && k < |lin[c].params| then lin[c].params[k] else None
  }

  /** What consumer `c`, with gradient `gc`, contributes to `v` through its first `n` arguments. */
  function EdgeSum(args: seq<nat>, lin: map<nat, Linear>, c: nat, v: nat, gc: Grad, n: nat): Grad
    requires n <= |args|
  {
    if n == 0 then None
    else Plus(EdgeSum(args, lin, c, v, gc, n - 1),
              if args[n - 1] == v then Times(ArgCoef(lin, c, n - 1), gc) else None)
  }

  function Contribution(g: Graph, lin: map<nat, Linear>, c: nat, v: nat, gc: Grad): Grad
    requires c < |g.nodes| && g.nodes[c].Call?
  {
    EdgeSum(g.nodes[c].args, lin, c, v, gc, |g.nodes[c].args|)
  }

  /** One reverse step: consumer `c` adds its contribution to everything it read. */
  function Push(g: Graph, lin: map<nat, Linear>, c: nat, acc: seq<Grad>): (r: seq<Grad>)
    requires c < |g.nodes| == |acc| && g.nodes[c].Call?
    ensures |r| == |acc|
  {
    seq(|acc|, v requires 0 <= v < |acc| => Plus(acc[v], Contribution(g, lin, c, v, acc[c])))
  }

  /** The whole-list reverse sweep, last node first. */
  function Sweep(g: Graph, lin: map<nat, Linear>, ids: seq<nat>, acc: seq<Grad>): (r: seq<Grad>)
    requires AllCalls(g, ids) && |acc| == |g.nodes|
    ensures |r| == |acc|
  {
    if ids == [] then acc
    else Sweep(g, lin, ids[..|ids| - 1], Push(g, lin, ids[|ids| - 1], acc))
  }

  // ---- One step ----

  lemma {:induction false} NoEdge(args: seq<nat>, lin: map<nat, Linear>, c: nat, v: nat, gc: Grad, n: nat)
    requires n <= |args| && (v !in args[..n] || gc.None?)
    ensures EdgeSum(args, lin, c, v, gc, n).None?
  {
    hide Mul;
    if n > 0 {
      assert args[..n] == args[..n - 1] + [args[n - 1]];
      NoEdge(args, lin, c, v, gc, n - 1);
    }
  }

  lemma {:induction false} EdgeSame(args: seq<nat>, lin: map<nat, Linear>, lin': map<nat, Linear>, c: nat, v: nat, gc: Grad, n: nat)
    requires n <= |args| && c in lin && c in lin' && lin[c] == lin'[c]
    ensures EdgeSum(args, lin, c, v, gc, n) == EdgeSum(args, lin', c, v, gc, n)
  {
    hide Mul;
    if n > 0 {
      EdgeSame(args, lin, lin', c, v, gc, n - 1);
    }
  }

  lemma ContributionNone(g: Graph, lin: map<nat, Linear>, c: nat, v: nat, gc: Grad)
    requires c < |g.nodes| && g.nodes[c].Call?
    requires v !in g.nodes[c].args || gc.None?
    ensures Contribution(g, lin, c, v, gc).None?
  {
    var args := g.nodes[c].args;
    assert args[..|args|] == args;
    NoEdge(args, lin, c, v, gc, |args|);
  }

  lemma PushUntouched(g: Graph, lin: map<nat, Linear>, c: nat, acc: seq<Grad>)
    requires c < |g.nodes| == |acc| && g.nodes[c].Call?
    ensures forall v: nat | v < |acc| && (v !in g.nodes[c].args || acc[c].None?) :: Push(g, lin, c, acc)[v] == acc[v]
  {
    hide Mul;
    forall v: nat | v < |acc| && (v !in g.nodes[c].args || acc[c].None?)
      ensures Push(g, lin, c, acc)[v] == acc[v]
    {
      ContributionNone(g, lin, c, v, acc[c]);
    }
  }

  // ---- The sweep ----

  lemma {:induction false} SweepAppend(g: Graph, lin: map<nat, Linear>, a: seq<nat>, b: seq<nat>, acc: seq<Grad>)
    requires AllCalls(g, a) && AllCalls(g, b) && AllCalls(g, a + b) && |acc| == |g.nodes|
    ensures Sweep(g, lin, a + b, acc) == Sweep(g, lin, a, Sweep(g, lin, b, acc))
  {
    hide Mul;
    if b == [] {
      assert a + b == a;
    } else {
      var n := |b| - 1;
      assert (a + b)[..|a + b| - 1] == a + b[..n];
      SweepAppend(g, lin, a, b[..n], Push(g, lin, b[n], acc));
    }
  }

  /** A value nobody in the list reads keeps the gradient it had. */
  lemma {:induction false} SweepUntouched(g: Graph, lin: map<nat, Linear>, ids: seq<nat>, acc: seq<Grad>, v: nat)
    requires AllCalls(g, ids) && |acc| == |g.nodes| && v < |acc|
    requires forall j | 0 <= j < |ids| :: v !in g.nodes[ids[j]].args
    ensures Sweep(g, lin, ids, acc)[v] == acc[v]
  {
    hide Mul;
    if ids != [] {
      var n := |ids| - 1;
      PushUntouched(g, lin, ids[n], acc);
      SweepUntouched(g, lin, ids[..n], Push(g, lin, ids[n], acc), v);
    }
  }

  /** A list none of whose nodes has a gradient contributes nothing: it may be skipped. */
  lemma {:induction false} SweepSkipped(g: Graph, lin: map<nat, Linear>, ids: seq<nat>, acc: seq<Grad>)
    requires AllCalls(g, ids) && |acc| == |g.nodes|
    requires forall j | 0 <= j < |ids| :: acc[ids[j]].None?
    ensures Sweep(g, lin, ids, acc) == acc
  {
    hide Mul;
    if ids != [] {
      var n := |ids| - 1;
      PushUntouched(g, lin, ids[n], acc);
      assert Push(g, lin, ids[n], acc) == acc;
      SweepSkipped(g, lin, ids[..n], acc);
    }
  }

  /** Only the coefficients of the listed nodes matter. */
  lemma {:induction false} SweepSame(g: Graph, lin: map<nat, Linear>, lin': map<nat, Linear>, ids: seq<nat>, acc: seq<Grad>)
    requires AllCalls(g, ids) && |acc| == |g.nodes|
    requires forall j | 0 <= j < |ids| :: ids[j] in lin && ids[j] in lin' && lin[ids[j]] == lin'[ids[j]]
    ensures Sweep(g, lin, ids, acc) == Sweep(g, lin', ids, acc)
  {
    hide Mul;
    if ids != [] {
      var n := |ids| - 1;
      var c := ids[n];
      forall v: nat | v < |acc|
        ensures Contribution(g, lin, c, v, acc[c]) == Contribution(g, lin', c, v, acc[c])
      {
        EdgeSame(g.nodes[c].args, lin, lin', c, v, acc[c], |g.nodes[c].args|);
      }
      assert Push(g, lin, c, acc) == Push(g, lin', c, acc);
      SweepSame(g, lin, lin', ids[..n], Push(g, lin, c, acc));
    }
  }

  /** `base` holds what was already accumulated; `local` only what the list is told. */
  ghost predicate Superposed(ids: seq<nat>, acc: seq<Grad>, base: seq<Grad>, local: seq<Grad>) {
    && |acc| == |base| == |local|
    && (forall v: nat | v < |acc| && v in ids :: acc[v] == local[v])
    && (forall v: nat | v < |acc| && v !in ids :: acc[v] == Plus(base[v], local[v]))
  }

  /**
   Running the sweep on a list alone and adding the result to what was accumulated
   outside is the same as running it in place.
   */
  lemma {:induction false} SweepLocal(g: Graph, lin: map<nat, Linear>, all: seq<nat>, ids: seq<nat>,
                                      acc: seq<Grad>, base: seq<Grad>, local: seq<Grad>)
    requires AllCalls(g, ids) && |acc| == |g.nodes| && Superposed(all, acc, base, local)
    requires forall j | 0 <= j < |ids| :: ids[j] in all
    ensures Superposed(all, Sweep(g, lin, ids, acc), base, Sweep(g, lin, ids, local))
  {
    hide Mul;
    if ids != [] {
      var n := |ids| - 1;
      var c := ids[n];
      assert c in all;
      var acc', local' := Push(g, lin, c, acc), Push(g, lin, c, local);
      forall v: nat | v < |acc| && v !in all
        ensures acc'[v] == Plus(base[v], local'[v])
      {
        PlusAssoc(base[v], local[v], Contribution(g, lin, c, v, acc[c]));
      }
      SweepLocal(g, lin, all, ids[..n], acc', base, local');
    }
  }

  // ---- What the sweep means ----

  /** The sum, over the listed consumers, of what each sends to `v`. */
  function Uses(g: Graph, lin: map<nat, Linear>, ids: seq<nat>, grad: seq<Grad>, v: nat): Grad
    requires AllCalls(g, ids) && |grad| == |g.nodes|
  {
    if ids == [] then None
    else Plus(Contribution(g, lin, ids[0], v, grad[ids[0]]), Uses(g, lin, ids[1..], grad, v))
  }

  lemma {:induction false} UsesSame(g: Graph, lin: map<nat, Linear>, ids: seq<nat>, x: seq<Grad>, y: seq<Grad>, v: nat)
    requires AllCalls(g, ids) && |x| == |y| == |g.nodes|
    requires forall j | 0 <= j < |ids| :: x[ids[j]] == y[ids[j]]
    ensures Uses(g, lin, ids, x, v) == Uses(g, lin, ids, y, v)
  {
    hide Mul;
    if ids != [] {
      assert forall j | 0 <= j < |ids| - 1 :: ids[1..][j] == ids[j + 1];
      assert AllCalls(g, ids[1..]);
      UsesSame(g, lin, ids[1..], x, y, v);
    }
  }

  /** The first node of a list in graph order is pushed last, onto the sweep of the rest. */
  lemma SweepFirst(g: Graph, lin: map<nat, Linear>, ids: seq<nat>, seed: seq<Grad>)
    requires AllCalls(g, ids) && ids != [] && |seed| == |g.nodes|
    ensures AllCalls(g, ids[1..])
    ensures Sweep(g, lin, ids, seed) == Push(g, lin, ids[0], Sweep(g, lin, ids[1..], seed))
  {
    hide Mul, Push;
    var head, tail := ids[..1], ids[1..];
    assert ids == head + tail;
    SweepAppend(g, lin, head, tail, seed);
    var mid := Sweep(g, lin, tail, seed);
    assert Sweep(g, lin, head, mid) == Sweep(g, lin, head[..0], Push(g, lin, head[0], mid));
  }

  /**
   The gradient of every value is its seed plus the sum over all its consumers of the
   consumer's own final gradient times the local derivative.
   */
  lemma {:induction false} SweepIsSeedPlusUses(g: Graph, lin: map<nat, Linear>, ids: seq<nat>, seed: seq<Grad>, v: nat)
    requires WellFormed(g) && AllCalls(g, ids) && Ascending(ids) && |seed| == |g.nodes| && v < |seed|
    ensures Sweep(g, lin, ids, seed)[v] == Plus(seed[v], Uses(g, lin, ids, Sweep(g, lin, ids, seed), v))
  {
    hide Mul;
    if ids != [] {
      var c, tail := ids[0], ids[1..];
      SweepFirst(g, lin, ids, seed);
      assert Ascending(tail);
      SweepIsSeedPlusUses(g, lin, tail, seed, v);
      UsesAfterPush(g, lin, ids, Sweep(g, lin, tail, seed), v);
      var mid, final := Sweep(g, lin, tail, seed), Sweep(g, lin, ids, seed);
      var x, y := Contribution(g, lin, c, v, mid[c]), Uses(g, lin, tail, mid, v);
      PlusAssoc(seed[v], y, x);
      PlusAssoc(x, y, None);
    }
  }

  /** Pushing the first node changes no listed node's gradient, so the sums read the same. */
  lemma UsesAfterPush(g: Graph, lin: map<nat, Linear>, ids: seq<nat>, mid: seq<Grad>, v: nat)
    requires WellFormed(g) && AllCalls(g, ids) && Ascending(ids) && ids != [] && |mid| == |g.nodes| && v < |mid|
    ensures AllCalls(g, ids[1..])
    ensures Uses(g, lin, ids, Push(g, lin, ids[0], mid), v)
         == Plus(Contribution(g, lin, ids[0], v, mid[ids[0]]), Uses(g, lin, ids[1..], mid, v))
  {
    hide Mul;
    var c, final := ids[0], Push(g, lin, ids[0], mid);
    PushUntouched(g, lin, c, mid);
    forall j | 0 <= j < |ids| ensures final[ids[j]] == mid[ids[j]] {
      assert ids[j] !in g.nodes[c].args;
    }
    UsesSame(g, lin, ids[1..], mid, final, v);
  }

  // ---- Forward mode, and the adjoint identity ----

  function Total(p: seq<real>, n: nat): real
    requires n <= |p|
  {
    if n == 0 then 0.0 else Total(p, n - 1) + p[n - 1]
  }

  function ArgProducts(args: seq<nat>, lin: map<nat, Linear>, c: nat, t: seq<real>): (p: seq<real>)
    requires forall k | 0 <= k < |args| :: args[k] < |t|
    ensures |p| == |args|
  {
    seq(|args|, k requires 0 <= k < |args| => Mul(Val(ArgCoef(lin, c, k)), t[args[k]]))
  }

  /** Derivative of call `c` along argument tangents `t`, through its first `n` arguments. */
  function ArgTangent(args: seq<nat>, lin: map<nat, Linear>, c: nat, t: seq<real>, n: nat): real
    requires n <= |args| && forall k | 0 <= k < |args| :: args[k] < |t|
  {
    Total(ArgProducts(args, lin, c, t), n)
  }

  /** Derivative of call `c` along parameter tangents `tau`. */
  function ParamTangent(params: seq<nat>, lin: map<nat, Linear>, c: nat, tau: map<nat, real>): real {
    var p := seq(|params|, k requires 0 <= k < |params| => Mul(Val(ParamCoef(lin, c, k)), Look(tau, params[k])));
    Total(p, |params|)
  }

  function CallParamTangent(g: Graph, lin: map<nat, Linear>, c: nat, tau: map<nat, real>): real
    requires c < |g.nodes| && g.nodes[c].Call?
  {
    ParamTangent(g.nodes[c].params, lin, c, tau)
  }

  /** Forward-mode differentiation: tangents flow along the graph in evaluation order. */
  function Forward(g: Graph, lin: map<nat, Linear>, ids: seq<nat>, t: seq<real>, tau: map<nat, real>): (r: seq<real>)
    requires AllCalls(g, ids) && |t| == |g.nodes| && WellFormed(g)
    ensures |r| == |t|
  {
    if ids == [] then t
    else
      var c := ids[|ids| - 1];
      var r := Forward(g, lin, ids[..|ids| - 1], t, tau);
      r[c := ArgTangent(g.nodes[c].args, lin, c, r, |g.nodes[c].args|) + CallParamTangent(g, lin, c, tau)]
  }

  function Products(x: seq<Grad>, t: seq<real>): (p: seq<real>)
    requires |x| == |t|
    ensures |p| == |t|
  {
    seq(|t|, v requires 0 <= v < |t| => Mul(Val(x[v]), t[v]))
  }

  /** The inner product of gradients with tangents. */
  function Dot(x: seq<Grad>, t: seq<real>): real
    requires |x| == |t|
  {
    Total(Products(x, t), |t|)
  }

  function ParamProducts(g: Graph, lin: map<nat, Linear>, ids: seq<nat>, grad: seq<Grad>, tau: map<nat, real>): (p: seq<real>)
    requires AllCalls(g, ids) && |grad| == |g.nodes|
    ensures |p| == |ids|
  {
    seq(|ids|, j requires 0 <= j < |ids| => Mul(Val(grad[ids[j]]), CallParamTangent(g, lin, ids[j], tau)))
  }

  /** What a parameter perturbation contributes: gradients of the calls times their parameter tangents. */
  function ParamDot(g: Graph, lin: map<nat, Linear>, ids: seq<nat>, grad: seq<Grad>, tau: map<nat, real>): real
    requires AllCalls(g, ids) && |grad| == |g.nodes|
  {
    Total(ParamProducts(g, lin, ids, grad, tau), |ids|)
  }

  lemma {:induction false} TotalSame(p: seq<real>, q: seq<real>, n: nat)
    requires n <= |p| && n <= |q| && forall k | 0 <= k < n :: p[k] == q[k]
    ensures Total(p, n) == Total(q, n)
  {
    if n > 0 {
      TotalSame(p, q, n - 1);
    }
  }

  lemma ParamDotLast(g: Graph, lin: map<nat, Linear>, ids: seq<nat>, grad: seq<Grad>, tau: map<nat, real>, n: nat)
    requires AllCalls(g, ids) && |grad| == |g.nodes| && n + 1 == |ids|
    ensures AllCalls(g, ids[..n])
    ensures ParamDot(g, lin, ids, grad, tau)
         == ParamDot(g, lin, ids[..n], grad, tau) + Mul(Val(grad[ids[n]]), CallParamTangent(g, lin, ids[n], tau))
  {
    hide Mul;
    TotalSame(ParamProducts(g, lin, ids, grad, tau), ParamProducts(g, lin, ids[..n], grad, tau), n);
  }

  lemma ValPlus(x: Grad, y: Grad)
    ensures Val(Plus(x, y)) == Val(x) + Val(y)
    ensures Val(Times(x, y)) == Mul(Val(x), Val(y))
  {
  }

  lemma {:induction false} TotalBump(p: seq<real>, q: seq<real>, at: nat, x: real, n: nat)
    requires n <= |p| == |q| && at < |p|
    requires forall v: nat | v < |p| :: q[v] == if v == at then p[v] + x else p[v]
    ensures Total(q, n) == Total(p, n) + if at < n then x else 0.0
  {
    if n > 0 {
      TotalBump(p, q, at, x, n - 1);
    }
  }

  function PushEdges(g: Graph, lin: map<nat, Linear>, c: nat, acc: seq<Grad>, n: nat): (r: seq<Grad>)
    requires c < |g.nodes| == |acc| && g.nodes[c].Call? && n <= |g.nodes[c].args|
    ensures |r| == |acc|
  {
    seq(|acc|, v requires 0 <= v < |acc| => Plus(acc[v], EdgeSum(g.nodes[c].args, lin, c, v, acc[c], n)))
  }

  lemma TimesDistribute(coef: Grad, gc: Grad, s: real, t: real, total: real)
    requires total == s + Mul(Val(coef), t)
    ensures Mul(Val(gc), total) == Mul(Val(gc), s) + Mul(Val(Times(coef, gc)), t)
  {
    ValPlus(coef, gc);
    var x, y := Val(gc), Val(coef);
    assert x * (s + y * t) == x * s + (y * x) * t;
  }

  lemma Distribute(g: real, s: real, t: real)
    ensures Mul(g, s + t) == Mul(g, s) + Mul(g, t)
    ensures Mul(g, s) == Mul(s, g)
  {
  }

  lemma MulZero(x: real)
    ensures Mul(x, 0.0) == 0.0 == Mul(0.0, x)
  {
  }

  lemma ProductPlus(x: Grad, y: Grad, t: real)
    ensures Mul(Val(Plus(x, y)), t) == Mul(Val(x), t) + Mul(Val(y), t)
  {
  }

  lemma DotPushEdge(g: Graph, lin: map<nat, Linear>, c: nat, acc: seq<Grad>, t: seq<real>, n: nat)
    requires WellFormed(g) && c < |g.nodes| == |acc| == |t| && g.nodes[c].Call? && 0 < n <= |g.nodes[c].args|
    ensures Dot(PushEdges(g, lin, c, acc, n), t)
         == Dot(PushEdges(g, lin, c, acc, n - 1), t)
            + Mul(Val(Times(ArgCoef(lin, c, n - 1), acc[c])), t[g.nodes[c].args[n - 1]])
  {
    hide Mul;
    var args := g.nodes[c].args;
    var at, x := args[n - 1], Times(ArgCoef(lin, c, n - 1), acc[c]);
    var before, after := PushEdges(g, lin, c, acc, n - 1), PushEdges(g, lin, c, acc, n);
    forall v: nat | v < |acc| ensures after[v] == Plus(before[v], if v == at then x else None) {
      PlusAssoc(acc[v], EdgeSum(args, lin, c, v, acc[c], n - 1), if v == at then x else None);
    }
    ProductPlus(before[at], x, t[at]);
    TotalBump(Products(before, t), Products(after, t), at, Mul(Val(x), t[at]), |t|);
  }

  /** Transposing one call: pushing its gradient back dots like its forward derivative. */
  lemma {:induction false} DotPush(g: Graph, lin: map<nat, Linear>, c: nat, acc: seq<Grad>, t: seq<real>, n: nat)
    requires WellFormed(g) && c < |g.nodes| == |acc| == |t| && g.nodes[c].Call? && n <= |g.nodes[c].args|
    ensures Dot(PushEdges(g, lin, c, acc, n), t)
         == Dot(acc, t) + Mul(Val(acc[c]), ArgTangent(g.nodes[c].args, lin, c, t, n))
  {
    hide Mul;
    if n == 0 {
      assert PushEdges(g, lin, c, acc, 0) == acc;
      MulZero(Val(acc[c]));
    } else {
      DotPush(g, lin, c, acc, t, n - 1);
      DotPushEdge(g, lin, c, acc, t, n);
      TimesDistribute(ArgCoef(lin, c, n - 1), acc[c], ArgTangent(g.nodes[c].args, lin, c, t, n - 1),
                      t[g.nodes[c].args[n - 1]], ArgTangent(g.nodes[c].args, lin, c, t, n));
    }
  }

  lemma DotUpdate(x: seq<Grad>, t: seq<real>, c: nat, y: real)
    requires |x| == |t| && c < |t| && t[c] == 0.0
    ensures Dot(x, t[c := y]) == Dot(x, t) + Mul(Val(x[c]), y)
  {
    hide Mul;
    MulZero(Val(x[c]));
    TotalBump(Products(x, t), Products(x, t[c := y]), c, Mul(Val(x[c]), y), |t|);
  }

  lemma {:induction false} ForwardUntouched(g: Graph, lin: map<nat, Linear>, ids: seq<nat>, t: seq<real>, tau: map<nat, real>, v: nat)
    requires AllCalls(g, ids) && |t| == |g.nodes| && WellFormed(g) && v < |t| && v !in ids
    ensures Forward(g, lin, ids, t, tau)[v] == t[v]
  {
    hide Mul;
    if ids != [] {
      var n := |ids| - 1;
      assert ids == ids[..n] + [ids[n]];
      ForwardUntouched(g, lin, ids[..n], t, tau, v);
    }
  }

  /** Sweeping a list from its last node: the last node's own gradient is already final. */
  lemma LastIsFinal(g: Graph, lin: map<nat, Linear>, ids: seq<nat>, seed: seq<Grad>)
    requires WellFormed(g) && AllCalls(g, ids) && Ascending(ids) && ids != [] && |seed| == |g.nodes|
    ensures Sweep(g, lin, ids, seed)[ids[|ids| - 1]] == seed[ids[|ids| - 1]]
  {
    hide Mul;
    var n := |ids| - 1;
    var c, front := ids[n], ids[..n];
    forall j | 0 <= j < |ids| ensures c !in g.nodes[ids[j]].args {
    }
    SweepUntouched(g, lin, ids, seed, c);
  }

  /** One step of the identity: moving the last call from the forward to the reverse side. */
  lemma DotStep(g: Graph, lin: map<nat, Linear>, c: nat, seed: seq<Grad>, r: seq<real>, x: real, y: real)
    requires WellFormed(g) && c < |g.nodes| == |seed| == |r| && g.nodes[c].Call? && r[c] == 0.0
    requires x == ArgTangent(g.nodes[c].args, lin, c, r, |g.nodes[c].args|)
    ensures Dot(seed, r[c := x + y]) == Dot(Push(g, lin, c, seed), r) + Mul(Val(seed[c]), y)
  {
    hide Mul;
    var n := |g.nodes[c].args|;
    DotUpdate(seed, r, c, x + y);
    assert Push(g, lin, c, seed) == PushEdges(g, lin, c, seed, n);
    DotPush(g, lin, c, seed, r, n);
    Distribute(Val(seed[c]), x, y);
  }

  /**
   The adjoint identity. For every seed on the values and every perturbation of inputs
   and parameters, the change of the seeded outputs computed forwards equals the
   gradients computed backwards applied to the perturbation.
   */
  lemma {:induction false} SweepIsAdjoint(g: Graph, lin: map<nat, Linear>, ids: seq<nat>, seed: seq<Grad>,
                                          t: seq<real>, tau: map<nat, real>)
    requires WellFormed(g) && AllCalls(g, ids) && Ascending(ids)
    requires |seed| == |t| == |g.nodes|
    requires forall j | 0 <= j < |ids| :: t[ids[j]] == 0.0
    ensures Dot(seed, Forward(g, lin, ids, t, tau))
         == Dot(Sweep(g, lin, ids, seed), t) + ParamDot(g, lin, ids, Sweep(g, lin, ids, seed), tau)
  {
    hide Mul;
    if ids != [] {
      var n := |ids| - 1;
      SweepIsAdjoint(g, lin, ids[..n], Push(g, lin, ids[n], seed), t, tau);
      AdjointStep(g, lin, ids, seed, t, tau, n);
      ParamDotLast(g, lin, ids, Sweep(g, lin, ids, seed), tau, n);
    }
  }

  lemma AdjointStep(g: Graph, lin: map<nat, Linear>, ids: seq<nat>, seed: seq<Grad>, t: seq<real>,
                    tau: map<nat, real>, n: nat)
    requires WellFormed(g) && AllCalls(g, ids) && Ascending(ids) && n + 1 == |ids|
    requires |seed| == |t| == |g.nodes|
    requires t[ids[n]] == 0.0
    ensures Dot(seed, Forward(g, lin, ids, t, tau))
         == Dot(Push(g, lin, ids[n], seed), Forward(g, lin, ids[..n], t, tau))
            + Mul(Val(Sweep(g, lin, ids, seed)[ids[n]]), CallParamTangent(g, lin, ids[n], tau))
  {
    hide Mul;
    var c := ids[n];
    var r := Forward(g, lin, ids[..n], t, tau);
    ForwardUntouched(g, lin, ids[..n], t, tau, c);
    DotStep(g, lin, c, seed, r, ArgTangent(g.nodes[c].args, lin, c, r, |g.nodes[c].args|),
            CallParamTangent(g, lin, c, tau));
    LastIsFinal(g, lin, ids, seed);
  }
}
