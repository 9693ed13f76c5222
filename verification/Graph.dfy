/**
 Traced operator graphs, their cuts into groups, and the values they compute.

 A graph is a list of nodes in topological order; a node is named by its index.
 Every tensor is one element of an exact field (`real`): operators are arbitrary
 functions, so nothing below depends on what an operator computes.
 */
module Graph {

  datatype Option<+T> = None | Some(value: T)

  /** `buffer` is the persistent state a node reads; `mutable` nodes (BatchNorm) also replace it. */
  datatype Node =
    | Placeholder
    | Call(args: seq<nat>, buffer: Option<nat>, mutable: bool, params: seq<nat>)

  datatype Graph = Graph(nodes: seq<Node>, output: seq<nat>)

  /** What one operator call does: its value, the buffer it leaves and the RNG it leaves. */
  datatype Effect = Effect(value: real, buffer: real, rng: int)

  /** A partial derivative; `None` is "no differentiable path". */
  type Grad = Option<real>

  /** Linearisation of one call: a coefficient per argument and per parameter. */
  datatype Linear = Linear(args: seq<Grad>, params: seq<Grad>)

  datatype Operators = Operators(
    apply: (nat, seq<real>, real, int) -> Effect,
    derive: (nat, seq<real>, real, int) -> Linear)

  /** Everything execution reads and writes: values, persistent buffers, global RNG. */
  datatype World = World(env: map<nat, real>, bufs: map<nat, real>, rng: int)

  predicate WellFormed(g: Graph) {
    && (forall i, k | 0 <= i < |g.nodes| && g.nodes[i].Call? && 0 <= k < |g.nodes[i].args| :: g.nodes[i].args[k] < i)
    && (forall k | 0 <= k < |g.output| :: g.output[k] < |g.nodes|)
  }

  function Placeholders(g: Graph): set<nat> {
    set i | 0 <= i < |g.nodes| && g.nodes[i].Placeholder?
  }

  /** The executable nodes among the first `n`, in graph order. */
  function Calls(g: Graph, n: nat): (ids: seq<nat>)
    requires n <= |g.nodes|
    ensures forall c: nat :: c in ids <==> c < n && g.nodes[c].Call?
    ensures forall j, k | 0 <= j < k < |ids| :: ids[j] < ids[k]
  {
    if n == 0 then []
    else if g.nodes[n - 1].Call? then
      var front := Calls(g, n - 1);
      assert forall j | 0 <= j < |front| :: front[j] in front;
      front + [n - 1]
    else Calls(g, n - 1)
  }

  function Flatten(cut: seq<seq<nat>>): seq<nat> {
    if cut == [] then [] else Flatten(cut[..|cut| - 1]) + cut[|cut| - 1]
  }

  /** A cut: consecutive non-empty groups that together are the executable nodes in order. */
  predicate IsCut(g: Graph, cut: seq<seq<nat>>) {
    && Flatten(cut) == Calls(g, |g.nodes|)
    && forall i | 0 <= i < |cut| :: cut[i] != []
  }

  predicate AllCalls(g: Graph, ids: seq<nat>) {
    forall j | 0 <= j < |ids| :: ids[j] < |g.nodes| && g.nodes[ids[j]].Call?
  }

  function Look(m: map<nat, real>, k: nat): real {
    if k in m then m[k] else 0.0
  }

  function ArgValues(args: seq<nat>, env: map<nat, real>): seq<real> {
    seq(|args|, k requires 0 <= k < |args| => Look(env, args[k]))
  }

  function BufferValue(node: Node, bufs: map<nat, real>): real
    requires node.Call?
  {
    if node.buffer.Some? then Look(bufs, node.buffer.value) else 0.0
  }

  function EffectOf(g: Graph, ops: Operators, c: nat, w: World): Effect
    requires c < |g.nodes| && g.nodes[c].Call?
  {
    ops.apply(c, ArgValues(g.nodes[c].args, w.env), BufferValue(g.nodes[c], w.bufs), w.rng)
  }

  predicate Writes(node: Node, b: nat) {
    node.Call? && node.mutable && node.buffer == Some(b)
  }

  /** Eager evaluation of one node. */
  function Step(g: Graph, ops: Operators, c: nat, w: World): World
    requires c < |g.nodes| && g.nodes[c].Call?
  {
    var node := g.nodes[c];
    var e := EffectOf(g, ops, c, w);
    World(w.env[c := e.value],
          if node.mutable && node.buffer.Some? then w.bufs[node.buffer.value := e.buffer] else w.bufs,
          e.rng)
  }

  /** Node-by-node evaluation: what the uncut model computes. */
  function Run(g: Graph, ops: Operators, ids: seq<nat>, w: World): World
    requires AllCalls(g, ids)
  {
    if ids == [] then w
    else Step(g, ops, ids[|ids| - 1], Run(g, ops, ids[..|ids| - 1], w))
  }

  function LinearAt(g: Graph, ops: Operators, c: nat, w: World): Linear
    requires c < |g.nodes| && g.nodes[c].Call?
  {
    ops.derive(c, ArgValues(g.nodes[c].args, w.env), BufferValue(g.nodes[c], w.bufs), w.rng)
  }

  /** The derivative coefficients met while running `ids` from `w`. */
  function Linearize(g: Graph, ops: Operators, ids: seq<nat>, w: World): map<nat, Linear>
    requires AllCalls(g, ids)
  {
    if ids == [] then map[]
    else
      var c, front := ids[|ids| - 1], ids[..|ids| - 1];
      Linearize(g, ops, front, w)[c := LinearAt(g, ops, c, Run(g, ops, front, w))]
  }

  // ---- Lists and cuts ----

  lemma {:induction false} FlattenAppend(a: seq<seq<nat>>, b: seq<seq<nat>>)
    ensures Flatten(a + b) == Flatten(a) + Flatten(b)
  {
    if b == [] {
      assert a + b == a;
    } else {
      assert (a + b)[..|a + b| - 1] == a + b[..|b| - 1];
      FlattenAppend(a, b[..|b| - 1]);
    }
  }

  lemma FlattenSuffix(cut: seq<seq<nat>>, i: nat)
    requires i < |cut|
    ensures Flatten(cut[i..]) == cut[i] + Flatten(cut[i + 1..])
  {
    var one, after := [cut[i]], cut[i + 1..];
    assert cut[i..] == one + after;
    FlattenAppend(one, after);
    assert Flatten(one) == Flatten(one[..0]) + cut[i];
    assert Flatten(one) == cut[i];
  }

  lemma FlattenPrefix(cut: seq<seq<nat>>, i: nat)
    requires i < |cut|
    ensures Flatten(cut[..i + 1]) == Flatten(cut[..i]) + cut[i]
  {
    assert cut[..i + 1][..i] == cut[..i];
  }

  /** The cut around group `i`, as slices of the execution order. */
  lemma CutAt(cut: seq<seq<nat>>, i: nat)
    requires i < |cut|
    ensures var all, lo, hi := Flatten(cut), |Flatten(cut[..i])|, |Flatten(cut[..i + 1])|;
            && hi == lo + |cut[i]| <= |all|
            && all[..lo] == Flatten(cut[..i])
            && all[lo..hi] == cut[i]
            && all[hi..] == Flatten(cut[i + 1..])
            && all[lo..] == Flatten(cut[i..])
  {
    FlattenPrefix(cut, i);
    FlattenSuffix(cut, i);
    assert cut == cut[..i] + cut[i..];
    FlattenAppend(cut[..i], cut[i..]);
    Slices(Flatten(cut), Flatten(cut[..i]), Flatten(cut[i..]), cut[i], Flatten(cut[i + 1..]));
  }

  lemma Slices(all: seq<nat>, before: seq<nat>, rest: seq<nat>, here: seq<nat>, after: seq<nat>)
    requires all == before + rest && rest == here + after
    ensures var lo, hi := |before|, |before| + |here|;
            && all[..lo] == before && all[lo..] == rest && all[lo..hi] == here && all[hi..] == after
  {
  }

  /** In a cut, groups follow graph order. */
  lemma CutOrder(g: Graph, cut: seq<seq<nat>>, i: nat)
    requires IsCut(g, cut) && i < |cut|
    ensures AllCalls(g, Flatten(cut)) && AllCalls(g, Flatten(cut[..i])) && AllCalls(g, cut[i])
    ensures AllCalls(g, Flatten(cut[i + 1..])) && AllCalls(g, Flatten(cut[i..]))
    ensures forall x | x in Flatten(cut[..i]) :: x < cut[i][0]
    ensures forall x {:trigger x in Flatten(cut[i + 1..])} | x in Flatten(cut[i + 1..]) :: cut[i][|cut[i]| - 1] < x
    ensures Ascending(cut[i]) && Ascending(Flatten(cut))
  {
    CutAt(cut, i);
    CallsAreCalls(g);
    var lo, hi := |Flatten(cut[..i])|, |Flatten(cut[..i + 1])|;
    SliceOrder(g, Flatten(cut), lo, hi);
  }

  lemma CallsAreCalls(g: Graph)
    ensures AllCalls(g, Calls(g, |g.nodes|)) && Ascending(Calls(g, |g.nodes|))
  {
    var all := Calls(g, |g.nodes|);
    assert forall k | 0 <= k < |all| :: all[k] in all;
  }

  lemma SliceOrder(g: Graph, all: seq<nat>, lo: nat, hi: nat)
    requires AllCalls(g, all) && Ascending(all) && lo < hi <= |all|
    ensures AllCalls(g, all[..lo]) && AllCalls(g, all[lo..hi]) && AllCalls(g, all[hi..]) && AllCalls(g, all[lo..])
    ensures Ascending(all[lo..hi])
    ensures forall x | x in all[..lo] :: x < all[lo..hi][0]
    ensures forall x {:trigger x in all[hi..]} | x in all[hi..] :: all[lo..hi][hi - lo - 1] < x
  {
  }

  predicate Ascending(ids: seq<nat>) {
    forall j, k | 0 <= j < k < |ids| :: ids[j] < ids[k]
  }

  /** Inside a list in graph order, an argument that belongs to the list comes earlier in it. */
  lemma ArgsEarlier(g: Graph, ids: seq<nat>, j: nat, a: nat)
    requires WellFormed(g) && AllCalls(g, ids) && Ascending(ids)
    requires j < |ids| && a in g.nodes[ids[j]].args && a in ids
    ensures a in ids[..j]
  {
    var k :| 0 <= k < |ids| && ids[k] == a;
    assert k < j;
    assert ids[..j][k] == a;
  }

  // ---- Running lists of nodes ----

  lemma {:induction false} RunAppend(g: Graph, ops: Operators, a: seq<nat>, b: seq<nat>, w: World)
    requires AllCalls(g, a) && AllCalls(g, b)
    ensures AllCalls(g, a + b)
    ensures Run(g, ops, a + b, w) == Run(g, ops, b, Run(g, ops, a, w))
  {
    if b == [] {
      assert a + b == a;
    } else {
      assert (a + b)[..|a + b| - 1] == a + b[..|b| - 1];
      RunAppend(g, ops, a, b[..|b| - 1], w);
    }
  }

  /** Running nodes defines their values and touches nothing else. */
  lemma {:induction false} RunFrame(g: Graph, ops: Operators, ids: seq<nat>, w: World)
    requires AllCalls(g, ids)
    ensures Run(g, ops, ids, w).env.Keys == w.env.Keys + (set c | c in ids)
    ensures forall x | x !in ids :: Look(Run(g, ops, ids, w).env, x) == Look(w.env, x)
    ensures forall b | (forall c | c in ids :: !Writes(g.nodes[c], b)) ::
              Look(Run(g, ops, ids, w).bufs, b) == Look(w.bufs, b)
  {
    if ids != [] {
      var c, front := ids[|ids| - 1], ids[..|ids| - 1];
      assert ids == front + [c];
      RunFrame(g, ops, front, w);
      assert forall x :: x in ids <==> x in front || x == c;
    }
  }

  /** Two worlds that agree on everything `ids` reads from outside. */
  ghost predicate Agree(g: Graph, ids: seq<nat>, u: World, w: World)
    requires AllCalls(g, ids)
  {
    && u.rng == w.rng
    && (forall j, a | 0 <= j < |ids| && a in g.nodes[ids[j]].args ::
          a in ids[..j] || Look(u.env, a) == Look(w.env, a))
    && (forall c | c in ids && g.nodes[c].buffer.Some? ::
          Look(u.bufs, g.nodes[c].buffer.value) == Look(w.bufs, g.nodes[c].buffer.value))
  }

  lemma AgreePrefix(g: Graph, ids: seq<nat>, u: World, w: World, n: nat)
    requires AllCalls(g, ids) && Agree(g, ids, u, w) && n <= |ids|
    ensures AllCalls(g, ids[..n]) && Agree(g, ids[..n], u, w)
  {
    assert forall j | 0 <= j < n :: ids[..n][j] == ids[j] && ids[..n][..j] == ids[..j];
  }

  /** Runs from agreeing worlds produce the same values, the same buffers and the same RNG. */
  lemma {:induction false} RunAgree(g: Graph, ops: Operators, ids: seq<nat>, u: World, w: World)
    requires AllCalls(g, ids) && Agree(g, ids, u, w)
    ensures Run(g, ops, ids, u).rng == Run(g, ops, ids, w).rng
    ensures forall x | x in ids || Look(u.env, x) == Look(w.env, x) ::
              Look(Run(g, ops, ids, u).env, x) == Look(Run(g, ops, ids, w).env, x)
    ensures forall b | Look(u.bufs, b) == Look(w.bufs, b) ::
              Look(Run(g, ops, ids, u).bufs, b) == Look(Run(g, ops, ids, w).bufs, b)
  {
    if ids != [] {
      var n := |ids| - 1;
      AgreePrefix(g, ids, u, w, n);
      RunAgree(g, ops, ids[..n], u, w);
      SameInputs(g, ops, ids, u, w, n);
      assert ids == ids[..n] + [ids[n]];
    }
  }

  /** At position `n` of agreeing runs, the node sees the same arguments and the same buffer. */
  lemma SameInputs(g: Graph, ops: Operators, ids: seq<nat>, u: World, w: World, n: nat)
    requires AllCalls(g, ids) && Agree(g, ids, u, w) && n < |ids|
    requires AllCalls(g, ids[..n])
    requires var u', w' := Run(g, ops, ids[..n], u), Run(g, ops, ids[..n], w);
             && (forall x | x in ids[..n] || Look(u.env, x) == Look(w.env, x) :: Look(u'.env, x) == Look(w'.env, x))
             && (forall b | Look(u.bufs, b) == Look(w.bufs, b) :: Look(u'.bufs, b) == Look(w'.bufs, b))
    ensures var u', w' := Run(g, ops, ids[..n], u), Run(g, ops, ids[..n], w);
            && ArgValues(g.nodes[ids[n]].args, u'.env) == ArgValues(g.nodes[ids[n]].args, w'.env)
            && BufferValue(g.nodes[ids[n]], u'.bufs) == BufferValue(g.nodes[ids[n]], w'.bufs)
  {
    var node := g.nodes[ids[n]];
    assert forall k | 0 <= k < |node.args| :: node.args[k] in node.args;
    assert ids[n] in ids;
  }

  /** Recomputation meets exactly the derivative coefficients of the original run. */
  lemma {:induction false} LinearizeAgree(g: Graph, ops: Operators, ids: seq<nat>, u: World, w: World)
    requires AllCalls(g, ids) && Agree(g, ids, u, w)
    ensures Linearize(g, ops, ids, u) == Linearize(g, ops, ids, w)
  {
    if ids != [] {
      var n := |ids| - 1;
      AgreePrefix(g, ids, u, w, n);
      LinearizeAgree(g, ops, ids[..n], u, w);
      RunAgree(g, ops, ids[..n], u, w);
      SameInputs(g, ops, ids, u, w, n);
    }
  }

  lemma {:induction false} LinearizeIs(g: Graph, ops: Operators, ids: seq<nat>, w: World, n: nat)
    requires AllCalls(g, ids) && Ascending(ids) && n < |ids|
    ensures AllCalls(g, ids[..n])
    ensures ids[n] in Linearize(g, ops, ids, w)
    ensures Linearize(g, ops, ids, w)[ids[n]] == LinearAt(g, ops, ids[n], Run(g, ops, ids[..n], w))
    decreases |ids|
  {
    var last := |ids| - 1;
    if n < last {
      assert ids[..last][..n] == ids[..n];
      LinearizeIs(g, ops, ids[..last], w, n);
    }
  }

  /** A group run where the whole-graph run stands meets the whole graph's coefficients. */
  lemma LinearizeGroup(g: Graph, ops: Operators, all: seq<nat>, lo: nat, hi: nat, w: World, n: nat)
    requires lo + n < hi <= |all| && AllCalls(g, all) && Ascending(all)
    ensures AllCalls(g, all[..lo]) && AllCalls(g, all[lo..hi])
    ensures var c, mid := all[lo + n], Run(g, ops, all[..lo], w);
            && c in Linearize(g, ops, all, w) && c in Linearize(g, ops, all[lo..hi], mid)
            && Linearize(g, ops, all, w)[c] == Linearize(g, ops, all[lo..hi], mid)[c]
  {
    hide Run, Linearize, LinearAt;
    SliceOrder(g, all, lo, hi);
    LinearizeIs(g, ops, all, w, lo + n);
    var here := all[lo..hi];
    LinearizeIs(g, ops, here, Run(g, ops, all[..lo], w), n);
    assert here[n] == all[lo + n];
    assert all[..lo + n] == all[..lo] + here[..n];
    RunAppend(g, ops, all[..lo], here[..n], w);
  }
}
