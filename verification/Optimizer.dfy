/**
 The training cycle of a capacity job: forward, backward, optimizer step or zero_grad. A step
 publishes replacements before it swaps them in, so that a failure anywhere leaves every
 parameter with its old weight and state or with its new ones, never a mixture.
 */
module Optimizer {
  import opened Graph

  /** `None` is a number nobody wrote: whatever the memory held. */
  type Value = Option<real>

  /** A stored tensor. One whose free raised is hollow: it is still listed, but its blocks are forgotten. */
  datatype Content = Whole(x: Value) | Hollow

  type Tensors = map<nat, Content>

  datatype Role = WeightOf(p: nat) | StateOf(p: nat, i: nat) | BufferOf(b: nat) | GradientOf(p: nat)

  /**
   Which handle plays which role. The parameters in `dangling` have a gradient listed that has
   already been freed.
   */
  datatype Books = Books(weights: map<nat, nat>, states: map<nat, seq<nat>>, buffers: map<nat, nat>, gradients: map<nat, nat>,
                         dangling: set<nat>)
  {
    function At(o: Role): Option<nat> {
      match o
      case WeightOf(p) => if p in weights then Some(weights[p]) else None
      case StateOf(p, i) => if p in states && i < |states[p]| then Some(states[p][i]) else None
      case BufferOf(b) => if b in buffers then Some(buffers[b]) else None
      case GradientOf(p) => if p in gradients then Some(gradients[p]) else None
    }

    /** The parameters a gradient is listed for. */
    function Named(): set<nat> {
      gradients.Keys + dangling
    }
  }

  // ---- The environment ----

  /** How many outside operations raise among those numbered `from` to `to`, the last excluded. */
  function Faults(fails: nat -> bool, from: nat, to: nat): (n: nat)
    decreases to
  {
    if to <= from then 0 else Faults(fails, from, to - 1) + if fails(to - 1) then 1 else 0
  }

  lemma {:induction false} FaultsSplit(fails: nat -> bool, a: nat, b: nat, c: nat)
    requires a <= b <= c
    ensures Faults(fails, a, c) == Faults(fails, a, b) + Faults(fails, b, c)
    decreases c
  {
    if b < c { FaultsSplit(fails, a, b, c - 1); }
  }

  lemma {:induction false} NoFault(fails: nat -> bool, a: nat, c: nat)
    ensures Faults(fails, a, c) == 0 <==> forall t: nat | a <= t < c :: !fails(t)
    decreases c
  {
    if a < c { NoFault(fails, a, c - 1); }
  }

  // ---- Handles and their contents ----

  /** Every live handle plays exactly one role, except the spare ones; every role is played by a live handle. */
  ghost predicate Tidy(role: map<nat, Role>, t: Books, spare: set<nat>) {
    && spare <= role.Keys
    && (forall h | h in role && h !in spare :: t.At(role[h]) == Some(h))
    && (forall o | t.At(o).Some? :: t.At(o).value in role && role[t.At(o).value] == o && t.At(o).value !in spare)
  }

  function Entry(tensors: Tensors, h: nat): Option<Content> {
    if h in tensors then Some(tensors[h]) else None
  }

  /** What is read through a handle, whole, hollow or already freed. */
  function ValueAt(tensors: Tensors, h: nat): Value {
    if h in tensors && tensors[h].Whole? then tensors[h].x else None
  }

  function Values(tensors: Tensors, hs: seq<nat>): (r: seq<Value>)
    ensures |r| == |hs|
  {
    seq(|hs|, i requires 0 <= i < |hs| => ValueAt(tensors, hs[i]))
  }

  function StateHandles(t: Books, p: nat): seq<nat> {
    if p in t.states then t.states[p] else []
  }

  datatype Pair = Pair(weight: Value, state: seq<Value>)

  /** The weight of `p` and its optimizer state. */
  function PairOf(t: Books, tensors: Tensors, p: nat): Pair
    requires p in t.weights
  {
    Pair(ValueAt(tensors, t.weights[p]), Values(tensors, StateHandles(t, p)))
  }

  type Rule = (Value, Value, seq<Value>) -> Pair

  function GradientAt(t: Books, tensors: Tensors, p: nat): Value {
    if p in t.gradients then ValueAt(tensors, t.gradients[p]) else None
  }

  function BufferAt(t: Books, tensors: Tensors, b: nat): Value {
    if b in t.buffers then ValueAt(tensors, t.buffers[b]) else None
  }

  function Updated(rule: Rule, t: Books, tensors: Tensors, p: nat): Pair
    requires p in t.weights
  {
    rule(ValueAt(tensors, t.weights[p]), GradientAt(t, tensors, p), Values(tensors, StateHandles(t, p)))
  }

  /** Entries keep their values: handles in use are untouched. */
  ghost predicate Kept(t: Books, before: Tensors, after: Tensors) {
    forall o | t.At(o).Some? :: Entry(after, t.At(o).value) == Entry(before, t.At(o).value)
  }

  lemma KeptPair(t: Books, before: Tensors, after: Tensors, p: nat)
    requires Kept(t, before, after) && p in t.weights
    ensures PairOf(t, after, p) == PairOf(t, before, p)
    ensures GradientAt(t, after, p) == GradientAt(t, before, p)
  {
    assert t.At(WeightOf(p)).Some?;
    assert Entry(after, t.At(WeightOf(p)).value) == Entry(before, t.At(WeightOf(p)).value);
    if p in t.gradients { assert t.At(GradientOf(p)).Some?; }
    forall i | 0 <= i < |StateHandles(t, p)| ensures ValueAt(after, StateHandles(t, p)[i]) == ValueAt(before, StateHandles(t, p)[i]) {
      assert t.At(StateOf(p, i)).Some?;
    }
  }

  /** The books after `p` has been given new handles. */
  function Swapped(t: Books, p: nat, hs: seq<nat>): Books
    requires |hs| > 0
  {
    t.(weights := t.weights[p := hs[0]], states := t.states[p := hs[1..]])
  }

  function RoleIn(p: nat, k: nat): Role {
    if k == 0 then WeightOf(p) else StateOf(p, k - 1)
  }

  /** The handles a swap retires. */
  function Retired(t: Books, p: nat): seq<nat>
    requires p in t.weights
  {
    [t.weights[p]] + StateHandles(t, p)
  }

  lemma SwapTidy(role: map<nat, Role>, t: Books, spare: set<nat>, p: nat, hs: seq<nat>)
    requires Tidy(role, t, spare) && |hs| > 0 && p in t.weights
    requires forall k | 0 <= k < |hs| :: hs[k] in spare && hs[k] in role && role[hs[k]] == RoleIn(p, k)
    requires forall j, k | 0 <= j < k < |hs| :: hs[j] != hs[k]
    ensures Tidy(role, Swapped(t, p, hs), spare - SetOf(hs) + SetOf(Retired(t, p)))
  {
    var t', spare' := Swapped(t, p, hs), spare - SetOf(hs) + SetOf(Retired(t, p));
    RetiredRoles(role, t, spare, p);
    forall o | t'.At(o).Some? ensures t'.At(o).value in role && role[t'.At(o).value] == o && t'.At(o).value !in spare' {
      if o == WeightOf(p) {
        assert t'.At(o).value == hs[0];
      } else if o.StateOf? && o.p == p {
        assert t'.At(o).value == hs[o.i + 1];
      } else {
        assert t'.At(o) == t.At(o);
      }
    }
    forall h | h in role && h !in spare' ensures t'.At(role[h]) == Some(h) {
      if h in hs {
        var k :| 0 <= k < |hs| && hs[k] == h;
      } else {
        assert t.At(role[h]) == Some(h);
        if role[h] == WeightOf(p) || (role[h].StateOf? && role[h].p == p) { RoleRetires(t, p, role[h], h); }
      }
    }
  }

  lemma RetiredRoles(role: map<nat, Role>, t: Books, spare: set<nat>, p: nat)
    requires Tidy(role, t, spare) && p in t.weights
    ensures forall k | 0 <= k < |Retired(t, p)| :: t.At(RoleIn(p, k)) == Some(Retired(t, p)[k])
    ensures forall h | h in Retired(t, p) :: h in role && h !in spare && (role[h] == WeightOf(p) || (role[h].StateOf? && role[h].p == p))
    ensures Distinct(Retired(t, p))
  {
    forall k | 0 <= k < |Retired(t, p)| ensures t.At(RoleIn(p, k)) == Some(Retired(t, p)[k]) {
    }
    forall h | h in Retired(t, p) ensures h in role && h !in spare && (role[h] == WeightOf(p) || (role[h].StateOf? && role[h].p == p)) {
      var k :| 0 <= k < |Retired(t, p)| && Retired(t, p)[k] == h;
      assert t.At(RoleIn(p, k)).Some?;
    }
    forall j, k | 0 <= j < k < |Retired(t, p)| ensures Retired(t, p)[j] != Retired(t, p)[k] {
      assert t.At(RoleIn(p, j)).Some? && t.At(RoleIn(p, k)).Some?;
    }
  }

  lemma RoleRetires(t: Books, p: nat, o: Role, h: nat)
    requires p in t.weights && t.At(o) == Some(h) && (o == WeightOf(p) || (o.StateOf? && o.p == p))
    ensures h in Retired(t, p)
  {
    if o == WeightOf(p) {
      assert Retired(t, p)[0] == h;
    } else {
      assert Retired(t, p)[o.i + 1] == h;
    }
  }

  lemma ForgetTidy(role: map<nat, Role>, t: Books, spare: set<nat>, h: nat)
    requires Tidy(role, t, spare) && h in spare
    ensures Tidy(role - {h}, t, spare - {h})
  {
  }

  lemma AddTidy(role: map<nat, Role>, t: Books, spare: set<nat>, h: nat, o: Role)
    requires Tidy(role, t, spare) && h !in role
    ensures Tidy(role[h := o], t, spare + {h})
  {
  }

  lemma DropGradientTidy(role: map<nat, Role>, t: Books, spare: set<nat>, p: nat)
    requires Tidy(role, t, spare) && p in t.gradients
    ensures t.gradients[p] in role && t.gradients[p] !in spare
    ensures Tidy(role - {t.gradients[p]}, t.(gradients := t.gradients - {p}), spare)
  {
    var h, t' := t.gradients[p], t.(gradients := t.gradients - {p});
    assert t.At(GradientOf(p)) == Some(h);
    forall o | t'.At(o).Some? ensures t'.At(o).value in role - {h} && (role - {h})[t'.At(o).value] == o && t'.At(o).value !in spare {
      assert t.At(o) == t'.At(o);
    }
    forall x | x in role - {h} && x !in spare ensures t'.At((role - {h})[x]) == Some(x) {
      assert t.At(role[x]) == Some(x);
    }
  }

  lemma AddGradientTidy(role: map<nat, Role>, t: Books, spare: set<nat>, p: nat, h: nat)
    requires Tidy(role, t, spare) && p !in t.gradients && h !in role
    ensures Tidy(role[h := GradientOf(p)], t.(gradients := t.gradients[p := h]), spare)
  {
    var t', role' := t.(gradients := t.gradients[p := h]), role[h := GradientOf(p)];
    assert t.At(GradientOf(p)).None?;
    forall o | t'.At(o).Some? ensures t'.At(o).value in role' && role'[t'.At(o).value] == o && t'.At(o).value !in spare {
      if o != GradientOf(p) { assert t'.At(o) == t.At(o); }
    }
    forall x | x in role' && x !in spare ensures t'.At(role'[x]) == Some(x) {
      if x != h { assert t.At(role[x]) == Some(x); }
    }
  }

  /** Handles in use keep their values as long as only spare or new handles are touched. */
  ghost predicate Stable(role: map<nat, Role>, spare: set<nat>, before: Tensors, after: Tensors) {
    forall h | h in role && h !in spare && h in before :: h in after && after[h] == before[h]
  }

  lemma StableKeeps(role: map<nat, Role>, t: Books, spare: set<nat>, before: Tensors, after: Tensors)
    requires Tidy(role, t, spare) && role.Keys == before.Keys && Stable(role, spare, before, after)
    ensures Kept(t, before, after)
  {
    forall o | t.At(o).Some? ensures Entry(after, t.At(o).value) == Entry(before, t.At(o).value) {
    }
  }

  /** A replacement buffer takes the place of the one that has been freed. */
  lemma BufferTidy(role: map<nat, Role>, t: Books, spare: set<nat>, b: nat, h: nat)
    requires Tidy(role, t, spare) && b in t.buffers && h in spare && h in role && role[h] == BufferOf(b)
    ensures t.buffers[b] in role && t.buffers[b] != h && t.buffers[b] !in spare
    ensures Tidy(role - {t.buffers[b]}, t.(buffers := t.buffers[b := h]), spare - {h})
  {
    var o, t' := t.buffers[b], t.(buffers := t.buffers[b := h]);
    assert t.At(BufferOf(b)) == Some(o);
    forall r | t'.At(r).Some? ensures t'.At(r).value in role - {o} && (role - {o})[t'.At(r).value] == r && t'.At(r).value !in spare - {h} {
      if r != BufferOf(b) { assert t'.At(r) == t.At(r); }
    }
    forall x | x in role - {o} && x !in spare - {h} ensures t'.At((role - {o})[x]) == Some(x) {
      if x != h { assert t.At(role[x]) == Some(x); }
    }
  }

  /** A role not played so far is given to a spare handle. */
  lemma EngageTidy(role: map<nat, Role>, t: Books, t': Books, spare: set<nat>, h: nat)
    requires Tidy(role, t, spare) && h in spare && h in role && t.At(role[h]).None? && t'.At(role[h]) == Some(h)
    requires forall o | o != role[h] :: t'.At(o) == t.At(o)
    ensures Tidy(role, t', spare - {h})
  {
    forall o | t'.At(o).Some? ensures t'.At(o).value in role && role[t'.At(o).value] == o && t'.At(o).value !in spare - {h} {
      if o != role[h] { assert t'.At(o) == t.At(o); }
    }
    forall x | x in role && x !in spare - {h} ensures t'.At(role[x]) == Some(x) {
      if x != h { assert t.At(role[x]) == Some(x); }
    }
  }

  lemma WeightTidy(role: map<nat, Role>, t: Books, spare: set<nat>, p: nat, h: nat)
    requires Tidy(role, t, spare) && h in spare && h in role && role[h] == WeightOf(p) && p !in t.weights
    ensures Tidy(role, t.(weights := t.weights[p := h]), spare - {h})
  {
    hide Tidy;
    EngageTidy(role, t, t.(weights := t.weights[p := h]), spare, h);
  }

  lemma NewBufferTidy(role: map<nat, Role>, t: Books, spare: set<nat>, b: nat, h: nat)
    requires Tidy(role, t, spare) && h in spare && h in role && role[h] == BufferOf(b) && b !in t.buffers
    ensures Tidy(role, t.(buffers := t.buffers[b := h]), spare - {h})
  {
    hide Tidy;
    EngageTidy(role, t, t.(buffers := t.buffers[b := h]), spare, h);
  }

  // ---- What is alive between cycles ----

  function SetOf<T>(xs: seq<T>): set<T> {
    set x | x in xs
  }

  /** The handles of weights, optimizer state and buffers. */
  function InUse(t: Books): set<nat> {
    t.weights.Values + (set p, h | p in t.states && h in t.states[p] :: h) + t.buffers.Values
  }

  lemma TidyInUse(role: map<nat, Role>, t: Books)
    requires Tidy(role, t, {}) && t.gradients == map[]
    ensures role.Keys == InUse(t)
  {
    forall h | h in role ensures h in InUse(t) {
      assert t.At(role[h]) == Some(h);
      if role[h].StateOf? { assert h in t.states[role[h].p]; }
    }
    forall h | h in InUse(t) ensures h in role {
      if p :| p in t.weights && t.weights[p] == h {
        assert t.At(WeightOf(p)) == Some(h);
      } else if b :| b in t.buffers && t.buffers[b] == h {
        assert t.At(BufferOf(b)) == Some(h);
      } else {
        var p, i :| p in t.states && 0 <= i < |t.states[p]| && t.states[p][i] == h;
        assert t.At(StateOf(p, i)) == Some(h);
      }
    }
  }

  // ---- Whole cycles on values ----

  /** Everything that survives a cycle. */
  datatype Model = Model(pairs: map<nat, Pair>, buffers: map<nat, Value>)

  function ModelOf(t: Books, tensors: Tensors): Model {
    Model(map p | p in t.weights :: PairOf(t, tensors, p), map b | b in t.buffers :: BufferAt(t, tensors, b))
  }

  /** One cycle: the buffers a forward replaces, the gradients its backward finds, and whether a step or a zero_grad ends it. */
  datatype Cycle = Cycle(updates: map<nat, Value>, gradients: map<nat, real>, step: bool)

  function Committed(m: Model, updates: map<nat, Value>): Model {
    m.(buffers := map b | b in m.buffers :: if b in updates then updates[b] else m.buffers[b])
  }

  function Stepped(rule: Rule, trainable: set<nat>, m: Model, gradients: map<nat, real>): Model {
    m.(pairs := map p | p in m.pairs ::
         if p in gradients && p in trainable then rule(m.pairs[p].weight, Some(gradients[p]), m.pairs[p].state) else m.pairs[p])
  }

  function Cycled(rule: Rule, trainable: set<nat>, m: Model, c: Cycle): Model {
    var ran := Committed(m, c.updates);
    if c.step then Stepped(rule, trainable, ran, c.gradients) else ran
  }

  predicate HoldsValue(tensors: Tensors, h: nat, x: Value) {
    x == if h in tensors && tensors[h].Whole? then tensors[h].x else None
  }

  /** Through its handles, parameter `p` has this weight and this state. */
  predicate HoldsPair(t: Books, tensors: Tensors, p: nat, pair: Pair) {
    && p in t.weights && HoldsValue(tensors, t.weights[p], pair.weight)
    && |pair.state| == (if p in t.states then |t.states[p]| else 0)
    && forall i | 0 <= i < |pair.state| :: HoldsValue(tensors, t.states[p][i], pair.state[i])
  }

  /**
   What a cycle does to the contents of handles: a forward replaces the buffers it updates; a step
   applies the rule to the weight, the gradient and the state of every trained parameter that has a
   gradient, and leaves the others as they are.
   */
  ghost predicate CycledHandles(rule: Rule, trainable: set<nat>, c: Cycle, t0: Books, x0: Tensors, t: Books, x: Tensors) {
    && t.weights.Keys == t0.weights.Keys && t.buffers.Keys == t0.buffers.Keys
    && (forall p, pair | HoldsPair(t0, x0, p, pair) ::
          HoldsPair(t, x, p, if c.step && p in c.gradients && p in trainable then rule(pair.weight, Some(c.gradients[p]), pair.state) else pair))
    && forall b, v | b in t0.buffers && HoldsValue(x0, t0.buffers[b], v) ::
         HoldsValue(x, t.buffers[b], if b in c.updates then c.updates[b] else v)
  }

  lemma CycledOnHandles(rule: Rule, trainable: set<nat>, c: Cycle, t0: Books, x0: Tensors, t: Books, x: Tensors)
    requires ModelOf(t, x) == Cycled(rule, trainable, ModelOf(t0, x0), c)
    ensures CycledHandles(rule, trainable, c, t0, x0, t, x)
  {
    hide HoldsPair, HoldsValue, ModelOf, Cycled;
    CycledKeys(rule, trainable, c, t0, x0, t, x);
    forall p, pair | HoldsPair(t0, x0, p, pair)
      ensures HoldsPair(t, x, p, if c.step && p in c.gradients && p in trainable then rule(pair.weight, Some(c.gradients[p]), pair.state) else pair)
    {
      CycledPair(rule, trainable, c, t0, x0, t, x, p, pair);
    }
    forall b, v | b in t0.buffers && HoldsValue(x0, t0.buffers[b], v)
      ensures HoldsValue(x, t.buffers[b], if b in c.updates then c.updates[b] else v)
    {
      CycledBuffer(rule, trainable, c, t0, x0, t, x, b, v);
    }
  }

  lemma CycledPair(rule: Rule, trainable: set<nat>, c: Cycle, t0: Books, x0: Tensors, t: Books, x: Tensors, p: nat, pair: Pair)
    requires ModelOf(t, x) == Cycled(rule, trainable, ModelOf(t0, x0), c) && HoldsPair(t0, x0, p, pair)
    ensures HoldsPair(t, x, p, if c.step && p in c.gradients && p in trainable then rule(pair.weight, Some(c.gradients[p]), pair.state) else pair)
  {
    CycledKeys(rule, trainable, c, t0, x0, t, x);
    HeldIsRead(t0, x0, p, pair);
    hide HoldsPair, PairOf, BufferAt;
    assert ModelOf(t0, x0).pairs[p] == pair && ModelOf(t, x).pairs[p] == PairOf(t, x, p);
    ReadIsHeld(t, x, p);
  }

  lemma CycledBuffer(rule: Rule, trainable: set<nat>, c: Cycle, t0: Books, x0: Tensors, t: Books, x: Tensors, b: nat, v: Value)
    requires ModelOf(t, x) == Cycled(rule, trainable, ModelOf(t0, x0), c) && b in t0.buffers && HoldsValue(x0, t0.buffers[b], v)
    ensures b in t.buffers && HoldsValue(x, t.buffers[b], if b in c.updates then c.updates[b] else v)
  {
    CycledKeys(rule, trainable, c, t0, x0, t, x);
    hide PairOf, BufferAt, HoldsValue;
    HeldBuffer(t0, x0, b, v);
    assert ModelOf(t0, x0).buffers[b] == v && ModelOf(t, x).buffers[b] == BufferAt(t, x, b);
    HeldBuffer(t, x, b, BufferAt(t, x, b));
  }

  lemma CycledKeys(rule: Rule, trainable: set<nat>, c: Cycle, t0: Books, x0: Tensors, t: Books, x: Tensors)
    requires ModelOf(t, x) == Cycled(rule, trainable, ModelOf(t0, x0), c)
    ensures t.weights.Keys == t0.weights.Keys && t.buffers.Keys == t0.buffers.Keys
  {
    hide PairOf, BufferAt;
    assert ModelOf(t, x).pairs.Keys == t.weights.Keys && ModelOf(t0, x0).pairs.Keys == t0.weights.Keys;
    assert ModelOf(t, x).buffers.Keys == t.buffers.Keys && ModelOf(t0, x0).buffers.Keys == t0.buffers.Keys;
  }

  lemma HeldBuffer(t: Books, x: Tensors, b: nat, v: Value)
    requires b in t.buffers
    ensures HoldsValue(x, t.buffers[b], v) <==> BufferAt(t, x, b) == v
  {
  }

  lemma HeldIsRead(t: Books, x: Tensors, p: nat, pair: Pair)
    requires HoldsPair(t, x, p, pair)
    ensures p in t.weights && PairOf(t, x, p) == pair
  {
    assert PairOf(t, x, p).state == pair.state;
  }

  lemma ReadIsHeld(t: Books, x: Tensors, p: nat)
    requires p in t.weights
    ensures HoldsPair(t, x, p, PairOf(t, x, p))
  {
  }

  function AfterCycles(rule: Rule, trainable: set<nat>, m: Model, cs: seq<Cycle>): Model {
    if cs == [] then m else Cycled(rule, trainable, AfterCycles(rule, trainable, m, cs[..|cs| - 1]), cs[|cs| - 1])
  }

  datatype Call =
    | CallForward(training: bool, admitted: bool, runs: bool, updates: map<nat, Value>)
    | CallBackward(runs: bool, gradients: map<nat, real>)
    | CallStep
    | CallZeroGrad

  predicate Distinct(xs: seq<nat>) {
    forall j, k | 0 <= j < k < |xs| :: xs[j] != xs[k]
  }

  /** The gradient of `p` is listed and still has its contents. */
  predicate HasContents(t: Books, tensors: Tensors, p: nat) {
    p in t.gradients && t.gradients[p] in tensors && tensors[t.gradients[p]].Whole?
  }

  function Wholes(t: Books, tensors: Tensors, ps: seq<nat>): nat {
    if ps == [] then 0 else Wholes(t, tensors, ps[..|ps| - 1]) + if HasContents(t, tensors, ps[|ps| - 1]) then 1 else 0
  }

  lemma {:induction false} WholesAppend(t: Books, tensors: Tensors, xs: seq<nat>, ys: seq<nat>)
    ensures Wholes(t, tensors, xs + ys) == Wholes(t, tensors, xs) + Wholes(t, tensors, ys)
    decreases |ys|
  {
    if ys == [] {
      assert xs + ys == xs;
    } else {
      assert (xs + ys)[..|xs + ys| - 1] == xs + ys[..|ys| - 1];
      WholesAppend(t, tensors, xs, ys[..|ys| - 1]);
    }
  }

  lemma {:induction false} WholesSame(t0: Books, x0: Tensors, t: Books, x: Tensors, ps: seq<nat>)
    requires forall p | p in ps :: HasContents(t, x, p) == HasContents(t0, x0, p)
    ensures Wholes(t, x, ps) == Wholes(t0, x0, ps)
  {
    hide HasContents;
    if ps != [] { WholesSame(t0, x0, t, x, ps[..|ps| - 1]); }
  }

  /** Some listed gradient lost its contents. */
  ghost predicate Damaged(t0: Books, x0: Tensors, t: Books, x: Tensors) {
    exists p :: p in t.gradients && HasContents(t0, x0, p) && t.gradients[p] in x && x[t.gradients[p]].Hollow?
  }

  /** `hs` are new spare handles for the weight and the state of `p`, in this order, holding `pair`. */
  ghost predicate Replacement(hs: seq<nat>, p: nat, pair: Pair, spare0: set<nat>, tensors0: Tensors, role: map<nat, Role>, spare: set<nat>,
                              tensors: Tensors) {
    && |hs| <= 1 + |pair.state| && Distinct(hs)
    && (forall k | 0 <= k < |hs| :: hs[k] in spare && hs[k] !in spare0 && hs[k] !in tensors0 && hs[k] in role && role[hs[k]] == RoleIn(p, k))
    && (forall k | 0 <= k < |hs| :: hs[k] in tensors && tensors[hs[k]] == Whole(if k == 0 then pair.weight else pair.state[k - 1]))
  }

  lemma ReplacementStep(hs: seq<nat>, p: nat, pair: Pair, spare0: set<nat>, tensors0: Tensors, role: map<nat, Role>, spare: set<nat>,
                        tensors: Tensors, h: nat)
    requires Replacement(hs, p, pair, spare0, tensors0, role, spare, tensors) && |hs| <= |pair.state|
    requires h !in tensors && spare0 <= spare <= tensors.Keys && tensors - SetOf(hs) == tensors0
    ensures var x := if |hs| == 0 then pair.weight else pair.state[|hs| - 1];
            Replacement(hs + [h], p, pair, spare0, tensors0, role[h := RoleIn(p, |hs|)], spare + {h}, tensors[h := Whole(x)])
    ensures tensors[h := Whole(if |hs| == 0 then pair.weight else pair.state[|hs| - 1])] - SetOf(hs + [h]) == tensors0
    ensures SetOf(hs + [h]) == SetOf(hs) + {h}
  {
    assert forall k | 0 <= k < |hs| :: (hs + [h])[k] == hs[k];
    SetOfAppend(hs, h);
    var x := if |hs| == 0 then pair.weight else pair.state[|hs| - 1];
    var after := tensors[h := Whole(x)];
    assert (after - (SetOf(hs) + {h})).Keys == tensors0.Keys;
    forall g | g in tensors0 ensures (after - (SetOf(hs) + {h}))[g] == tensors0[g] { assert g in tensors - SetOf(hs); }
  }

  lemma NoReplacement(p: nat, pair: Pair, spare: set<nat>, tensors: Tensors, role: map<nat, Role>)
    ensures Replacement([], p, pair, spare, tensors, role, spare, tensors)
  {
  }

  lemma Leftover(spare0: set<nat>, before: set<nat>, after: set<nat>, hs: seq<nat>, freed: bool)
    requires before == spare0 + SetOf(hs) && SetOf(hs) !! spare0
    requires freed ==> after == before - SetOf(hs)
    requires !freed ==> exists h :: h in hs && h in after
    ensures freed <==> after == spare0
  {
  }

  lemma NewWeight(hs: seq<nat>, p: nat, pair: Pair, spare0: set<nat>, tensors0: Tensors, role: map<nat, Role>, spare: set<nat>,
                  tensors: Tensors, t: Books)
    requires Replacement(hs, p, pair, spare0, tensors0, role, spare, tensors) && |hs| > 0
    requires Tidy(role, t, spare) && p in t.weights && spare == spare0 + SetOf(hs)
    ensures hs[0] != t.weights[p] && SetOf(hs) !! spare0
  {
    assert t.At(WeightOf(p)).Some?;
  }

  lemma ReplacementParts(hs: seq<nat>, p: nat, pair: Pair, spare0: set<nat>, tensors0: Tensors, role: map<nat, Role>, spare: set<nat>,
                         tensors: Tensors)
    requires Replacement(hs, p, pair, spare0, tensors0, role, spare, tensors)
    ensures Distinct(hs) && forall k | 0 <= k < |hs| :: hs[k] in spare && hs[k] !in spare0 && hs[k] !in tensors0
    ensures SetOf(hs) <= spare && SetOf(hs) !! spare0
  {
  }

  /** Every parameter belongs to one record; only trainable parameters have gradients listed. */
  ghost predicate ListedIn(records: seq<seq<nat>>, trainable: set<nat>, t: Books) {
    && Distinct(Flatten(records))
    && (forall p | p in t.weights :: p in Flatten(records))
    && t.Named() <= trainable && t.Named() <= t.weights.Keys
    && t.states.Keys <= t.weights.Keys
    && t.gradients.Keys !! t.dangling
  }

  lemma StillListed(records: seq<seq<nat>>, trainable: set<nat>, t0: Books, t: Books, p: nat)
    requires ListedIn(records, trainable, t0) && t == t0.(weights := t.weights, buffers := t.buffers)
    requires t.weights.Keys == t0.weights.Keys || (t.weights.Keys == t0.weights.Keys + {p} && p in Flatten(records))
    ensures ListedIn(records, trainable, t)
  {
    hide Distinct, Flatten;
  }

  lemma GradientsListed(records: seq<seq<nat>>, trainable: set<nat>, t0: Books, t: Books, gradients: map<nat, real>)
    requires ListedIn(records, trainable, t0) && t0.Named() == {} && t == t0.(gradients := t.gradients)
    requires forall p | p in t.gradients :: p in gradients && p in trainable && p in t.weights
    ensures ListedIn(records, trainable, t) && t.dangling == {}
    ensures (forall p | p in gradients && p in trainable && p in t.weights :: p in t.gradients) ==>
              forall p :: p in t.Named() <==> p in gradients && p in trainable && p in t.weights
  {
    hide Distinct, Flatten;
    assert t0.dangling <= t0.Named();
  }

  lemma NothingNamed(records: seq<seq<nat>>, trainable: set<nat>, t: Books)
    requires ListedIn(records, trainable, t) && t.Named() == {}
    ensures t.gradients == map[] && t.dangling == {} && forall p | p in t.weights :: p in Flatten(records)
  {
    assert t.dangling <= t.Named() && t.gradients.Keys <= t.Named();
  }

  // ---- The job ----

  class Trainer {
    const records: seq<seq<nat>>
    const trainable: set<nat>
    const rule: Rule
    const fails: nat -> bool
    var tensors: Tensors
    var next: nat
    var tick: nat
    var books: Books
    var pending: bool
    var backwardComplete: bool
    var failed: bool
    var awaiting: bool
    ghost var role: map<nat, Role>
    ghost var spare: set<nat>

    ghost predicate Valid()
      reads this
    {
      && Live() && Listed()
      && (!failed && !backwardComplete ==> books.Named() == {})
      && (backwardComplete && !failed ==> pending)
      && (awaiting ==> !failed && pending && !backwardComplete)
      && Clean()
    }

    /** Every live handle has its role. */
    ghost predicate Live()
      reads this`role, this`tensors, this`next, this`books, this`spare
    {
      role.Keys == tensors.Keys && (forall h | h in tensors :: h < next) && Tidy(role, books, spare)
    }

    ghost predicate Listed()
      reads this`books
    {
      ListedIn(records, trainable, books)
    }

    /** As long as nothing outside has raised, no handle is left over. */
    ghost predicate Clean()
      reads this`tick, this`spare, this`books
    {
      Faults(fails, 0, tick) == 0 ==> spare == {} && books.dangling == {}
    }

    /** A job without parameters and buffers; `Prepare` uploads them. */
    constructor (records: seq<seq<nat>>, trainable: set<nat>, rule: Rule, fails: nat -> bool)
      requires Distinct(Flatten(records))
      ensures Valid() && tensors == map[] && tick == 0 && books == Books(map[], map[], map[], map[], {})
      ensures !pending && !failed && !awaiting && spare == {}
      ensures this.records == records && this.trainable == trainable && this.rule == rule && this.fails == fails
    {
      this.records, this.trainable, this.rule, this.fails := records, trainable, rule, fails;
      tensors, next, tick, books := map[], 0, 0, Books(map[], map[], map[], map[], {});
      pending, backwardComplete, failed, awaiting := false, false, false, false;
      role, spare := map[], {};
    }

    /** Does one outside operation; the environment decides whether it raises. */
    method Attempt() returns (ok: bool)
      modifies this`tick
      ensures tick == old(tick) + 1 && ok == !fails(old(tick))
      ensures Faults(fails, old(tick), tick) == if ok then 0 else 1
    {
      ok := !fails(tick);
      tick := tick + 1;
      assert Faults(fails, old(tick), old(tick)) == 0;
    }

    /** Publishes a value under a new handle; until it is put to use, the handle is spare. */
    method Publish(x: Value, ghost o: Role) returns (ok: bool, h: nat)
      requires Live()
      modifies this`tick, this`tensors, this`next, this`role, this`spare
      ensures Live() && Stable(old(role), old(spare), old(tensors), tensors)
      ensures tick == old(tick) + 1 && Faults(fails, old(tick), tick) == if ok then 0 else 1
      ensures ok ==> h !in old(tensors) && tensors == old(tensors)[h := Whole(x)] && role == old(role)[h := o] && spare == old(spare) + {h}
      ensures !ok ==> tensors == old(tensors) && role == old(role) && spare == old(spare)
    {
      hide Tidy, Faults;
      h := next;
      ok := Attempt();
      if ok {
        AddTidy(role, books, spare, h, o);
        next := next + 1;
        tensors, role, spare := tensors[h := Whole(x)], role[h := o], spare + {h};
      }
    }

    /** Frees a stored tensor. One without contents needs nothing from outside; when freeing raises, the contents are gone. */
    method Discard(h: nat) returns (ok: bool)
      requires h in tensors
      modifies this`tick, this`tensors
      ensures tick == old(tick) + if old(tensors)[h].Whole? then 1 else 0
      ensures Faults(fails, old(tick), tick) == if ok then 0 else 1
      ensures tensors == if ok then old(tensors) - {h} else old(tensors)[h := Hollow]
      ensures !ok ==> old(tensors)[h].Whole?
    {
      ok := true;
      assert Faults(fails, old(tick), old(tick)) == 0;
      if tensors[h].Whole? { ok := Attempt(); }
      tensors := if ok then tensors - {h} else tensors[h := Hollow];
    }

    /** Frees a spare handle; when that raises, the handle stays spare. */
    method FreeSpare(h: nat) returns (ok: bool)
      requires Live() && h in spare && h in tensors
      modifies this`tick, this`tensors, this`role, this`spare
      ensures Live() && Stable(old(role), old(spare), old(tensors), tensors)
      ensures tick >= old(tick) && Faults(fails, old(tick), tick) == if ok then 0 else 1
      ensures ok ==> tensors == old(tensors) - {h} && role == old(role) - {h} && spare == old(spare) - {h}
      ensures !ok ==> role == old(role) && spare == old(spare)
    {
      hide Tidy, Faults;
      ok := Discard(h);
      if ok {
        ForgetTidy(role, books, spare, h);
        role, spare := role - {h}, spare - {h};
      }
    }

    /** Frees spare handles one by one; the first failure ends it. */
    method FreeAll(hs: seq<nat>) returns (ok: bool)
      requires Live() && (forall k | 0 <= k < |hs| :: hs[k] in spare) && Distinct(hs)
      modifies this`tick, this`tensors, this`role, this`spare
      ensures Live() && Kept(books, old(tensors), tensors)
      ensures tick >= old(tick) && Faults(fails, old(tick), tick) == if ok then 0 else 1
      ensures spare <= old(spare) && old(spare) - SetOf(hs) <= spare
      ensures ok ==> spare == old(spare) - SetOf(hs) && tensors == old(tensors) - SetOf(hs)
      ensures !ok ==> exists h :: h in hs && h in spare
    {
      hide Tidy, Faults, Kept, Stable;
      StartKept(books, tensors);
      FaultsSplit(fails, tick, tick, tick);
      assert tensors - SetOf(hs[..0]) == tensors;
      for i := 0 to |hs|
        invariant Live() && Kept(books, old(tensors), tensors)
        invariant tick >= old(tick) && Faults(fails, old(tick), tick) == 0
        invariant spare == old(spare) - SetOf(hs[..i]) && tensors == old(tensors) - SetOf(hs[..i])
      {
        ghost var before, role1, spare1, tick1 := tensors, role, spare, tick;
        assert hs[..i + 1] == hs[..i] + [hs[i]];
        assert SetOf(hs[..i + 1]) == SetOf(hs[..i]) + {hs[i]};
        assert hs[i] !in hs[..i];
        SpareLive(role, books, spare);
        ok := FreeSpare(hs[i]);
        StableKeeps(role1, books, spare1, before, tensors);
        KeptTrans(books, old(tensors), before, tensors);
        FaultsSplit(fails, old(tick), tick1, tick);
        if !ok { return; }
      }
      assert hs[..|hs|] == hs;
      ok := true;
    }

    /**
     Publishes a whole replacement, weight first; a failure frees what was published so far. After
     a failure nothing of the replacement is left exactly when no free raised as well.
     */
    method PublishAll(p: nat, pair: Pair) returns (ok: bool, hs: seq<nat>)
      requires Live()
      modifies this`tick, this`tensors, this`next, this`role, this`spare
      ensures Live() && Kept(books, old(tensors), tensors) && old(spare) <= spare
      ensures tick >= old(tick) && (ok <==> Faults(fails, old(tick), tick) == 0)
      ensures ok ==> |hs| == 1 + |pair.state| && spare == old(spare) + SetOf(hs)
      ensures ok ==> Replacement(hs, p, pair, old(spare), old(tensors), role, spare, tensors)
      ensures !ok && Faults(fails, old(tick), tick) == 1 ==> spare == old(spare) && tensors == old(tensors)
      ensures !ok && Faults(fails, old(tick), tick) != 1 ==> spare != old(spare)
    {
      hide Tidy, Faults, Kept, Stable, Replacement;
      hs := [];
      NoReplacement(p, pair, spare, tensors, role);
      StartKept(books, tensors);
      FaultsSplit(fails, tick, tick, tick);
      assert tensors - SetOf(hs) == tensors;
      for k := 0 to 1 + |pair.state|
        invariant Live() && Kept(books, old(tensors), tensors)
        invariant tick >= old(tick) && Faults(fails, old(tick), tick) == 0
        invariant |hs| == k && spare == old(spare) + SetOf(hs) && tensors - SetOf(hs) == old(tensors)
        invariant Replacement(hs, p, pair, old(spare), old(tensors), role, spare, tensors)
      {
        ghost var before, role1, spare1, tick1 := tensors, role, spare, tick;
        var h;
        SpareLive(role, books, spare);
        ok, h := Publish(if k == 0 then pair.weight else pair.state[k - 1], RoleIn(p, k));
        StableKeeps(role1, books, spare1, before, tensors);
        KeptTrans(books, old(tensors), before, tensors);
        FaultsSplit(fails, old(tick), tick1, tick);
        if !ok {
          ghost var tick2 := tick;
          ReplacementParts(hs, p, pair, old(spare), old(tensors), role, spare, tensors);
          var freed := FreeAll(hs);
          KeptTrans(books, old(tensors), before, tensors);
          FaultsSplit(fails, old(tick), tick2, tick);
          Leftover(old(spare), spare1, spare, hs, freed);
          return;
        }
        ReplacementStep(hs, p, pair, old(spare), old(tensors), role1, spare1, before, h);
        hs := hs + [h];
      }
      ok := true;
    }

    /** The gradient of `p` has been consumed. One that was freed before is only struck off. */
    method FreeGradient(p: nat) returns (ok: bool)
      requires Live() && p in books.Named() && books.gradients.Keys !! books.dangling
      modifies this`tick, this`tensors, this`role, this`books
      ensures Live() && Kept(books.(gradients := books.gradients - {p}), old(tensors), tensors)
      ensures tick >= old(tick) && Faults(fails, old(tick), tick) == if ok then 0 else 1
      ensures ok ==> books == old(books).(gradients := old(books).gradients - {p}, dangling := old(books).dangling - {p})
      ensures !ok ==> books == old(books)
    {
      hide Faults, Tidy, Kept;
      FaultsSplit(fails, tick, tick, tick);
      if p in books.dangling {
        ok := true;
        StrikeAll(role, books, spare, books.dangling - {p});
        assert books.gradients - {p} == books.gradients;
        books := books.(dangling := books.dangling - {p});
        StartKept(books.(gradients := books.gradients - {p}), tensors);
        return;
      }
      var h := books.gradients[p];
      ListedLive(role, books, spare, p);
      ok := Discard(h);
      AfterDiscard(role, books, spare, old(tensors), tensors, p);
      if ok {
        DropGradientTidy(role, books, spare, p);
        role := role - {h};
        books := books.(gradients := books.gradients - {p});
        assert books.gradients - {p} == books.gradients;
        assert old(books).dangling - {p} == old(books).dangling;
      }
    }

    /**
     One parameter of a step. Whatever raises, and wherever, the parameter has its old weight and
     state or its new ones. A failure before the swap leaves nothing behind exactly when no free
     raised as well; after it only retired handles can be left.
     */
    method StepParameter(p: nat) returns (ok: bool)
      requires Live() && p in books.weights && p in books.Named() && books.gradients.Keys !! books.dangling
      modifies this`tick, this`tensors, this`next, this`role, this`spare, this`books
      ensures Live() && books.weights.Keys == old(books).weights.Keys && old(spare) <= spare && books.buffers == old(books).buffers
      ensures books.states.Keys <= old(books).states.Keys + {p}
      ensures tick >= old(tick) && (ok <==> Faults(fails, old(tick), tick) == 0)
      ensures ok ==> PairOf(books, tensors, p) == Updated(rule, old(books), old(tensors), p) && spare == old(spare)
      ensures ok ==> books.gradients == old(books).gradients - {p} && books.dangling == old(books).dangling - {p}
      ensures !ok ==> books.gradients == old(books).gradients && books.dangling == old(books).dangling
      ensures !ok && books.weights[p] == old(books).weights[p] ==>
                Unswapped(old(tick), old(spare), old(books), old(tensors)) && PairOf(books, tensors, p) == PairOf(old(books), old(tensors), p)
      ensures !ok && books.weights[p] != old(books).weights[p] ==>
                PairOf(books, tensors, p) == Updated(rule, old(books), old(tensors), p) && spare <= old(spare) + SetOf(Retired(old(books), p))
      ensures Aside(p, old(books), old(tensors), books, tensors)
    {
      hide Tidy, Kept, Aside, Faults, PairOf, Updated, Distinct, Retired, Replacement;
      SameAside(p, books, tensors, tensors);
      ok := Attempt();
      if !ok { return; }
      ghost var t0, tensors0, tick0 := books, tensors, tick;
      var pair := Updated(rule, books, tensors, p);
      var hs;
      ok, hs := PublishAll(p, pair);
      FaultsSplit(fails, old(tick), tick0, tick);
      KeptPair(t0, tensors0, tensors, p);
      KeptAside(p, t0, tensors0, tensors);
      if !ok { return; }
      NewWeight(hs, p, pair, old(spare), tensors0, role, spare, tensors, t0);
      var retired := Retired(books, p);
      RetiredRoles(role, books, spare, p);
      ghost var published, tick1 := tensors, tick;
      Swap(p, hs, pair, old(spare), tensors0);
      SwappedAside(p, t0, tensors, hs);
      AsideTrans(p, t0, tensors0, t0, tensors, books, tensors);
      ok := FreeAll(retired);
      FaultsSplit(fails, old(tick), tick1, tick);
      KeptPair(books, published, tensors, p);
      KeptAside(p, books, published, tensors);
      AsideTrans(p, t0, tensors0, books, published, books, tensors);
      if !ok { return; }
      ghost var t1, tensors1, tick2 := books, tensors, tick;
      ok := FreeGradient(p);
      FaultsSplit(fails, old(tick), tick2, tick);
      GradientAside(p, t1, books, tensors1, tensors);
      AsideTrans(p, t0, tensors0, t1, tensors1, books, tensors);
    }

    /** A failure before the swap: nothing is left behind unless a free raised as well. */
    ghost predicate Unswapped(tick0: nat, spare0: set<nat>, t0: Books, tensors0: Tensors)
      reads this
    {
      && books == t0
      && (spare == spare0 <==> Faults(fails, tick0, tick) == 1)
      && (Faults(fails, tick0, tick) == 1 ==> tensors == tensors0)
    }

    /** The logical swap, once every new handle is durable. */
    method Swap(p: nat, hs: seq<nat>, ghost pair: Pair, ghost spare0: set<nat>, ghost tensors0: Tensors)
      requires Live() && p in books.weights && |hs| == 1 + |pair.state| && Replacement(hs, p, pair, spare0, tensors0, role, spare, tensors)
      modifies this`books, this`spare
      ensures Live() && books == Swapped(old(books), p, hs) && PairOf(books, tensors, p) == pair
      ensures spare == old(spare) - SetOf(hs) + SetOf(Retired(old(books), p))
    {
      SwapTidy(role, books, spare, p, hs);
      spare := spare - SetOf(hs) + SetOf(Retired(books, p));
      books := books.(weights := books.weights[p := hs[0]]);
      books := books.(states := books.states[p := hs[1..]]);
      assert PairOf(books, tensors, p).state == pair.state;
    }

    /**
     The optimizer step. If it succeeds, every parameter a gradient is listed for has been updated
     by the rule, nothing else has changed, and no gradient is left. If anything raises, the job
     has failed and every parameter is wholly old or wholly new. If the one thing that raised was
     a publication, so that a parameter whose gradient is still listed has its old weight, every
     partial replacement has been freed.
     */
    method Step() returns (ok: bool)
      requires Valid()
      modifies this`tick, this`tensors, this`next, this`role, this`spare, this`books, this`pending, this`backwardComplete, this`failed
      ensures Valid() && books.weights.Keys == old(books).weights.Keys && tick >= old(tick)
      ensures old(failed || !backwardComplete) ==> !ok && books == old(books) && tensors == old(tensors) && failed == old(failed) && tick == old(tick)
      ensures forall p | p in books.weights ::
                || PairOf(books, tensors, p) == PairOf(old(books), old(tensors), p)
                || (p in old(books).Named() && PairOf(books, tensors, p) == Updated(rule, old(books), old(tensors), p))
      ensures forall b | b in books.buffers :: BufferAt(books, tensors, b) == BufferAt(old(books), old(tensors), b)
      ensures books.buffers == old(books).buffers
      ensures ok <==> old(!failed && backwardComplete) && Faults(fails, old(tick), tick) == 0
      ensures ok ==> (forall p | p in old(books).Named() && p in books.weights :: PairOf(books, tensors, p) == Updated(rule, old(books), old(tensors), p))
      ensures ok ==> (forall p | p in books.weights && p !in old(books).Named() :: PairOf(books, tensors, p) == PairOf(old(books), old(tensors), p))
      ensures ok ==> books.Named() == {} && spare == old(spare) && !pending && !backwardComplete && !failed && !awaiting
      ensures !ok && old(!failed && backwardComplete) ==> failed
      ensures !ok && Faults(fails, old(tick), tick) == 1 && Unfinished(old(books)) ==> spare == old(spare)
    {
      hide Tidy, Progress, Mixed, PairOf, Updated, Faults, Distinct, Aside;
      FaultsSplit(fails, tick, tick, tick);
      if failed || !backwardComplete {
        SameMixed(rule, books, tensors);
        MixedPairs(rule, books, tensors, books, tensors);
        return false;
      }
      ghost var t0, tensors0 := books, tensors;
      ok := StepAll();
      MixedPairs(rule, t0, tensors0, books, tensors);
      FaultsSplit(fails, 0, old(tick), tick);
      if !ok {
        failed := true;
        return;
      }
      NoneLeft(rule, t0, tensors0, books, tensors, Flatten(records));
      pending, backwardComplete := false, false;
    }

    /** Every parameter whose gradient is still listed has its old weight handle. */
    ghost predicate Unfinished(t0: Books)
      reads this`books
    {
      forall p | p in books.Named() && p in books.weights && p in t0.weights :: books.weights[p] == t0.weights[p]
    }

    /** The loop over the parameters. */
    method StepAll() returns (ok: bool)
      requires Live() && Listed()
      modifies this`tick, this`tensors, this`next, this`role, this`spare, this`books
      ensures Live() && Listed() && Mixed(rule, old(books), old(tensors), books, tensors)
      ensures tick >= old(tick) && (ok <==> Faults(fails, old(tick), tick) == 0)
      ensures ok ==> spare == old(spare) && Progress(rule, old(books), old(tensors), books, tensors)
      ensures ok ==> forall p | p in books.Named() :: p !in Flatten(records)
      ensures !ok && Faults(fails, old(tick), tick) == 1 && Unfinished(old(books)) ==> spare == old(spare)
    {
      hide Tidy, Progress, Mixed, Aside, PairOf, Updated, Faults, Distinct;
      StepStart(rule, books, tensors);
      SameMixed(rule, books, tensors);
      FaultsSplit(fails, tick, tick, tick);
      var order := Flatten(records);
      for i := 0 to |order|
        invariant Live() && Listed() && Progress(rule, old(books), old(tensors), books, tensors)
        invariant Mixed(rule, old(books), old(tensors), books, tensors)
        invariant tick >= old(tick) && Faults(fails, old(tick), tick) == 0 && spare == old(spare)
        invariant forall p | p in books.Named() :: p !in order[..i] && p in old(books).weights && books.weights[p] == old(books).weights[p]
      {
        var p := order[i];
        assert order[..i + 1] == order[..i] + [p];
        if p in trainable && p in books.weights && p in books.Named() {
          ghost var t1, tensors1, tick1 := books, tensors, tick;
          ok := StepParameter(p);
          ProgressStep(rule, old(books), old(tensors), t1, tensors1, books, tensors, p);
          FaultsSplit(fails, old(tick), tick1, tick);
          if !ok { return; }
        }
      }
      assert order[..|order|] == order;
      ok := true;
    }

    /** Uploads one weight; it must be new. */
    method AddWeight(p: nat, x: Value) returns (ok: bool)
      requires Valid() && p !in books.weights && p !in books.states && p in Flatten(records)
      modifies this`tick, this`tensors, this`next, this`role, this`spare, this`books
      ensures Valid() && tick == old(tick) + 1 && (ok <==> Faults(fails, old(tick), tick) == 0)
      ensures !ok ==> ModelOf(books, tensors) == old(ModelOf(books, tensors))
      ensures ok ==> spare == old(spare) && p in books.weights && books == old(books).(weights := old(books).weights[p := books.weights[p]])
      ensures ok ==> ModelOf(books, tensors) == old(ModelOf(books, tensors)).(pairs := old(ModelOf(books, tensors)).pairs[p := Pair(x, [])])
    {
      hide Tidy, Faults, ListedIn, Flatten, ModelOf, Kept, Stable;
      ghost var role1, spare1, before, t0 := role, spare, tensors, books;
      var h;
      SpareLive(role, books, spare);
      ok, h := Publish(x, WeightOf(p));
      StableKeeps(role1, t0, spare1, before, tensors);
      FaultsSplit(fails, 0, old(tick), tick);
      KeptModel(t0, before, tensors);
      if ok {
        ghost var t1 := t0.(weights := t0.weights[p := h]);
        WeightTidy(role, t0, spare, p, h);
        StillListed(records, trainable, t0, t1, p);
        NewPair(t0, t1, tensors, p, h, x);
        books := books.(weights := books.weights[p := h]);
        spare := spare - {h};
        assert spare == old(spare);
      }
    }

    method AddBuffer(b: nat, x: Value) returns (ok: bool)
      requires Valid() && b !in books.buffers
      modifies this`tick, this`tensors, this`next, this`role, this`spare, this`books
      ensures Valid() && tick == old(tick) + 1 && (ok <==> Faults(fails, old(tick), tick) == 0)
      ensures !ok ==> ModelOf(books, tensors) == old(ModelOf(books, tensors))
      ensures ok ==> spare == old(spare) && b in books.buffers && books == old(books).(buffers := old(books).buffers[b := books.buffers[b]])
      ensures ok ==> ModelOf(books, tensors) == old(ModelOf(books, tensors)).(buffers := old(ModelOf(books, tensors)).buffers[b := x])
    {
      hide Tidy, Faults, ListedIn, Flatten, ModelOf, Kept, Stable;
      ghost var role1, spare1, before, t0 := role, spare, tensors, books;
      var h;
      SpareLive(role, books, spare);
      ok, h := Publish(x, BufferOf(b));
      StableKeeps(role1, t0, spare1, before, tensors);
      FaultsSplit(fails, 0, old(tick), tick);
      KeptModel(t0, before, tensors);
      if ok {
        ghost var t1 := t0.(buffers := t0.buffers[b := h]);
        NewBufferTidy(role, t0, spare, b, h);
        StillListed(records, trainable, t0, t1, b);
        NewBuffer(t0, t1, tensors, b, h, x);
        books := books.(buffers := books.buffers[b := h]);
        spare := spare - {h};
        assert spare == old(spare);
      }
    }

    /** Uploads the whole model; the first failure ends it. */
    method Prepare(m: Model) returns (ok: bool)
      requires Valid() && books == Books(map[], map[], map[], map[], {}) && spare == {} && tensors == map[]
      requires m.pairs.Keys <= SetOf(Flatten(records)) && forall p | p in m.pairs :: m.pairs[p].state == []
      modifies this`tick, this`tensors, this`next, this`role, this`spare, this`books
      ensures Valid() && tick >= old(tick) && (ok <==> Faults(fails, old(tick), tick) == 0)
      ensures ok ==> ModelOf(books, tensors) == m && spare == {}
    {
      hide Tidy, Faults, Distinct, ModelOf;
      FaultsSplit(fails, tick, tick, tick);
      ghost var done := Model(map[], map[]);
      NothingYet(books, tensors);
      ok := true;
      var ps := m.pairs.Keys;
      while ps != {}
        invariant ok && Valid() && tick >= old(tick) && Faults(fails, old(tick), tick) == 0 && spare == {}
        invariant ps <= m.pairs.Keys && books.states == map[] && books.weights.Keys == m.pairs.Keys - ps && books.buffers == map[]
        invariant ModelOf(books, tensors) == done && done.buffers == map[]
        invariant done.pairs.Keys == m.pairs.Keys - ps && forall p | p in done.pairs :: done.pairs[p] == m.pairs[p]
      {
        var p :| p in ps;
        ghost var tick1 := tick;
        ok := AddWeight(p, m.pairs[p].weight);
        FaultsSplit(fails, old(tick), tick1, tick);
        if !ok { return; }
        ps, done := ps - {p}, done.(pairs := done.pairs[p := m.pairs[p]]);
      }
      assert done.pairs == m.pairs;
      ghost var tick2 := tick;
      ok := PrepareBuffers(m, done);
      FaultsSplit(fails, old(tick), tick2, tick);
    }

    method PrepareBuffers(m: Model, ghost start: Model) returns (ok: bool)
      requires Valid() && spare == {} && ModelOf(books, tensors) == start && start == m.(buffers := map[]) && books.buffers == map[]
      modifies this`tick, this`tensors, this`next, this`role, this`spare, this`books
      ensures Valid() && tick >= old(tick) && (ok <==> Faults(fails, old(tick), tick) == 0)
      ensures ok ==> ModelOf(books, tensors) == m && spare == {}
    {
      hide Tidy, Faults, Distinct, ModelOf;
      FaultsSplit(fails, tick, tick, tick);
      ghost var done := start;
      ok := true;
      var bs := m.buffers.Keys;
      while bs != {}
        invariant ok && Valid() && tick >= old(tick) && Faults(fails, old(tick), tick) == 0 && spare == {}
        invariant bs <= m.buffers.Keys && books.buffers.Keys == m.buffers.Keys - bs
        invariant ModelOf(books, tensors) == done && done.pairs == m.pairs
        invariant done.buffers.Keys == m.buffers.Keys - bs && forall b | b in done.buffers :: done.buffers[b] == m.buffers[b]
      {
        var b :| b in bs;
        ghost var tick1 := tick;
        ok := AddBuffer(b, m.buffers[b]);
        FaultsSplit(fails, old(tick), tick1, tick);
        if !ok { return; }
        bs, done := bs - {b}, done.(buffers := done.buffers[b := m.buffers[b]]);
      }
      assert done.buffers == m.buffers;
    }

    /** A forward replaces a buffer: the new handle first, then the old one is freed. */
    method CommitBuffer(b: nat, x: Value) returns (ok: bool)
      requires Live() && b in books.buffers
      modifies this`tick, this`tensors, this`next, this`role, this`spare, this`books
      ensures Live() && tick >= old(tick) && (ok <==> Faults(fails, old(tick), tick) == 0)
      ensures ok ==> spare == old(spare) && BufferAt(books, tensors, b) == x
      ensures !ok ==> books == old(books)
      ensures b in books.buffers && books == old(books).(buffers := old(books).buffers[b := books.buffers[b]])
      ensures Kept(books.(buffers := books.buffers - {b}), old(tensors), tensors)
    {
      hide Tidy, Faults, Kept, Stable;
      ghost var role1, spare1, before, t0 := role, spare, tensors, books;
      var h;
      SpareLive(role, books, spare);
      ok, h := Publish(x, BufferOf(b));
      StableKeeps(role1, t0, spare1, before, tensors);
      KeptLess(t0, before, tensors, b);
      assert t0.buffers[b := t0.buffers[b]] == t0.buffers;
      if !ok { return; }
      ghost var published, tick1 := tensors, tick;
      BufferTidy(role, books, spare, b, h);
      var o := books.buffers[b];
      SpareLive(role, books, spare);
      ok := Discard(o);
      FaultsSplit(fails, old(tick), tick1, tick);
      WithoutBuffer(role, t0, spare, published, tensors, b);
      KeptTrans(t0.(buffers := t0.buffers - {b}), before, published, tensors);
      if ok {
        role, spare := role - {o}, spare - {h};
        books := books.(buffers := books.buffers[b := h]);
        assert books.buffers - {b} == t0.buffers - {b};
        assert spare == old(spare);
      }
    }

    /** The buffers a forward replaces, one by one; the first failure ends it. */
    method CommitBuffers(updates: map<nat, Value>) returns (ok: bool)
      requires Live()
      modifies this`tick, this`tensors, this`next, this`role, this`spare, this`books
      ensures Live() && tick >= old(tick) && (ok <==> Faults(fails, old(tick), tick) == 0)
      ensures books == old(books).(buffers := books.buffers) && books.buffers.Keys == old(books).buffers.Keys
      ensures ok ==> spare == old(spare) && ModelOf(books, tensors) == Committed(old(ModelOf(books, tensors)), updates)
      ensures ModelOf(books, tensors).pairs == old(ModelOf(books, tensors)).pairs
      ensures updates == map[] ==> tick == old(tick)
      ensures forall p :: GradientAt(books, tensors, p) == GradientAt(old(books), old(tensors), p)
    {
      hide Tidy, Faults, Kept, ModelOf, BufferAt;
      FaultsSplit(fails, tick, tick, tick);
      ghost var t0, x0 := books, tensors;
      StartKept(books.(buffers := map[]), tensors);
      var todo := updates.Keys * books.buffers.Keys;
      ok := true;
      while todo != {}
        invariant ok && Live() && tick >= old(tick) && Faults(fails, old(tick), tick) == 0 && spare == old(spare)
        invariant books == t0.(buffers := books.buffers) && books.buffers.Keys == t0.buffers.Keys
        invariant updates == map[] ==> tick == old(tick)
        invariant todo <= updates.Keys * books.buffers.Keys
        invariant Kept(books.(buffers := map[]), x0, tensors)
        invariant forall b | b in books.buffers ::
            BufferAt(books, tensors, b) == if b in updates && b !in todo then updates[b] else BufferAt(t0, x0, b)
      {
        var b :| b in todo;
        ghost var t1, x1, tick1 := books, tensors, tick;
        ok := CommitBuffer(b, updates[b]);
        FaultsSplit(fails, old(tick), tick1, tick);
        NoBuffers(books, x1, tensors, b);
        assert t1.(buffers := map[]) == books.(buffers := map[]);
        KeptTrans(books.(buffers := map[]), x0, x1, tensors);
        forall c | c in books.buffers && c != b ensures BufferAt(books, tensors, c) == BufferAt(t1, x1, c) {
          OtherBuffer(t1, x1, books, tensors, b, c);
        }
        if !ok {
          CommittedModel(t0, x0, books, tensors, updates);
          return;
        }
        todo := todo - {b};
      }
      CommittedModel(t0, x0, books, tensors, updates);
    }

    /**
     The start of a pass. A job that has failed or awaits a step refuses it, and so does the
     admission check, which leaves the job as it was. `runs` says whether the model itself runs
     through; `updates` are the buffers replaced before it does or does not.
     */
    method Forward(training: bool, admitted: bool, runs: bool, updates: map<nat, Value>) returns (ok: bool)
      requires Valid()
      modifies this`tick, this`tensors, this`next, this`role, this`spare, this`books, this`pending, this`backwardComplete, this`failed, this`awaiting
      ensures Valid() && tick >= old(tick)
      ensures ok <==> old(!failed && !pending) && admitted && runs && Faults(fails, old(tick), tick) == 0
      ensures ModelOf(books, tensors).pairs == old(ModelOf(books, tensors)).pairs
      ensures ok ==> ModelOf(books, tensors) == Committed(old(ModelOf(books, tensors)), updates) && spare == old(spare)
      ensures ok && training ==> pending && !backwardComplete && awaiting && !failed
      ensures training && old(!failed && !pending) && admitted && !ok ==> failed && !pending
      ensures old(failed || pending) || !admitted ==> books == old(books) && tensors == old(tensors) && tick == old(tick)
      ensures updates == map[] ==> tick == old(tick)
      ensures !training || old(failed || pending) || !admitted ==> (pending, backwardComplete, failed, awaiting) == old((pending, backwardComplete, failed, awaiting))
    {
      hide Tidy, Faults, ListedIn, ModelOf, BufferAt, GradientAt;
      FaultsSplit(fails, tick, tick, tick);
      if failed || pending || !admitted { return false; }
      ghost var t0 := books;
      ok := CommitBuffers(updates);
      StillListed(records, trainable, t0, books, 0);
      FaultsSplit(fails, 0, old(tick), tick);
      ok := ok && runs;
      if training {
        pending, backwardComplete, awaiting, failed := ok, false, ok, !ok;
      }
    }

    /**
     The reverse pass stores one gradient per trainable parameter it reaches. It never replaces a
     live gradient: there is none when it starts.
     */
    method Backward(runs: bool, gradients: map<nat, real>) returns (ok: bool)
      requires Valid()
      modifies this`tick, this`tensors, this`next, this`role, this`books, this`backwardComplete, this`failed, this`awaiting
      ensures Valid() && books == old(books).(gradients := books.gradients) && tick >= old(tick)
      ensures ModelOf(books, tensors) == old(ModelOf(books, tensors))
      ensures old(!awaiting) ==> !ok && books == old(books) && failed == old(failed) && tick == old(tick)
      ensures old(awaiting) ==> !awaiting && old(books).Named() == {} && (ok || failed)
      ensures ok <==> old(awaiting) && runs && Faults(fails, old(tick), tick) == 0
      ensures tick <= old(tick) + |Flatten(records)|
      ensures ok ==> backwardComplete && !failed && tick == old(tick) + |books.gradients|
      ensures ok ==> forall p :: p in books.Named() <==> p in gradients && p in trainable && p in books.weights
      ensures forall p | p in books.gradients && old(awaiting) :: p in gradients && GradientAt(books, tensors, p) == Some(gradients[p])
    {
      hide Tidy, Faults, ModelOf, GradientAt, Flatten, ListedIn, Trainer.Live, Trainer.Listed;
      FaultsSplit(fails, tick, tick, tick);
      if !awaiting { return false; }
      awaiting := false;
      ok := SaveListed(gradients);
      FaultsSplit(fails, 0, old(tick), tick);
      ok := ok && runs;
      backwardComplete, failed := ok, !ok;
    }

    method SaveListed(gradients: map<nat, real>) returns (ok: bool)
      requires Live() && Listed() && books.Named() == {}
      modifies this`tick, this`tensors, this`next, this`role, this`books
      ensures Live() && Listed() && books == old(books).(gradients := books.gradients) && books.dangling == {}
      ensures ModelOf(books, tensors) == old(ModelOf(books, tensors))
      ensures old(tick) <= tick <= old(tick) + |Flatten(records)| && (ok <==> Faults(fails, old(tick), tick) == 0)
      ensures ok ==> tick == old(tick) + |books.gradients|
      ensures ok ==> forall p :: p in books.Named() <==> p in gradients && p in trainable && p in books.weights
      ensures forall p | p in books.gradients :: p in gradients && GradientAt(books, tensors, p) == Some(gradients[p])
    {
      hide Tidy, Kept, Faults, ModelOf, GradientAt, Flatten, ListedIn;
      ghost var t0, tensors0 := books, tensors;
      NothingNamed(records, trainable, t0);
      ok := SaveAll(gradients);
      GradientsListed(records, trainable, t0, books, gradients);
      GradientsModel(t0, books, tensors0, tensors);
    }

    method SaveAll(gradients: map<nat, real>) returns (ok: bool)
      requires Live() && books.gradients == map[] && CoveredBy(books.weights, Flatten(records))
      modifies this`tick, this`tensors, this`next, this`role, this`books
      ensures Live() && books == old(books).(gradients := books.gradients) && Kept(old(books), old(tensors), tensors)
      ensures old(tick) <= tick <= old(tick) + |Flatten(records)| && (ok <==> Faults(fails, old(tick), tick) == 0)
      ensures ok ==> tick == old(tick) + Size(books)
      ensures SavedAs(books, tensors, gradients) && Reached(books, gradients, trainable, ok)
    {
      hide Live, Kept, Faults, Flatten, SavedAs, Wanted, CoveredBy, Reached, Size;
      NoSize(books);
      NoneSaved(books, tensors, gradients);
      FaultsSplit(fails, tick, tick, tick);
      StartKept(books, tensors);
      var order, weights := Flatten(records), books.weights;
      NothingWanted(gradients, trainable, weights);
      for i := 0 to |order|
        invariant Live() && books == old(books).(gradients := books.gradients) && Kept(old(books), old(tensors), tensors)
        invariant books.gradients.Keys == Wanted(order[..i], gradients, trainable, weights)
        invariant SavedAs(books, tensors, gradients)
        invariant tick == old(tick) + Size(books) <= old(tick) + i && Faults(fails, old(tick), tick) == 0
      {
        var p := order[i];
        assert order[..i + 1] == order[..i] + [p];
        WantedStep(order[..i], p, gradients, trainable, weights);
        if p in gradients && p in trainable && p in weights && p !in books.gradients {
          ok := SaveOne(p, gradients, old(tick), old(books), old(tensors));
          if !ok {
            WantedSome(books, order[..i], gradients, trainable);
            return;
          }
        }
      }
      assert order[..|order|] == order;
      WantedAll(books, order, gradients, trainable);
      ok := true;
    }

    method SaveOne(p: nat, gradients: map<nat, real>, ghost tick0: nat, ghost t0: Books, ghost tensors0: Tensors) returns (ok: bool)
      requires Live() && p in books.weights && p !in books.gradients && p in gradients && Kept(t0, tensors0, tensors)
      requires books == t0.(gradients := books.gradients) && t0.gradients == map[]
      requires tick == tick0 + Size(books) && Faults(fails, tick0, tick) == 0
      requires SavedAs(books, tensors, gradients)
      modifies this`tick, this`tensors, this`next, this`role, this`books
      ensures Live() && Kept(t0, tensors0, tensors) && books == t0.(gradients := books.gradients) && tick == old(tick) + 1
      ensures ok ==> tick == tick0 + Size(books) && Faults(fails, tick0, tick) == 0
      ensures !ok ==> Faults(fails, tick0, tick) != 0
      ensures books.gradients.Keys == old(books).gradients.Keys + if ok then {p} else {}
      ensures SavedAs(books, tensors, gradients)
    {
      hide Tidy, Kept, Faults, GradientAt;
      ghost var t1, tick1 := books, tick;
      ok := SaveGradient(p, gradients[p], t0, tensors0);
      FaultsSplit(fails, tick0, tick1, tick);
      CountOne(books.gradients, t1.gradients, p, ok);
    }

    method SaveGradient(p: nat, x: real, ghost t0: Books, ghost tensors0: Tensors) returns (ok: bool)
      requires Live() && p in books.weights && p !in books.gradients && Kept(t0, tensors0, tensors)
      requires books == t0.(gradients := books.gradients) && t0.gradients == map[]
      modifies this`tick, this`tensors, this`next, this`role, this`books
      ensures Live() && Kept(t0, tensors0, tensors)
      ensures tick == old(tick) + 1 && Faults(fails, old(tick), tick) == if ok then 0 else 1
      ensures !ok ==> books == old(books) && tensors == old(tensors)
      ensures ok ==> books.gradients.Keys == old(books).gradients.Keys + {p} && books == t0.(gradients := books.gradients)
      ensures ok ==> GradientAt(books, tensors, p) == Some(x)
      ensures ok ==> forall q | q in old(books).gradients :: GradientAt(books, tensors, q) == GradientAt(old(books), old(tensors), q)
    {
      hide Faults, Tidy, Kept;
      ok := Attempt();
      if ok {
        var h := next;
        next := next + 1;
        AddGradientTidy(role, books, spare, p, h);
        ghost var before := books;
        EarlierKept(role, books, t0, spare, tensors0, tensors, h, Whole(Some(x)));
        tensors, role := tensors[h := Whole(Some(x))], role[h := GradientOf(p)];
        books := books.(gradients := books.gradients[p := h]);
        forall q | q in before.gradients ensures before.gradients[q] != h {
          ListedLive(old(role), before, spare, q);
        }
      }
    }

    /**
     Gives all gradients up without a step; it is refused while a forward awaits its backward. It
     succeeds exactly when none of the frees it needs raises. When one does, the job is not marked
     as failed, although a gradient that is still listed has lost its contents; the call may be
     repeated.
     */
    method ZeroGrad() returns (ok: bool)
      requires Valid()
      modifies this`tick, this`tensors, this`role, this`books, this`pending, this`backwardComplete
      ensures Valid() && tick >= old(tick) && spare == old(spare)
      ensures ModelOf(books, tensors) == old(ModelOf(books, tensors))
      ensures old(pending && !backwardComplete) ==> !ok && books == old(books) && tensors == old(tensors) && tick == old(tick)
      ensures ok <==> old(!pending || backwardComplete)
                      && forall t: nat | old(tick) <= t < old(tick) + Wholes(old(books), old(tensors), Flatten(records)) :: !fails(t)
      ensures old(!pending || backwardComplete) ==> (ok <==> Faults(fails, old(tick), tick) == 0)
      ensures ok ==> books == old(books).(gradients := map[], dangling := {}) && !pending && !backwardComplete
      ensures !ok ==> pending == old(pending) && backwardComplete == old(backwardComplete)
      ensures !ok && old(!pending || backwardComplete) ==> Damaged(old(books), old(tensors), books, tensors)
      ensures books == old(books).(gradients := books.gradients, dangling := books.dangling) && books.Named() <= old(books).Named()
    {
      hide Tidy, Kept, Faults, Distinct, ModelOf, HasContents, Wholes, Damaged, Flatten;
      FaultsSplit(fails, tick, tick, tick);
      if pending && !backwardComplete { return false; }
      ghost var t0, x0 := books, tensors;
      ghost var all := Wholes(t0, x0, Flatten(records));
      StartKept(t0, x0);
      NothingFreed(t0, x0, records);
      for i := 0 to |records|
        invariant Live() && Freed(t0, x0, Flatten(records[..i]))
        invariant books.dangling == t0.dangling - SetOf(Flatten(records[..i]))
        invariant pending == old(pending) && backwardComplete == old(backwardComplete)
        invariant tick == old(tick) + Wholes(t0, x0, Flatten(records[..i])) && Faults(fails, old(tick), tick) == 0
      {
        ghost var tick1 := tick;
        FlattenPrefix(records, i);
        InOrder(records, i);
        WholesAppend(t0, x0, Flatten(records[..i]), records[i]);
        ok := FreeRecord(records[i], t0, x0, Flatten(records[..i]));
        FaultsSplit(fails, old(tick), tick1, tick);
        PartModel(t0, x0, books, tensors);
        if !ok {
          WholesPrefix(t0, x0, records, i + 1);
          FaultsSplit(fails, old(tick), tick, old(tick) + all);
          NoFault(fails, old(tick), old(tick) + all);
          FaultsSplit(fails, 0, old(tick), tick);
          return;
        }
      }
      assert records[..|records|] == records;
      NoFault(fails, old(tick), tick);
      FaultsSplit(fails, 0, old(tick), tick);
      PartModel(t0, x0, books, tensors);
      NothingListed(books, t0, Flatten(records));
      pending, backwardComplete := false, false;
      ok := true;
    }

    /** The gradients of the parameters `done` are no longer listed; the others are as they were. */
    ghost predicate Freed(t0: Books, x0: Tensors, done: seq<nat>)
      reads this`books, this`tensors
    {
      && books == t0.(gradients := t0.gradients - SetOf(done), dangling := books.dangling)
      && Kept(books, x0, tensors)
    }

    /** One record's gradients. They are struck off together once all of them have been freed. */
    method FreeRecord(ps: seq<nat>, ghost t0: Books, ghost x0: Tensors, ghost done: seq<nat>) returns (ok: bool)
      requires Live() && Freed(t0, x0, done) && Distinct(done + ps) && t0.gradients.Keys !! t0.dangling
      requires books.dangling == t0.dangling - SetOf(done)
      modifies this`tick, this`tensors, this`role, this`books
      ensures Live() && books == t0.(gradients := books.gradients, dangling := books.dangling)
      ensures books.Named() <= t0.Named() && books.gradients.Keys !! books.dangling
      ensures Kept(t0.(gradients := map[]), x0, tensors)
      ensures tick >= old(tick) && Faults(fails, old(tick), tick) == if ok then 0 else 1
      ensures tick <= old(tick) + Wholes(t0, x0, ps)
      ensures ok ==> tick == old(tick) + Wholes(t0, x0, ps) && Freed(t0, x0, done + ps) && books.dangling == t0.dangling - SetOf(done + ps)
      ensures !ok ==> Damaged(t0, x0, books, tensors)
    {
      hide Tidy, Kept, Faults, HasContents, Wholes, Damaged, SetOf;
      FaultsSplit(fails, tick, tick, tick);
      WholesNone(t0, x0);
      assert done + ps[..0] == done && ps[..0] == [];
      SetOfNone();
      KeptState(t0, books, x0, tensors);
      for k := 0 to |ps|
        invariant Live() && Freed(t0, x0, done + ps[..k])
        invariant books.Named() <= t0.Named() && books.gradients.Keys !! books.dangling
        invariant books.dangling - SetOf(ps[..k]) == t0.dangling - SetOf(done + ps[..k])
        invariant tick == old(tick) + Wholes(t0, x0, ps[..k]) && Faults(fails, old(tick), tick) == 0
        invariant Kept(t0.(gradients := map[]), x0, tensors)
      {
        ghost var x1, tick1, t1 := tensors, tick, books;
        var p := ps[k];
        WholesStep(t0, x0, ps, k);
        NotDone(done, ps, k);
        if p in books.gradients {
          SameContents(t0, x0, t1, x1, p);
          ok := FreeListed(p);
          FaultsSplit(fails, old(tick), tick1, tick);
          KeptFewer(t0, x0, t1, x1, books, tensors, p);
          if !ok {
            WholesLess(t0, x0, ps, k + 1);
            OneDamaged(t0, x0, books, tensors, p);
            return;
          }
          Narrower(t0, done + ps[..k], p);
        } else {
          NotListed(t0, x0, books, done + ps[..k], p);
        }
        assert done + ps[..k + 1] == done + ps[..k] + [p];
        assert ps[..k + 1] == ps[..k] + [p];
        StruckStep(t1.dangling, books.dangling, t0.dangling, ps[..k], done + ps[..k], p);
      }
      assert ps[..|ps|] == ps;
      StrikeAll(role, books, spare, t0.dangling - SetOf(done + ps));
      KeptStruck(books, x0, tensors, t0.dangling - SetOf(done + ps));
      books := books.(dangling := books.dangling - SetOf(ps));
      ok := true;
    }

    /** Frees a listed gradient; it stays listed until its record is done. */
    method FreeListed(p: nat) returns (ok: bool)
      requires Live() && p in books.gradients
      modifies this`tick, this`tensors, this`role, this`books
      ensures Live() && Kept(books.(gradients := books.gradients - {p}), old(tensors), tensors)
      ensures tick == old(tick) + if HasContents(old(books), old(tensors), p) then 1 else 0
      ensures Faults(fails, old(tick), tick) == if ok then 0 else 1
      ensures ok ==> books == old(books).(gradients := old(books).gradients - {p}, dangling := old(books).dangling + {p})
      ensures !ok ==> books == old(books) && HasContents(old(books), old(tensors), p) && Entry(tensors, books.gradients[p]) == Some(Hollow)
    {
      hide Faults, Tidy, Kept;
      var h := books.gradients[p];
      ListedLive(role, books, spare, p);
      ok := Discard(h);
      AfterDiscard(role, books, spare, old(tensors), tensors, p);
      if ok {
        DropGradientTidy(role, books, spare, p);
        role := role - {h};
        books := books.(gradients := books.gradients - {p});
        StrikeAll(role, books, spare, books.dangling + {p});
        KeptStruck(books, old(tensors), tensors, books.dangling + {p});
        books := books.(dangling := books.dangling + {p});
        assert books.gradients - {p} == books.gradients;
      }
    }

    // ---- Runs ----

    /** Whenever no step is pending and the job has not failed, no gradient is listed; and if nothing outside ever raised, the live handles are exactly weights, optimizer state and buffers. */
    lemma LiveExactly()
      requires Valid() && !failed && !pending
      ensures books.Named() == {} && books.gradients == map[]
      ensures Faults(fails, 0, tick) == 0 ==> tensors.Keys == InUse(books)
    {
      hide Tidy, Faults, InUse, Distinct;
      assert books.gradients.Keys == {};
      if Faults(fails, 0, tick) == 0 { TidyInUse(role, books); }
    }

    /** Any calls in any order, refused or raising or not. */
    method Run(calls: seq<Call>)
      requires Valid()
      modifies this
      ensures Valid() && tick >= old(tick)
      ensures !failed && !pending ==> books.Named() == {} && (Faults(fails, 0, tick) == 0 ==> tensors.Keys == InUse(books))
    {
      hide Valid, Faults, InUse, ModelOf;
      for i := 0 to |calls|
        invariant Valid() && tick >= old(tick)
      {
        match calls[i]
        case CallForward(training, admitted, runs, updates) => var _ := Forward(training, admitted, runs, updates);
        case CallBackward(runs, gradients) => var _ := Backward(runs, gradients);
        case CallStep => var _ := Step();
        case CallZeroGrad => var _ := ZeroGrad();
      }
      if !failed && !pending { LiveExactly(); }
    }

    /** Nothing is pending and the job is healthy. */
    predicate Idle()
      reads this
    {
      !failed && !pending && !awaiting
    }

    /** A forward, a backward, and a step or a zero_grad; if anything raises it ends there. */
    method RunCalls(c: Cycle) returns (ok: bool)
      requires Valid() && Idle()
      modifies this`tick, this`tensors, this`next, this`role, this`spare, this`books, this`pending, this`backwardComplete, this`failed, this`awaiting
      ensures Valid() && tick >= old(tick) && (ok <==> Faults(fails, old(tick), tick) == 0)
      ensures ok ==> Idle() && spare == old(spare) && books.Named() == {}
      ensures ok ==> ModelOf(books, tensors) == Cycled(rule, trainable, old(ModelOf(books, tensors)), c)
    {
      hide Valid, Faults, ModelOf, PairOf, BufferAt, GradientAt, Updated, Wholes, Damaged, Flatten, Committed, Stepped;
      ghost var m0 := ModelOf(books, tensors);
      ok := Forward(true, true, true, c.updates);
      if !ok { return; }
      ghost var tick1 := tick;
      ok := Backward(true, c.gradients);
      FaultsSplit(fails, old(tick), tick1, tick);
      if !ok { return; }
      ghost var t1, x1, tick2 := books, tensors, tick;
      if c.step {
        ok := Step();
        if ok { SteppedModel(rule, trainable, t1, x1, books, tensors, c.gradients); }
      } else {
        ok := ZeroGrad();
      }
      FaultsSplit(fails, old(tick), tick2, tick);
    }

    /** One cycle; if anything raises it ends there. */
    method RunCycle(c: Cycle) returns (ok: bool)
      requires Valid() && Idle()
      modifies this`tick, this`tensors, this`next, this`role, this`spare, this`books, this`pending, this`backwardComplete, this`failed, this`awaiting
      ensures Valid() && tick >= old(tick) && (ok <==> Faults(fails, old(tick), tick) == 0)
      ensures ok ==> Idle() && spare == old(spare) && books.Named() == {}
      ensures ok ==> ModelOf(books, tensors) == Cycled(rule, trainable, old(ModelOf(books, tensors)), c)
      ensures ok ==> CycledHandles(rule, trainable, c, old(books), old(tensors), books, tensors)
    {
      hide Valid, Faults, ModelOf, Cycled, CycledHandles;
      ghost var t0, x0 := books, tensors;
      ok := RunCalls(c);
      if ok { CycledOnHandles(rule, trainable, c, t0, x0, books, tensors); }
    }

    /** Any number of cycles. What they leave is what the same cycles make of the model on values, and nothing else is alive. */
    method RunCycles(cs: seq<Cycle>) returns (ok: bool)
      requires Valid() && Idle()
      modifies this`tick, this`tensors, this`next, this`role, this`spare, this`books, this`pending, this`backwardComplete, this`failed, this`awaiting
      ensures Valid() && tick >= old(tick) && (ok <==> Faults(fails, old(tick), tick) == 0)
      ensures ok ==> Idle() && spare == old(spare) && ModelOf(books, tensors) == AfterCycles(rule, trainable, old(ModelOf(books, tensors)), cs)
      ensures ok && Faults(fails, 0, old(tick)) == 0 ==> tensors.Keys == InUse(books)
    {
      hide Valid, Faults, ModelOf, Cycled, InUse;
      FaultsSplit(fails, tick, tick, tick);
      ok := true;
      for i := 0 to |cs|
        invariant ok && Valid() && Idle() && spare == old(spare) && tick >= old(tick) && Faults(fails, old(tick), tick) == 0
        invariant ModelOf(books, tensors) == AfterCycles(rule, trainable, old(ModelOf(books, tensors)), cs[..i])
      {
        assert cs[..i + 1][..i] == cs[..i];
        ghost var tick1 := tick;
        ok := RunCycle(cs[i]);
        FaultsSplit(fails, old(tick), tick1, tick);
        if !ok { return; }
      }
      assert cs[..|cs|] == cs;
      FaultsSplit(fails, 0, old(tick), tick);
      LiveExactly();
    }
  }

  /** A whole job from the start. */
  method TrainJob(records: seq<seq<nat>>, trainable: set<nat>, rule: Rule, fails: nat -> bool, m: Model, cs: seq<Cycle>)
    returns (ok: bool, job: Trainer)
    requires Distinct(Flatten(records)) && m.pairs.Keys <= SetOf(Flatten(records)) && forall p | p in m.pairs :: m.pairs[p].state == []
    ensures fresh(job) && job.Valid() && (ok <==> Faults(fails, 0, job.tick) == 0)
    ensures ok ==> ModelOf(job.books, job.tensors) == AfterCycles(rule, trainable, m, cs)
    ensures ok ==> job.tensors.Keys == InUse(job.books) && !job.pending && !job.failed
  {
    hide Faults, ModelOf, InUse, Cycled, AfterCycles;
    job := new Trainer(records, trainable, rule, fails);
    ok := job.Prepare(m);
    if !ok { return; }
    ghost var tick1 := job.tick;
    ok := job.RunCycles(cs);
    FaultsSplit(fails, 0, tick1, job.tick);
  }

  /** A job with one parameter after a forward and a backward. */
  method ReadyJob(rule: Rule, w: real, g: real) returns (job: Trainer)
    ensures fresh(job) && job.Valid() && job.records == [[0]] && job.rule == rule && !job.failed && job.backwardComplete
    ensures (forall t :: job.fails(t) <==> t == 2) && job.tick == 2 && job.books.gradients.Keys == {0} && job.books.dangling == {}
    ensures job.books.weights.Keys == {0} && PairOf(job.books, job.tensors, 0) == Pair(Some(w), [])
    ensures GradientAt(job.books, job.tensors, 0) == Some(g)
  {
    hide Tidy, Faults, GradientAt, Flatten, Distinct, ListedIn, ModelOf, Trainer.Valid, Committed;
    OneGroup();
    job := new Trainer([[0]], {0}, rule, t => t == 2);
    var ok := job.AddWeight(0, Some(w));
    OnlyAt(job.fails, 2, 0, 1);
    PairInModel(job.books, job.tensors, 0);
    ok := job.Forward(true, true, true, map[]);
    OnlyAt(job.fails, 2, 1, 1);
    PairInModel(job.books, job.tensors, 0);
    ok := job.Backward(true, map[0 := g]);
    OnlyAt(job.fails, 2, 1, job.tick);
    PairInModel(job.books, job.tensors, 0);
    OnlyZero(job.books, g);
  }

  /**
   The one free of a zero_grad raises; the job goes on, and the next step updates the weight with
   a gradient nobody computed.
   */
  method StepAfterFailedZeroGrad(rule: Rule, w: real, g: real) returns (cleared: bool, stepped: bool, pair: Pair)
    ensures !cleared && stepped && pair == rule(Some(w), None, [])
  {
    hide Tidy, Faults, Wholes, Damaged, GradientAt;
    OneGroup();
    var job := ReadyJob(rule, w, g);
    ghost var t1, x1 := job.books, job.tensors;
    OneListed(t1, x1, g);
    assert ModelOf(t1, x1).pairs[0] == Pair(Some(w), []);
    assert job.fails(2);
    cleared := job.ZeroGrad();
    OnlyAt(job.fails, 2, 2, job.tick);
    ghost var tick2, t2, x2 := job.tick, job.books, job.tensors;
    NoGradient(t1, x1, t2, x2);
    assert ModelOf(t2, x2).pairs[0] == Pair(Some(w), []);
    stepped := job.Step();
    OnlyAt(job.fails, 2, tick2, job.tick);
    pair := PairOf(job.books, job.tensors, 0);
  }

  lemma PairInModel(t: Books, x: Tensors, p: nat)
    ensures ModelOf(t, x).pairs.Keys == t.weights.Keys
    ensures p in t.weights ==> ModelOf(t, x).pairs[p] == PairOf(t, x, p)
  {
  }

  lemma OneGroup()
    ensures Flatten([[0]]) == [0] && 0 in Flatten([[0]]) && Distinct(Flatten([[0]]))
  {
    assert [[0]][..0] == [];
    assert Flatten([[0]]) == Flatten([]) + [0];
  }

  lemma OnlyAt(fails: nat -> bool, n: nat, a: nat, c: nat)
    requires forall t :: fails(t) <==> t == n
    ensures Faults(fails, a, c) == 0 <==> !(a <= n < c)
  {
    NoFault(fails, a, c);
  }

  lemma OneListed(t: Books, x: Tensors, g: real)
    requires t.gradients.Keys == {0} && GradientAt(t, x, 0) == Some(g)
    ensures Wholes(t, x, [0]) == 1
  {
    assert [0][..0] == [];
    assert Wholes(t, x, []) == 0;
  }

  lemma OnlyZero(t: Books, g: real)
    requires t.weights.Keys == {0} && forall p :: p in t.Named() <==> p in map[0 := g] && p in {0} && p in t.weights
    requires t.dangling == {}
    ensures t.gradients.Keys == {0}
  {
    assert 0 in t.Named();
    forall p | p in t.gradients ensures p == 0 { assert p in t.Named(); }
  }

  lemma NoGradient(t0: Books, x0: Tensors, t: Books, x: Tensors)
    requires Damaged(t0, x0, t, x) && t.gradients.Keys <= {0}
    ensures 0 in t.gradients && GradientAt(t, x, 0) == None
  {
  }

  lemma StartKept(t: Books, tensors: Tensors)
    ensures Kept(t, tensors, tensors)
  {
  }

  lemma KeptTrans(t: Books, a: Tensors, b: Tensors, c: Tensors)
    requires Kept(t, a, b) && Kept(t, b, c)
    ensures Kept(t, a, c)
  {
  }

  lemma SpareLive(role: map<nat, Role>, t: Books, spare: set<nat>)
    requires Tidy(role, t, spare)
    ensures spare <= role.Keys
  {
  }

  lemma AfterDiscard(role: map<nat, Role>, t: Books, spare: set<nat>, before: Tensors, after: Tensors, p: nat)
    requires Tidy(role, t, spare) && p in t.gradients
    requires after == before - {t.gradients[p]} || after == before[t.gradients[p] := Hollow]
    ensures Kept(t.(gradients := t.gradients - {p}), before, after)
  {
    var t', h := t.(gradients := t.gradients - {p}), t.gradients[p];
    assert t.At(GradientOf(p)) == Some(h);
    forall o | t'.At(o).Some? ensures Entry(after, t'.At(o).value) == Entry(before, t'.At(o).value) {
      assert t.At(o) == t'.At(o);
    }
  }

  lemma WithoutBuffer(role: map<nat, Role>, t: Books, spare: set<nat>, before: Tensors, after: Tensors, b: nat)
    requires Tidy(role, t, spare) && b in t.buffers
    requires after == before - {t.buffers[b]} || after == before[t.buffers[b] := Hollow]
    ensures Kept(t.(buffers := t.buffers - {b}), before, after)
  {
    var t', h := t.(buffers := t.buffers - {b}), t.buffers[b];
    assert t.At(BufferOf(b)) == Some(h);
    forall o | t'.At(o).Some? ensures Entry(after, t'.At(o).value) == Entry(before, t'.At(o).value) {
      assert t.At(o) == t'.At(o);
    }
  }

  lemma KeptLess(t: Books, before: Tensors, after: Tensors, b: nat)
    requires Kept(t, before, after)
    ensures Kept(t.(buffers := t.buffers - {b}), before, after)
  {
    var t' := t.(buffers := t.buffers - {b});
    forall o | t'.At(o).Some? ensures Entry(after, t'.At(o).value) == Entry(before, t'.At(o).value) {
      assert t.At(o) == t'.At(o);
    }
  }

  lemma NoBuffers(t: Books, before: Tensors, after: Tensors, b: nat)
    requires Kept(t.(buffers := t.buffers - {b}), before, after)
    ensures Kept(t.(buffers := map[]), before, after)
  {
    var t0, t' := t.(buffers := t.buffers - {b}), t.(buffers := map[]);
    forall o | t'.At(o).Some? ensures Entry(after, t'.At(o).value) == Entry(before, t'.At(o).value) {
      assert t0.At(o) == t'.At(o);
    }
  }

  lemma OtherBuffer(t1: Books, x1: Tensors, t: Books, x: Tensors, b: nat, c: nat)
    requires Kept(t.(buffers := t.buffers - {b}), x1, x) && c != b && c in t.buffers && c in t1.buffers && t1.buffers[c] == t.buffers[c]
    ensures BufferAt(t, x, c) == BufferAt(t1, x1, c)
  {
    var t0 := t.(buffers := t.buffers - {b});
    assert t0.At(BufferOf(c)) == Some(t.buffers[c]);
    assert Entry(x, t0.At(BufferOf(c)).value) == Entry(x1, t0.At(BufferOf(c)).value);
  }

  lemma CommittedModel(t0: Books, x0: Tensors, t: Books, x: Tensors, updates: map<nat, Value>)
    requires t == t0.(buffers := t.buffers) && t.buffers.Keys == t0.buffers.Keys && Kept(t.(buffers := map[]), x0, x)
    ensures ModelOf(t, x).pairs == ModelOf(t0, x0).pairs
    ensures forall p :: GradientAt(t, x, p) == GradientAt(t0, x0, p)
    ensures (forall b | b in t.buffers :: BufferAt(t, x, b) == if b in updates then updates[b] else BufferAt(t0, x0, b))
            ==> ModelOf(t, x) == Committed(ModelOf(t0, x0), updates)
  {
    hide BufferAt, Kept, PairOf, GradientAt;
    var t1 := t.(buffers := map[]);
    forall p ensures GradientAt(t, x, p) == GradientAt(t0, x0, p) {
      KeptGradient(t1, x0, x, p);
      SameGradient(t1, t, x, p);
      SameGradient(t1, t0, x0, p);
    }
    forall p | p in t.weights ensures PairOf(t, x, p) == PairOf(t0, x0, p) {
      KeptPair(t1, x0, x, p);
      SamePair(t1, t, x, p);
      SamePair(t1, t0, x0, p);
    }
  }

  lemma SameGradient(t1: Books, t: Books, x: Tensors, p: nat)
    requires t1.gradients == t.gradients
    ensures GradientAt(t1, x, p) == GradientAt(t, x, p)
  {
  }

  lemma KeptGradient(t: Books, before: Tensors, after: Tensors, p: nat)
    requires Kept(t, before, after)
    ensures GradientAt(t, after, p) == GradientAt(t, before, p)
  {
    if p in t.gradients { assert t.At(GradientOf(p)).Some?; }
  }

  lemma KeptBuffer(t: Books, before: Tensors, after: Tensors, b: nat)
    requires Kept(t, before, after)
    ensures BufferAt(t, after, b) == BufferAt(t, before, b)
  {
    if b in t.buffers { assert t.At(BufferOf(b)).Some?; }
  }

  lemma KeptModel(t: Books, before: Tensors, after: Tensors)
    requires Kept(t, before, after)
    ensures ModelOf(t, after) == ModelOf(t, before)
  {
    hide PairOf, BufferAt, Kept;
    forall p | p in t.weights ensures PairOf(t, after, p) == PairOf(t, before, p) { KeptPair(t, before, after, p); }
    forall b | b in t.buffers ensures BufferAt(t, after, b) == BufferAt(t, before, b) { KeptBuffer(t, before, after, b); }
  }

  lemma SameModel(t0: Books, t1: Books, tensors: Tensors)
    requires t1.weights == t0.weights && t1.states == t0.states && t1.buffers == t0.buffers
    ensures ModelOf(t1, tensors) == ModelOf(t0, tensors)
  {
  }

  /** Gradients are no part of the model. */
  lemma GradientsModel(t0: Books, t1: Books, before: Tensors, after: Tensors)
    requires t1 == t0.(gradients := t1.gradients) && Kept(t0, before, after)
    ensures ModelOf(t1, after) == ModelOf(t0, before)
  {
    hide ModelOf, Kept;
    KeptModel(t0, before, after);
    SameModel(t0, t1, after);
  }

  lemma PartModel(t0: Books, x0: Tensors, t: Books, x: Tensors)
    requires t == t0.(gradients := t.gradients, dangling := t.dangling)
    requires Kept(t0.(gradients := map[]), x0, x) || Kept(t, x0, x)
    ensures ModelOf(t, x) == ModelOf(t0, x0)
  {
    hide ModelOf, Kept;
    var t1 := t0.(gradients := map[]);
    if Kept(t, x0, x) { KeptState(t0, t, x0, x); }
    KeptModel(t1, x0, x);
    SameModel(t1, t, x);
    SameModel(t1, t0, x0);
  }

  lemma KeptState(t0: Books, t: Books, before: Tensors, after: Tensors)
    requires t == t0.(gradients := t.gradients, dangling := t.dangling) && Kept(t, before, after)
    ensures Kept(t0.(gradients := map[]), before, after)
  {
    var t1 := t0.(gradients := map[]);
    forall o | t1.At(o).Some? ensures Entry(after, t1.At(o).value) == Entry(before, t1.At(o).value) {
      assert t.At(o) == t1.At(o);
    }
  }

  lemma NothingYet(t: Books, tensors: Tensors)
    requires t.weights == map[] && t.buffers == map[]
    ensures ModelOf(t, tensors) == Model(map[], map[])
  {
  }

  lemma NewPair(t0: Books, t1: Books, tensors: Tensors, p: nat, h: nat, x: Value)
    requires t1 == t0.(weights := t0.weights[p := h]) && p !in t0.states && h in tensors && tensors[h] == Whole(x)
    requires p !in t0.weights
    ensures ModelOf(t1, tensors) == ModelOf(t0, tensors).(pairs := ModelOf(t0, tensors).pairs[p := Pair(x, [])])
  {
    assert PairOf(t1, tensors, p).state == [];
  }

  lemma NewBuffer(t0: Books, t1: Books, tensors: Tensors, b: nat, h: nat, x: Value)
    requires t1 == t0.(buffers := t0.buffers[b := h]) && h in tensors && tensors[h] == Whole(x) && b !in t0.buffers
    ensures ModelOf(t1, tensors) == ModelOf(t0, tensors).(buffers := ModelOf(t0, tensors).buffers[b := x])
  {
    assert ModelOf(t1, tensors).pairs == ModelOf(t0, tensors).pairs by {
      forall p | p in t0.weights ensures PairOf(t1, tensors, p) == PairOf(t0, tensors, p) { SamePair(t0, t1, tensors, p); }
    }
  }

  lemma ListedLive(role: map<nat, Role>, t: Books, spare: set<nat>, p: nat)
    requires Tidy(role, t, spare) && p in t.gradients
    ensures t.gradients[p] in role
  {
    assert t.At(GradientOf(p)) == Some(t.gradients[p]);
  }

  lemma StrikeAll(role: map<nat, Role>, t: Books, spare: set<nat>, dangling: set<nat>)
    requires Tidy(role, t, spare)
    ensures Tidy(role, t.(dangling := dangling), spare)
  {
    var t' := t.(dangling := dangling);
    assert forall o :: t'.At(o) == t.At(o);
  }

  lemma KeptStruck(t: Books, before: Tensors, after: Tensors, dangling: set<nat>)
    requires Kept(t, before, after)
    ensures Kept(t.(dangling := dangling), before, after)
  {
    var t' := t.(dangling := dangling);
    assert forall o :: t'.At(o) == t.At(o);
  }

  // ---- The frees a zero_grad needs ----

  lemma WholesNone(t: Books, x: Tensors)
    ensures Wholes(t, x, []) == 0
  {
  }

  lemma NothingFreed(t0: Books, x0: Tensors, records: seq<seq<nat>>)
    ensures Flatten(records[..0]) == [] && Wholes(t0, x0, []) == 0 && t0.gradients - SetOf([]) == t0.gradients
    ensures t0.dangling - SetOf([]) == t0.dangling
  {
  }

  lemma WholesStep(t: Books, x: Tensors, ps: seq<nat>, k: nat)
    requires k < |ps|
    ensures Wholes(t, x, ps[..k + 1]) == Wholes(t, x, ps[..k]) + if HasContents(t, x, ps[k]) then 1 else 0
  {
    assert ps[..k + 1][..k] == ps[..k];
  }

  lemma WholesLess(t: Books, x: Tensors, ps: seq<nat>, k: nat)
    requires k <= |ps|
    ensures Wholes(t, x, ps[..k]) <= Wholes(t, x, ps)
  {
    assert ps == ps[..k] + ps[k..];
    WholesAppend(t, x, ps[..k], ps[k..]);
  }

  lemma WholesPrefix(t: Books, x: Tensors, records: seq<seq<nat>>, i: nat)
    requires i <= |records|
    ensures Wholes(t, x, Flatten(records[..i])) <= Wholes(t, x, Flatten(records))
  {
    assert records == records[..i] + records[i..];
    FlattenAppend(records[..i], records[i..]);
    WholesAppend(t, x, Flatten(records[..i]), Flatten(records[i..]));
  }

  lemma InOrder(records: seq<seq<nat>>, i: nat)
    requires i < |records| && Distinct(Flatten(records))
    ensures Distinct(Flatten(records[..i]) + records[i])
  {
    assert records == records[..i + 1] + records[i + 1..];
    FlattenAppend(records[..i + 1], records[i + 1..]);
    FlattenPrefix(records, i);
    var all, part := Flatten(records), Flatten(records[..i]) + records[i];
    assert forall k | 0 <= k < |part| :: part[k] == all[k];
  }

  lemma NotDone(done: seq<nat>, ps: seq<nat>, k: nat)
    requires Distinct(done + ps) && k < |ps|
    ensures ps[k] !in done + ps[..k]
  {
    var all := done + ps;
    forall j | 0 <= j < |done| + k ensures (done + ps[..k])[j] != ps[k] {
      assert all[j] == (done + ps[..k])[j] && all[|done| + k] == ps[k];
    }
  }

  /** Entries that are listed as before are as they were. */
  lemma SameContents(t0: Books, x0: Tensors, t: Books, x: Tensors, p: nat)
    requires Kept(t, x0, x) && p in t.gradients && p in t0.gradients && t.gradients[p] == t0.gradients[p]
    ensures HasContents(t, x, p) == HasContents(t0, x0, p)
  {
    assert t.At(GradientOf(p)) == Some(t.gradients[p]);
    assert Entry(x, t.At(GradientOf(p)).value) == Entry(x0, t.At(GradientOf(p)).value);
  }

  lemma KeptFewer(t0: Books, x0: Tensors, t1: Books, x1: Tensors, t: Books, x: Tensors, p: nat)
    requires t1 == t0.(gradients := t1.gradients, dangling := t1.dangling) && t == t1.(gradients := t.gradients, dangling := t.dangling)
    requires t.gradients == t1.gradients || t.gradients == t1.gradients - {p}
    requires Kept(t1, x0, x1) && Kept(t.(gradients := t.gradients - {p}), x1, x)
    ensures Kept(t0.(gradients := map[]), x0, x)
    ensures t.gradients == t1.gradients - {p} ==> Kept(t, x0, x)
  {
    var t2 := t.(gradients := t.gradients - {p});
    forall o | t2.At(o).Some? ensures Entry(x, t2.At(o).value) == Entry(x0, t2.At(o).value) {
      assert t1.At(o) == t2.At(o);
    }
    KeptState(t0, t2, x0, x);
    if t.gradients == t1.gradients - {p} { assert t.gradients - {p} == t.gradients; }
  }

  lemma OneDamaged(t0: Books, x0: Tensors, t: Books, x: Tensors, p: nat)
    requires p in t.gradients && HasContents(t0, x0, p) && Entry(x, t.gradients[p]) == Some(Hollow)
    ensures Damaged(t0, x0, t, x)
  {
  }

  lemma Narrower(t0: Books, done: seq<nat>, p: nat)
    ensures t0.gradients - SetOf(done) - {p} == t0.gradients - SetOf(done + [p])
  {
  }

  function Wanted(ps: seq<nat>, gradients: map<nat, real>, trainable: set<nat>, weights: map<nat, nat>): set<nat> {
    set p | p in ps && p in gradients && p in trainable && p in weights
  }

  /** The listed gradients are those of `gradients`. */
  ghost predicate SavedAs(t: Books, tensors: Tensors, gradients: map<nat, real>) {
    forall p | p in t.gradients :: p in gradients && GradientAt(t, tensors, p) == Some(gradients[p])
  }

  lemma NoneSaved(t: Books, tensors: Tensors, gradients: map<nat, real>)
    requires t.gradients == map[]
    ensures SavedAs(t, tensors, gradients)
  {
  }

  lemma NothingWanted(gradients: map<nat, real>, trainable: set<nat>, weights: map<nat, nat>)
    ensures Wanted([], gradients, trainable, weights) == {}
  {
  }

  lemma WantedStep(ps: seq<nat>, p: nat, gradients: map<nat, real>, trainable: set<nat>, weights: map<nat, nat>)
    ensures Wanted(ps + [p], gradients, trainable, weights)
         == Wanted(ps, gradients, trainable, weights) + if p in gradients && p in trainable && p in weights then {p} else {}
  {
  }

  function Size(t: Books): nat { |t.gradients| }

  lemma NoSize(t: Books)
    requires t.gradients == map[]
    ensures Size(t) == 0
  {
  }

  predicate CoveredBy(weights: map<nat, nat>, order: seq<nat>) {
    forall p | p in weights :: p in order
  }

  /** Only trainable parameters with a gradient have one listed; and all of them, if all were saved. */
  ghost predicate Reached(t: Books, gradients: map<nat, real>, trainable: set<nat>, all: bool) {
    && (forall p | p in t.gradients :: p in gradients && p in trainable && p in t.weights)
    && (all ==> forall p | p in gradients && p in trainable && p in t.weights :: p in t.gradients)
  }

  lemma WantedSome(t: Books, ps: seq<nat>, gradients: map<nat, real>, trainable: set<nat>)
    requires t.gradients.Keys == Wanted(ps, gradients, trainable, t.weights)
    ensures Reached(t, gradients, trainable, false)
  {
  }

  lemma WantedAll(t: Books, ps: seq<nat>, gradients: map<nat, real>, trainable: set<nat>)
    requires t.gradients.Keys == Wanted(ps, gradients, trainable, t.weights) && CoveredBy(t.weights, ps)
    ensures Reached(t, gradients, trainable, true)
  {
  }

  lemma CountOne(after: map<nat, nat>, before: map<nat, nat>, p: nat, added: bool)
    requires p !in before && after.Keys == if added then before.Keys + {p} else before.Keys
    ensures |after| == |before| + if added then 1 else 0
  {
    assert |after| == |after.Keys| && |before| == |before.Keys|;
  }

  lemma StruckStep(a: set<nat>, b: set<nat>, all: set<nat>, xs: seq<nat>, ys: seq<nat>, p: nat)
    requires a - SetOf(xs) == all - SetOf(ys) && (b == a || b == a + {p})
    ensures b - SetOf(xs + [p]) == all - SetOf(ys + [p])
  {
    SetOfAppend(xs, p);
    SetOfAppend(ys, p);
    forall x ensures x in b - SetOf(xs + [p]) <==> x in all - SetOf(ys + [p]) {
      assert x in a - SetOf(xs) <==> x in all - SetOf(ys);
    }
  }

  lemma SetOfNone()
    ensures SetOf<nat>([]) == {}
  {
  }

  lemma SetOfAppend(xs: seq<nat>, p: nat)
    ensures SetOf(xs + [p]) == SetOf(xs) + {p}
  {
  }

  lemma NotListed(t0: Books, x0: Tensors, t: Books, done: seq<nat>, p: nat)
    requires t.gradients == t0.gradients - SetOf(done) && p !in t.gradients && p !in done
    ensures !HasContents(t0, x0, p) && t0.gradients - SetOf(done) == t0.gradients - SetOf(done + [p])
  {
  }

  lemma NothingListed(t: Books, t0: Books, order: seq<nat>)
    requires t == t0.(gradients := t0.gradients - SetOf(order), dangling := t0.dangling - SetOf(order))
    requires forall p | p in t0.Named() :: p in order
    ensures t == t0.(gradients := map[], dangling := {}) && t.Named() == {}
  {
    assert t.gradients == map[];
    assert t.dangling == {};
  }

  lemma SteppedModel(rule: Rule, trainable: set<nat>, t0: Books, x0: Tensors, t: Books, x: Tensors, gradients: map<nat, real>)
    requires t.weights.Keys == t0.weights.Keys && t.buffers == t0.buffers
    requires forall b | b in t.buffers :: BufferAt(t, x, b) == BufferAt(t0, x0, b)
    requires forall p :: p in t0.Named() <==> p in gradients && p in trainable && p in t0.weights
    requires forall p | p in t0.gradients :: p in gradients && GradientAt(t0, x0, p) == Some(gradients[p])
    requires t0.dangling == {}
    requires forall p | p in t0.Named() && p in t.weights :: PairOf(t, x, p) == Updated(rule, t0, x0, p)
    requires forall p | p in t.weights && p !in t0.Named() :: PairOf(t, x, p) == PairOf(t0, x0, p)
    ensures ModelOf(t, x) == Stepped(rule, trainable, ModelOf(t0, x0), gradients)
  {
    hide PairOf, Updated, BufferAt, GradientAt;
    var m0 := ModelOf(t0, x0);
    forall p | p in t.weights
      ensures PairOf(t, x, p) == if p in gradients && p in trainable then rule(m0.pairs[p].weight, Some(gradients[p]), m0.pairs[p].state) else m0.pairs[p]
    {
      if p in t0.Named() { UpdatedPair(rule, t0, x0, p); }
    }
  }

  lemma UpdatedPair(rule: Rule, t: Books, x: Tensors, p: nat)
    requires p in t.weights
    ensures Updated(rule, t, x, p) == rule(PairOf(t, x, p).weight, GradientAt(t, x, p), PairOf(t, x, p).state)
  {
  }

  /** Every other parameter keeps its pair and its gradient. */
  ghost predicate Aside(p: nat, t0: Books, before: Tensors, t1: Books, after: Tensors) {
    && t1.weights.Keys == t0.weights.Keys
    && (forall q | q != p && q in t0.weights :: t1.weights[q] == t0.weights[q])
    && (forall q | q != p :: q in t1.Named() <==> q in t0.Named())
    && (forall q | q != p && q in t0.weights :: PairOf(t1, after, q) == PairOf(t0, before, q))
    && (forall q | q != p :: GradientAt(t1, after, q) == GradientAt(t0, before, q))
    && (forall b :: BufferAt(t1, after, b) == BufferAt(t0, before, b))
  }

  lemma SameAside(p: nat, t: Books, before: Tensors, after: Tensors)
    requires before == after
    ensures Aside(p, t, before, t, after)
  {
  }

  lemma KeptAside(p: nat, t: Books, before: Tensors, after: Tensors)
    requires Kept(t, before, after)
    ensures Aside(p, t, before, t, after)
  {
    hide PairOf;
    forall q | q != p && q in t.weights ensures PairOf(t, after, q) == PairOf(t, before, q) { KeptPair(t, before, after, q); }
    forall q ensures GradientAt(t, after, q) == GradientAt(t, before, q) { KeptGradient(t, before, after, q); }
    forall b ensures BufferAt(t, after, b) == BufferAt(t, before, b) { KeptBuffer(t, before, after, b); }
  }

  lemma SwappedAside(p: nat, t: Books, tensors: Tensors, hs: seq<nat>)
    requires |hs| > 0 && p in t.weights
    ensures Aside(p, t, tensors, Swapped(t, p, hs), tensors)
  {
  }

  lemma GradientAside(p: nat, t0: Books, t1: Books, before: Tensors, after: Tensors)
    requires t1 == t0 || t1 == t0.(gradients := t0.gradients - {p}, dangling := t0.dangling - {p})
    requires Kept(t1.(gradients := t1.gradients - {p}), before, after) && p in t0.weights
    ensures Aside(p, t0, before, t1, after)
    ensures PairOf(t1, after, p) == PairOf(t0, before, p)
  {
    hide PairOf, Kept, GradientAt, BufferAt;
    var t := t1.(gradients := t1.gradients - {p});
    forall q | q in t0.weights ensures PairOf(t1, after, q) == PairOf(t0, before, q) {
      KeptPair(t, before, after, q);
      SamePair(t0, t, before, q);
      SamePair(t1, t, after, q);
    }
    forall q | q != p ensures GradientAt(t1, after, q) == GradientAt(t0, before, q) {
      KeptGradient(t, before, after, q);
      OtherGradient(t, t1, after, p, q);
      OtherGradient(t, t0, before, p, q);
    }
    forall b ensures BufferAt(t1, after, b) == BufferAt(t0, before, b) {
      KeptBuffer(t, before, after, b);
      SameBuffer(t, t1, after, b);
      SameBuffer(t, t0, before, b);
    }
  }

  lemma OtherGradient(t: Books, t0: Books, tensors: Tensors, p: nat, q: nat)
    requires q != p && t.gradients == t0.gradients - {p}
    ensures GradientAt(t, tensors, q) == GradientAt(t0, tensors, q)
  {
  }

  lemma SameBuffer(t: Books, t0: Books, tensors: Tensors, b: nat)
    requires t.buffers == t0.buffers
    ensures BufferAt(t, tensors, b) == BufferAt(t0, tensors, b)
  {
  }

  lemma SamePair(t0: Books, t1: Books, tensors: Tensors, p: nat)
    requires t1.weights == t0.weights && t1.states == t0.states && p in t0.weights
    ensures PairOf(t1, tensors, p) == PairOf(t0, tensors, p)
  {
  }

  lemma AsideTrans(p: nat, t0: Books, x0: Tensors, t1: Books, x1: Tensors, t2: Books, x2: Tensors)
    requires Aside(p, t0, x0, t1, x1) && Aside(p, t1, x1, t2, x2)
    ensures Aside(p, t0, x0, t2, x2)
  {
    hide PairOf;
  }

  /** During a step each parameter is untouched with its gradient pending, or updated with its gradient gone, or (when the step failed) either pair. */
  ghost predicate Progress(rule: Rule, t0: Books, before: Tensors, t: Books, now: Tensors) {
    && t.weights.Keys == t0.weights.Keys && t.Named() <= t0.Named() && t0.Named() <= t0.weights.Keys
    && t.states.Keys <= t.weights.Keys
    && (forall p | p in t.Named() :: PairOf(t, now, p) == PairOf(t0, before, p) && GradientAt(t, now, p) == GradientAt(t0, before, p))
    && (forall p | p in t0.Named() && p !in t.Named() :: PairOf(t, now, p) == Updated(rule, t0, before, p))
    && (forall p | p in t0.weights && p !in t0.Named() :: PairOf(t, now, p) == PairOf(t0, before, p))
    && (forall b :: BufferAt(t, now, b) == BufferAt(t0, before, b)) && t.buffers == t0.buffers
  }

  /** Each parameter has its old pair or its updated one. */
  ghost predicate Mixed(rule: Rule, t0: Books, before: Tensors, t: Books, now: Tensors) {
    && t.weights.Keys == t0.weights.Keys && t.Named() <= t0.Named() && t.states.Keys <= t.weights.Keys
    && (forall p | p in t0.weights ::
          PairOf(t, now, p) == PairOf(t0, before, p) || (p in t0.Named() && PairOf(t, now, p) == Updated(rule, t0, before, p)))
    && (forall b :: BufferAt(t, now, b) == BufferAt(t0, before, b)) && t.buffers == t0.buffers
  }

  lemma StepStart(rule: Rule, t: Books, tensors: Tensors)
    requires t.Named() <= t.weights.Keys && t.states.Keys <= t.weights.Keys
    ensures Progress(rule, t, tensors, t, tensors)
  {
  }

  lemma SameMixed(rule: Rule, t: Books, tensors: Tensors)
    requires t.states.Keys <= t.weights.Keys
    ensures Mixed(rule, t, tensors, t, tensors)
  {
  }

  lemma MixedPairs(rule: Rule, t0: Books, before: Tensors, t: Books, now: Tensors)
    requires Mixed(rule, t0, before, t, now)
    ensures t.weights.Keys == t0.weights.Keys && t.Named() <= t0.Named() && t.states.Keys <= t.weights.Keys
    ensures forall p | p in t0.weights && p in t.weights ::
              PairOf(t, now, p) == PairOf(t0, before, p) || (p in t0.Named() && PairOf(t, now, p) == Updated(rule, t0, before, p))
    ensures (forall b :: BufferAt(t, now, b) == BufferAt(t0, before, b)) && t.buffers == t0.buffers
  {
    hide BufferAt;
  }

  lemma NoneLeft(rule: Rule, t0: Books, before: Tensors, t: Books, now: Tensors, order: seq<nat>)
    requires Progress(rule, t0, before, t, now) && forall p | p in t0.weights :: p in order
    requires forall p | p in t.Named() :: p !in order
    ensures t.Named() == {}
    ensures forall p | p in t0.Named() && p in t0.weights && p in t.weights :: PairOf(t, now, p) == Updated(rule, t0, before, p)
    ensures forall p | p in t0.weights && p in t.weights && p !in t0.Named() :: PairOf(t, now, p) == PairOf(t0, before, p)
  {
    hide BufferAt, PairOf, Updated;
  }

  lemma SameUpdate(rule: Rule, t0: Books, before: Tensors, t1: Books, now: Tensors, p: nat)
    requires p in t0.weights && p in t1.weights
    requires PairOf(t1, now, p) == PairOf(t0, before, p) && GradientAt(t1, now, p) == GradientAt(t0, before, p)
    ensures Updated(rule, t1, now, p) == Updated(rule, t0, before, p)
  {
  }

  lemma ProgressStep(rule: Rule, t0: Books, x0: Tensors, t1: Books, x1: Tensors, t2: Books, x2: Tensors, p: nat)
    requires Progress(rule, t0, x0, t1, x1) && Aside(p, t1, x1, t2, x2) && p in t1.Named()
    requires t2.states.Keys <= t1.states.Keys + {p} && t2.buffers == t1.buffers
    requires PairOf(t2, x2, p) == PairOf(t1, x1, p) || PairOf(t2, x2, p) == Updated(rule, t1, x1, p)
    ensures Mixed(rule, t0, x0, t2, x2) && forall q | q != p && q in t2.weights && q in t1.weights :: t2.weights[q] == t1.weights[q]
    ensures t2.Named() == t1.Named() - {p} && PairOf(t2, x2, p) == Updated(rule, t1, x1, p) ==> Progress(rule, t0, x0, t2, x2)
  {
    hide PairOf, Updated, BufferAt, GradientAt, Mixed, Progress;
    SameUpdateIn(rule, t0, x0, t1, x1, p);
    MixedStep(rule, t0, x0, t1, x1, t2, x2, p);
    if t2.Named() == t1.Named() - {p} && PairOf(t2, x2, p) == Updated(rule, t1, x1, p) {
      DoneStep(rule, t0, x0, t1, x1, t2, x2, p);
    }
  }

  lemma SameUpdateIn(rule: Rule, t0: Books, x0: Tensors, t1: Books, x1: Tensors, p: nat)
    requires Progress(rule, t0, x0, t1, x1) && p in t1.Named()
    ensures p in t0.Named() && p in t0.weights && p in t1.weights && PairOf(t1, x1, p) == PairOf(t0, x0, p)
    ensures Updated(rule, t1, x1, p) == Updated(rule, t0, x0, p)
  {
    SameUpdate(rule, t0, x0, t1, x1, p);
  }

  lemma MixedStep(rule: Rule, t0: Books, x0: Tensors, t1: Books, x1: Tensors, t2: Books, x2: Tensors, p: nat)
    requires Progress(rule, t0, x0, t1, x1) && Aside(p, t1, x1, t2, x2) && p in t1.Named() && p in t0.weights && p in t2.weights
    requires t2.states.Keys <= t1.states.Keys + {p} && t2.buffers == t1.buffers
    requires PairOf(t2, x2, p) == PairOf(t0, x0, p) || PairOf(t2, x2, p) == Updated(rule, t0, x0, p)
    ensures Mixed(rule, t0, x0, t2, x2)
  {
    hide PairOf, Updated, BufferAt, GradientAt;
  }

  lemma DoneStep(rule: Rule, t0: Books, x0: Tensors, t1: Books, x1: Tensors, t2: Books, x2: Tensors, p: nat)
    requires Progress(rule, t0, x0, t1, x1) && Aside(p, t1, x1, t2, x2) && p in t1.Named() && p in t0.weights && p in t2.weights
    requires t2.states.Keys <= t1.states.Keys + {p} && t2.buffers == t1.buffers
    requires t2.Named() == t1.Named() - {p} && PairOf(t2, x2, p) == Updated(rule, t0, x0, p)
    ensures Progress(rule, t0, x0, t2, x2)
  {
    hide PairOf, Updated, BufferAt, GradientAt;
  }

  lemma EarlierKept(role: map<nat, Role>, t: Books, t0: Books, spare: set<nat>, before: Tensors, now: Tensors, h: nat, x: Content)
    requires Tidy(role, t, spare) && h !in role && Kept(t0, before, now) && t == t0.(gradients := t.gradients) && t0.gradients == map[]
    ensures Kept(t0, before, now[h := x])
  {
    forall o | t0.At(o).Some? ensures t0.At(o).value != h {
      assert t.At(o) == t0.At(o);
    }
  }
}
